/** Every protocol step keeps streams, pool and calls consistent, and each far end a prefix of a
    server-loop run. */
module ProtocolReferences {
  import opened Counting
  import opened RawData
  import opened StreamKey
  import opened StreamCache
  import opened ServerLoop
  import opened Protocol
  import opened ProtocolInv
  import opened ProtocolStructure

  // ------------------------------------------------------------------------------------------
  // The pool after a cache operation.

  lemma StoredAfterPut(c: Cache, h: Handle)
    requires Wf(c.pool)
    ensures Wf(Put(c, h).pool)
    ensures forall g :: Stored(Put(c, h).pool, g) ==> Stored(c.pool, g) || g == h
  {
    PutKeepsWf(c, h);
  }

  lemma StoredAfterDel2(c: Cache, to: string, protoid: string)
    requires Wf(c.pool)
    ensures Wf(Del2(c, to, protoid, "").pool)
    ensures forall g :: Stored(Del2(c, to, protoid, "").pool, g) ==> Stored(c.pool, g)
  {
    Del2KeepsWf(c, to, protoid, "");
    forall g | Stored(Del2(c, to, protoid, "").pool, g)
      ensures Stored(c.pool, g)
    {
      Del2ClosesWhatItRemoves(c, to, protoid, "", g);
      StoredIffHandle(c.pool, g);
      StoredIffHandle(Del2(c, to, protoid, "").pool, g);
    }
  }

  // ------------------------------------------------------------------------------------------
  // One stream changes, or one is added.

  predicate SameHandles(streams: seq<Stream>, streams': seq<Stream>) {
    && |streams| <= |streams'|
    && forall sid :: 0 <= sid < |streams| ==> streams'[sid].handle == streams[sid].handle
  }

  lemma HandlesKeepReferences(calls: seq<Call>, streams: seq<Stream>, pool: Pool, streams': seq<Stream>)
    requires PoolOk(pool, streams) && RefsOk(calls, streams) && FreshOk(calls, streams, pool)
    requires SameHandles(streams, streams')
    ensures PoolOk(pool, streams') && RefsOk(calls, streams') && FreshOk(calls, streams', pool)
  {
    forall t | 0 <= t < |calls|
      ensures Refers(calls[t], streams')
    {
      assert Refers(calls[t], streams);
    }
  }

  lemma ServerOkAppend(st: Stream, call: nat, uuid: seq<byte>, msg: seq<byte>)
    requires ServerOk(st)
    ensures ServerOk(Append(st, call, uuid, msg))
  {
  }

  lemma ServerOkServe(s: State, sid: nat, act: Act, write: Delivery)
    requires DoServe(s, sid, act, write).Some? && ServerOk(s.streams[sid])
    ensures ServerOk(DoServe(s, sid, act, write).value.streams[sid])
  {
    var st := s.streams[sid];
    TurnCases(st.server, Incoming(st.reqs[|st.acts|].frame, None), act, write);
  }

  lemma ServerOkReadError(s: State, sid: nat, part: RawData, text: string, write: Delivery)
    requires DoServeReadError(s, sid, part, text, write).Some? && ServerOk(s.streams[sid])
    ensures ServerOk(DoServeReadError(s, sid, part, text, write).value.streams[sid])
  {
    TurnCases(s.streams[sid].server, Incoming(part, Some(text)), Act(0, [], None), write);
  }

  // The stream a step writes to, reads from or serves.
  function Touched(s: State, e: Event): Option<nat> {
    match e
    case Write(t, _) => if ToWrite(s, t) then Some(s.calls[t].phase.sid) else None
    case WriteFail(t, _, _) => if ToWrite(s, t) then Some(s.calls[t].phase.sid) else None
    case Read(t) => if ToRead(s, t) then Some(s.calls[t].phase.sid) else None
    case ReadFail(t) => if ToRead(s, t) then Some(s.calls[t].phase.sid) else None
    case Serve(sid, _, _) => Some(sid)
    case ServeReadError(sid, _, _, _) => Some(sid)
    case _ => None
  }

  lemma OnlyTouchedChanges(s: State, e: Event)
    requires Step(s, e).Some? && !e.Open?
    ensures var s' := Step(s, e).value;
            match Touched(s, e)
            case None => s'.streams == s.streams
            case Some(sid) =>
              && sid < |s.streams| == |s'.streams|
              && s'.streams == s.streams[sid := s'.streams[sid]] && s'.streams[sid].handle == s.streams[sid].handle
  {
  }

  lemma TouchedServerOk(s: State, e: Event, sid: nat)
    requires Step(s, e).Some? && Touched(s, e) == Some(sid) && sid < |s.streams| && ServerOk(s.streams[sid])
    ensures sid < |Step(s, e).value.streams| && ServerOk(Step(s, e).value.streams[sid])
  {
    match e {
      case Write(t, uuid) => ServerOkAppend(s.streams[sid], t, uuid, s.calls[t].msg);
      case WriteFail(t, uuid, _) => ServerOkAppend(s.streams[sid], t, uuid, s.calls[t].msg);
      case Serve(_, act, write) => ServerOkServe(s, sid, act, write);
      case ServeReadError(_, part, text, write) => ServerOkReadError(s, sid, part, text, write);
      case _ =>
    }
  }

  // ------------------------------------------------------------------------------------------
  // One call changes, or one is added.

  lemma ReferencesStart(calls: seq<Call>, streams: seq<Stream>, pool: Pool, c: Call)
    requires RefsOk(calls, streams) && FreshOk(calls, streams, pool) && c.phase.Locking?
    ensures RefsOk(calls + [c], streams) && FreshOk(calls + [c], streams, pool)
  {
    assert forall t :: 0 <= t < |calls| ==> (calls + [c])[t] == calls[t];
  }

  // The call keeps its stream, or lets go of it, and a fresh one stays out of the pool.
  lemma ReferencesGo(calls: seq<Call>, streams: seq<Stream>, pool: Pool, t: nat, p: Phase)
    requires RefsOk(calls, streams) && FreshOk(calls, streams, pool) && t < |calls|
    requires p.HasStream() ==> calls[t].phase.HasStream() && p.sid == calls[t].phase.sid
    requires Fresh(p) ==> Fresh(calls[t].phase)
    ensures RefsOk(Go(calls, t, p), streams) && FreshOk(Go(calls, t, p), streams, pool)
  {
    assert Refers(calls[t], streams);
  }

  lemma ReferencesHit(calls: seq<Call>, streams: seq<Stream>, pool: Pool, t: nat, h: Handle)
    requires PoolOk(pool, streams) && RefsOk(calls, streams) && FreshOk(calls, streams, pool) && t < |calls|
    requires Stored(pool, h) && h.peer == calls[t].to && h.proto == calls[t].proto
    ensures RefsOk(Go(calls, t, Hit(h.id)), streams) && FreshOk(Go(calls, t, Hit(h.id)), streams, pool)
  {
    forall u | 0 <= u < |calls| && u != t
      ensures !OnFreshOf(calls[u].phase, Hit(h.id))
    {
      PooledIsNotFresh(calls, streams, pool, u, h);
    }
    FreshGo(calls, streams, pool, t, Hit(h.id));
  }

  lemma PooledIsNotFresh(calls: seq<Call>, streams: seq<Stream>, pool: Pool, u: nat, h: Handle)
    requires PoolOk(pool, streams) && FreshOk(calls, streams, pool) && u < |calls| && Stored(pool, h)
    ensures !OnFreshOf(calls[u].phase, Hit(h.id))
  {
  }

  // A call takes up a stream that is no other call's fresh one, and not as a fresh one of its own.
  lemma FreshGo(calls: seq<Call>, streams: seq<Stream>, pool: Pool, t: nat, p: Phase)
    requires FreshOk(calls, streams, pool) && t < |calls| && !Fresh(p)
    requires forall u :: 0 <= u < |calls| && u != t ==> !OnFreshOf(calls[u].phase, p)
    ensures FreshOk(Go(calls, t, p), streams, pool)
  {
  }

  // get returns a stream of the pair it was asked for.
  lemma CandidateOfPair(pool: Pool, h: Handle, to: string, proto: string)
    requires Wf(pool) && h in Candidates(pool, to, proto) && '@' !in to && '@' !in h.peer
    ensures Stored(pool, h) && h.peer == to && h.proto == proto
  {
    KeyInjective(h.peer, h.proto, to, proto);
  }

  lemma ReferencesOpen(calls: seq<Call>, streams: seq<Stream>, pool: Pool, t: nat, st: Stream)
    requires PoolOk(pool, streams) && RefsOk(calls, streams) && FreshOk(calls, streams, pool) && t < |calls|
    requires st.handle.peer == calls[t].to && st.handle.proto == calls[t].proto && st.handle.id == |streams|
    ensures PoolOk(pool, streams + [st])
    ensures RefsOk(Go(calls, t, Opened(|streams|)), streams + [st])
    ensures FreshOk(Go(calls, t, Opened(|streams|)), streams + [st], pool)
  {
    HandlesKeepReferences(calls, streams, pool, streams + [st]);
    forall u | 0 <= u < |calls|
      ensures calls[u].phase.HasStream() ==> calls[u].phase.sid < |streams|
    {
      assert Refers(calls[u], streams);
    }
    FreshOpen(calls, streams, pool, t, st);
  }

  lemma FreshOpen(calls: seq<Call>, streams: seq<Stream>, pool: Pool, t: nat, st: Stream)
    requires FreshOk(calls, streams + [st], pool) && t < |calls| && PoolOk(pool, streams) && st.handle.id == |streams|
    requires forall u :: 0 <= u < |calls| && calls[u].phase.HasStream() ==> calls[u].phase.sid < |streams|
    ensures FreshOk(Go(calls, t, Opened(|streams|)), streams + [st], pool)
  {
    assert !Stored(pool, st.handle);
  }

  lemma ReferencesPut(calls: seq<Call>, streams: seq<Stream>, cache: Cache, t: nat)
    requires StreamsOk(streams) && PoolOk(cache.pool, streams)
    requires RefsOk(calls, streams) && FreshOk(calls, streams, cache.pool)
    requires t < |calls| && calls[t].phase.Wrote? && calls[t].phase.sid < |streams|
    ensures var sid := calls[t].phase.sid;
            var pool' := Put(cache, streams[sid].handle).pool;
            && PoolOk(pool', streams)
            && RefsOk(Go(calls, t, Awaiting(sid)), streams)
            && FreshOk(Go(calls, t, Awaiting(sid)), streams, pool')
  {
    var sid := calls[t].phase.sid;
    StoredAfterPut(cache, streams[sid].handle);
    ReferencesGo(calls, streams, cache.pool, t, Awaiting(sid));
    forall u | 0 <= u < |calls| && u != t && Fresh(calls[u].phase) && calls[u].phase.sid < |streams|
      ensures !Stored(Put(cache, streams[sid].handle).pool, streams[calls[u].phase.sid].handle)
    {
      assert !OnFreshOf(calls[u].phase, calls[t].phase);
    }
  }

  lemma ReferencesShrink(calls: seq<Call>, streams: seq<Stream>, pool: Pool, pool': Pool)
    requires PoolOk(pool, streams) && FreshOk(calls, streams, pool)
    requires Wf(pool') && forall h :: Stored(pool', h) ==> Stored(pool, h)
    ensures PoolOk(pool', streams) && FreshOk(calls, streams, pool')
  {
  }

  // ------------------------------------------------------------------------------------------

  lemma StreamsStep(s: State, e: Event)
    requires Step(s, e).Some? && StreamsOk(s.streams) && SyncOk(s.calls, s.km.callers)
    ensures StreamsOk(Step(s, e).value.streams)
  {
    if e.Open? {
      assert Sync(s.calls[e.t], s.km.callers[e.t]);
    } else {
      OnlyTouchedChanges(s, e);
      if Touched(s, e).Some? {
        TouchedServerOk(s, e, Touched(s, e).value);
      }
    }
  }

  lemma PoolChanges(s: State, e: Event)
    requires Step(s, e).Some? && !e.PutStream? && !e.DelPool? && !e.Disconnect?
    ensures Step(s, e).value.cache == s.cache
  {
  }

  // Steps that change no call's stream and no pool.
  predicate Plain(e: Event) {
    !e.Start? && !e.GetHit? && !e.Open? && !e.PutStream? && !e.DelPool? && !e.Disconnect?
  }

  lemma PlainKeepsHandles(s: State, e: Event)
    requires Step(s, e).Some? && Plain(e)
    ensures Step(s, e).value.cache == s.cache && SameHandles(s.streams, Step(s, e).value.streams)
  {
    PoolChanges(s, e);
    OnlyTouchedChanges(s, e);
  }

  lemma PlainMove(calls: seq<Call>, streams: seq<Stream>, pool: Pool, e: Event, t: nat, q: Phase)
    requires RefsOk(calls, streams) && FreshOk(calls, streams, pool)
    requires Plain(e) && t < |calls| && Moves(e, calls[t].phase, q)
    ensures RefsOk(Go(calls, t, q), streams) && FreshOk(Go(calls, t, q), streams, pool)
  {
    ReferencesGo(calls, streams, pool, t, q);
  }

  lemma ReferencesPlain(s: State, e: Event)
    requires Step(s, e).Some? && Plain(e)
    requires PoolOk(s.cache.pool, s.streams) && RefsOk(s.calls, s.streams) && FreshOk(s.calls, s.streams, s.cache.pool)
    ensures var s' := Step(s, e).value;
            && PoolOk(s'.cache.pool, s'.streams) && RefsOk(s'.calls, s'.streams)
            && FreshOk(s'.calls, s'.streams, s'.cache.pool)
  {
    var s' := Step(s, e).value;
    PlainKeepsHandles(s, e);
    HandlesKeepReferences(s.calls, s.streams, s.cache.pool, s'.streams);
    OnlyMoverMoves(s, e);
    if Mover(e).Some? {
      PhaseTable(s, e, Mover(e).value);
      PlainMove(s.calls, s'.streams, s.cache.pool, e, Mover(e).value, s'.calls[Mover(e).value].phase);
    }
  }

  lemma ReferencesPool(s: State, e: Event)
    requires Step(s, e).Some? && References(s)
    requires e.PutStream? || e.DelPool? || e.Disconnect?
    ensures References(Step(s, e).value)
  {
    match e {
      case PutStream(t) => ReferencesPut(s.calls, s.streams, s.cache, t);
      case DelPool(t) =>
        StoredAfterDel2(s.cache, s.calls[t].to, s.calls[t].proto);
        ReferencesShrink(s.calls, s.streams, s.cache.pool, Step(s, e).value.cache.pool);
        ReferencesGo(s.calls, s.streams, Step(s, e).value.cache.pool, t, Leaving(Failed));
      case Disconnect(id) =>
        StoredAfterDel2(s.cache, id, "");
        ReferencesShrink(s.calls, s.streams, s.cache.pool, Step(s, e).value.cache.pool);
    }
  }

  lemma ReferencesNew(s: State, e: Event)
    requires Step(s, e).Some? && References(s) && SyncOk(s.calls, s.km.callers)
    requires e.Start? || e.GetHit? || e.Open?
    ensures var s' := Step(s, e).value;
            && PoolOk(s'.cache.pool, s'.streams) && RefsOk(s'.calls, s'.streams)
            && FreshOk(s'.calls, s'.streams, s'.cache.pool)
  {
    var s' := Step(s, e).value;
    match e {
      case Start(_, _, _, _) => ReferencesStart(s.calls, s.streams, s.cache.pool, s'.calls[|s.calls|]);
      case GetHit(t, h) =>
        assert Sync(s.calls[t], s.km.callers[t]);
        assert Stored(s.cache.pool, h);
        CandidateOfPair(s.cache.pool, h, s.calls[t].to, s.calls[t].proto);
        ReferencesHit(s.calls, s.streams, s.cache.pool, t, h);
      case Open(t, _, _) => ReferencesOpen(s.calls, s.streams, s.cache.pool, t, s'.streams[|s.streams|]);
    }
  }

  lemma ReferencesStep(s: State, e: Event)
    requires Step(s, e).Some? && References(s) && SyncOk(s.calls, s.km.callers)
    ensures References(Step(s, e).value)
  {
    StreamsStep(s, e);
    if e.PutStream? || e.DelPool? || e.Disconnect? {
      ReferencesPool(s, e);
    } else if e.Start? || e.GetHit? || e.Open? {
      ReferencesNew(s, e);
    } else {
      ReferencesPlain(s, e);
    }
  }
}
