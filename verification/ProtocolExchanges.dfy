/** On a key where no Unlock ever took another channel's token: a stream is handed out only when it
    is quiet, it carries one request at a time, and a reply taken is the reply to that request. */
module ProtocolExchanges {
  import opened Counting
  import opened RawData
  import opened StreamKey
  import opened StreamCache
  import opened ServerLoop
  import opened Protocol
  import opened ProtocolInv
  import opened ProtocolStructure
  import opened ProtocolReferences
  import opened ProtocolExclusion

  // A stream's history only grows.
  predicate Grows(st: Stream, st': Stream) {
    && st'.handle == st.handle
    && st.reqs <= st'.reqs && st.acts <= st'.acts && st.replies <= st'.replies
  }

  predicate AllGrow(streams: seq<Stream>, streams': seq<Stream>) {
    |streams| <= |streams'| && forall sid :: 0 <= sid < |streams| ==> Grows(streams[sid], streams'[sid])
  }

  lemma ResultGrows(p: Phase, t: nat, streams: seq<Stream>, streams': seq<Stream>)
    requires ResultOk(p, t, streams) && AllGrow(streams, streams')
    ensures ResultOk(p, t, streams')
  {
    if p.Ended() && p.res.Got? {
      var i :| Answered(streams[p.res.sid], i, t, p.res.reply);
      assert Answered(streams'[p.res.sid], i, t, p.res.reply);
    }
  }

  lemma ResultsGrow(calls: seq<Call>, streams: seq<Stream>, streams': seq<Stream>, stolen: set<string>)
    requires ResultsOk(calls, streams, stolen) && AllGrow(streams, streams')
    ensures ResultsOk(calls, streams', stolen)
  {
    forall t | 0 <= t < |calls| && calls[t].Key() !in stolen
      ensures ResultOk(calls[t].phase, t, streams')
    {
      ResultGrows(calls[t].phase, t, streams, streams');
    }
  }

  ghost predicate ExchangesOk(calls: seq<Call>, streams: seq<Stream>, pool: Pool, stolen: set<string>) {
    && UsesOk(calls, streams, stolen)
    && PoolQuiet(calls, streams, pool, stolen)
    && ResultsOk(calls, streams, stolen)
  }

  // Explanations survive when every explaining call still explains.
  lemma PoolQuietCarry(calls: seq<Call>, streams: seq<Stream>, pool: Pool, stolen: set<string>, calls': seq<Call>)
    requires PoolQuiet(calls, streams, pool, stolen)
    requires forall t, h :: Explains(calls, t, h) ==> Explains(calls', t, h)
    ensures PoolQuiet(calls', streams, pool, stolen)
  {
    forall h | Stored(pool, h) && h.id < |streams| && LockKey(h.proto, h.peer) !in stolen && !Quiet(streams[h.id])
      ensures exists t :: Explains(calls', t, h)
    {
      var t :| Explains(calls, t, h);
      assert Explains(calls', t, h);
    }
  }

  // ------------------------------------------------------------------------------------------
  // Steps without stream or pool.

  lemma ExchangesStart(calls: seq<Call>, streams: seq<Stream>, pool: Pool, stolen: set<string>, c: Call)
    requires ExchangesOk(calls, streams, pool, stolen) && c.phase.Locking?
    ensures ExchangesOk(calls + [c], streams, pool, stolen)
  {
    PoolQuietCarry(calls, streams, pool, stolen, calls + [c]);
  }

  lemma ExchangesGo(calls: seq<Call>, streams: seq<Stream>, pool: Pool, stolen: set<string>, t: nat, p: Phase)
    requires ExchangesOk(calls, streams, pool, stolen) && t < |calls|
    requires calls[t].Key() !in stolen ==> InUse(calls[t].(phase := p), t, streams)
    requires calls[t].Key() !in stolen ==> ResultOk(p, t, streams)
    requires forall h :: Explains(calls, t, h) ==> Explains(Go(calls, t, p), t, h)
    ensures ExchangesOk(Go(calls, t, p), streams, pool, stolen)
  {
    PoolQuietCarry(calls, streams, pool, stolen, Go(calls, t, p));
  }

  lemma MoreStolen(calls: seq<Call>, streams: seq<Stream>, pool: Pool, stolen: set<string>, stolen': set<string>)
    requires ExchangesOk(calls, streams, pool, stolen) && stolen <= stolen'
    ensures ExchangesOk(calls, streams, pool, stolen')
  {
  }

  // Phases a call goes through without a stream, and without ceasing to explain what it is dropping.
  lemma QuietMove(calls: seq<Call>, streams: seq<Stream>, e: Event, t: nat, q: Phase)
    requires t < |calls| && Moves(e, calls[t].phase, q)
    requires e.LockOk? || e.LockFail? || e.GetMiss? || e.OpenFail? || e.DelLock? || e.DelLoad? || e.DelDelete?
             || e.DelClose?
    ensures InUse(calls[t].(phase := q), t, streams) && ResultOk(q, t, streams)
    ensures forall h :: Explains(calls, t, h) ==> Explains(Go(calls, t, q), t, h)
  {
  }

  lemma LeaveMove(calls: seq<Call>, streams: seq<Stream>, e: Event, t: nat, q: Phase)
    requires t < |calls| && Moves(e, calls[t].phase, q)
    requires e.UnlockLoad? || e.UnlockEnd?
    ensures InUse(calls[t].(phase := q), t, streams)
    ensures ResultOk(calls[t].phase, t, streams) ==> ResultOk(q, t, streams)
    ensures forall h :: !Explains(calls, t, h)
  {
  }

  // ------------------------------------------------------------------------------------------
  // get, NewStream and put.

  // While call `t` may call get, nobody else is in the middle of something on its pair.
  lemma NobodyElseInPair(s: State, t: nat, u: nat, h: Handle)
    requires Basis(s) && CritOk(s.calls, s.km)
    requires At(s, t, Locked) && s.cacheLock.None? && s.calls[t].Key() !in s.km.stolen
    requires h.peer == s.calls[t].to && h.proto == s.calls[t].proto
    ensures !Explains(s.calls, u, h)
  {
    if Explains(s.calls, u, h) {
      assert s.calls[u].phase.Critical();
      OneCritical(s, t, u);
    }
  }

  /** get hands out only quiet streams: a stream in the middle of something belongs to a call that
      excludes this one, or is being dropped under the cache lock. */
  lemma HandedOutQuiet(s: State, t: nat, h: Handle)
    requires DoGetHit(s, t, h).Some?
    requires Basis(s) && CritOk(s.calls, s.km)
    requires StreamsOk(s.streams) && PoolOk(s.cache.pool, s.streams)
    requires PoolQuiet(s.calls, s.streams, s.cache.pool, s.km.stolen)
    requires s.calls[t].Key() !in s.km.stolen
    ensures h.id < |s.streams| && s.streams[h.id].handle == h && Quiet(s.streams[h.id])
  {
    assert Sync(s.calls[t], s.km.callers[t]);
    assert Stored(s.cache.pool, h);
    CandidateOfPair(s.cache.pool, h, s.calls[t].to, s.calls[t].proto);
    forall u: nat
      ensures !Explains(s.calls, u, h)
    {
      NobodyElseInPair(s, t, u, h);
    }
  }

  lemma ExchangesHit(s: State, t: nat, h: Handle)
    requires DoGetHit(s, t, h).Some?
    requires Basis(s) && CritOk(s.calls, s.km) && References(s) && Exchanges(s)
    ensures Exchanges(DoGetHit(s, t, h).value)
  {
    if s.calls[t].Key() !in s.km.stolen {
      HandedOutQuiet(s, t, h);
    }
    ExchangesGo(s.calls, s.streams, s.cache.pool, s.km.stolen, t, Hit(h.id));
  }

  lemma ExchangesMoreStreams(calls: seq<Call>, streams: seq<Stream>, pool: Pool, stolen: set<string>, st: Stream)
    requires ExchangesOk(calls, streams, pool, stolen) && PoolOk(pool, streams)
    ensures ExchangesOk(calls, streams + [st], pool, stolen)
  {
    var more := streams + [st];
    forall u | 0 <= u < |calls| && calls[u].Key() !in stolen
      ensures InUse(calls[u], u, more)
    {
      assert InUse(calls[u], u, streams);
    }
    ResultsGrow(calls, streams, more, stolen);
    assert forall h :: Stored(pool, h) ==> h.id < |streams|;
    assert PoolQuiet(calls, more, pool, stolen);
  }

  lemma ExchangesOpen(s: State, t: nat, remote: string, local: string)
    requires DoOpen(s, t, remote, local).Some? && References(s) && Exchanges(s)
    ensures Exchanges(DoOpen(s, t, remote, local).value)
  {
    var s' := DoOpen(s, t, remote, local).value;
    ExchangesMoreStreams(s.calls, s.streams, s.cache.pool, s.km.stolen, s'.streams[|s.streams|]);
    ExchangesGo(s.calls, s'.streams, s.cache.pool, s.km.stolen, t, Opened(|s.streams|));
  }

  lemma ExchangesPut(s: State, t: nat)
    requires DoPut(s, t).Some? && References(s) && Exchanges(s)
    ensures Exchanges(DoPut(s, t).value)
  {
    var s' := DoPut(s, t).value;
    var sid := s.calls[t].phase.sid;
    ExchangesGo(s.calls, s.streams, s.cache.pool, s.km.stolen, t, Awaiting(sid));
    StoredAfterPut(s.cache, s.streams[sid].handle);
    assert Refers(s.calls[t], s.streams);
    forall h | && Stored(s'.cache.pool, h) && h.id < |s.streams|
               && LockKey(h.proto, h.peer) !in s.km.stolen && !Quiet(s.streams[h.id])
      ensures exists u :: Explains(s'.calls, u, h)
    {
      if h == s.streams[sid].handle {
        assert Explains(s'.calls, t, h);
      } else {
        assert Stored(s.cache.pool, h);
      }
    }
  }

  // ------------------------------------------------------------------------------------------
  // Deletions.

  lemma ExchangesShrink(calls: seq<Call>, streams: seq<Stream>, pool: Pool, stolen: set<string>, pool': Pool)
    requires ExchangesOk(calls, streams, pool, stolen)
    requires forall h :: Stored(pool', h) ==> Stored(pool, h)
    ensures ExchangesOk(calls, streams, pool', stolen)
  {
  }

  /** When the failing call lets go, no stream of its pair is left in the pool. */
  lemma DropsWholePair(c: Cache, to: string, proto: string, h: Handle)
    requires Wf(c.pool) && '@' !in to && h.peer == to && h.proto == proto
    ensures !Stored(Del2(c, to, proto, "").pool, h)
  {
    if proto == "" {
      KeysHaveAt(c.pool);
      AccessorsInvertKey(to, "");
    }
  }

  lemma PoolQuietDrop(calls: seq<Call>, streams: seq<Stream>, pool: Pool, pool': Pool, stolen: set<string>, t: nat)
    requires PoolQuiet(calls, streams, pool, stolen) && t < |calls|
    requires forall h :: Stored(pool', h) ==> Stored(pool, h) && !(h.peer == calls[t].to && h.proto == calls[t].proto)
    ensures PoolQuiet(Go(calls, t, Leaving(Failed)), streams, pool', stolen)
  {
    forall h | Stored(pool', h) && h.id < |streams| && LockKey(h.proto, h.peer) !in stolen && !Quiet(streams[h.id])
      ensures exists u :: Explains(Go(calls, t, Leaving(Failed)), u, h)
    {
      assert Stored(pool, h);
      var u :| Explains(calls, u, h);
      assert Explains(Go(calls, t, Leaving(Failed)), u, h);
    }
  }

  lemma ExchangesDelPool(s: State, t: nat)
    requires DoDelPool(s, t).Some? && Exchanges(s) && t < |s.km.callers| && Sync(s.calls[t], s.km.callers[t])
    ensures Exchanges(DoDelPool(s, t).value)
  {
    var s' := DoDelPool(s, t).value;
    StoredAfterDel2(s.cache, s.calls[t].to, s.calls[t].proto);
    forall h | Stored(s'.cache.pool, h)
      ensures !(h.peer == s.calls[t].to && h.proto == s.calls[t].proto)
    {
      if h.peer == s.calls[t].to && h.proto == s.calls[t].proto {
        DropsWholePair(s.cache, s.calls[t].to, s.calls[t].proto, h);
      }
    }
    PoolQuietDrop(s.calls, s.streams, s.cache.pool, s'.cache.pool, s.km.stolen, t);
  }

  // ------------------------------------------------------------------------------------------
  // A call writes to or reads from its stream.

  // No other call on a sound key uses this call's stream.
  lemma OthersElsewhere(s: State, t: nat, u: nat)
    requires Basis(s) && CritOk(s.calls, s.km) && RefsOk(s.calls, s.streams)
    requires t < |s.calls| && u < |s.calls| && t != u
    requires s.calls[t].phase.HasStream() && s.calls[u].phase.HasStream() && s.calls[u].Key() !in s.km.stolen
    ensures s.calls[t].phase.sid != s.calls[u].phase.sid
  {
    assert Refers(s.calls[t], s.streams) && Refers(s.calls[u], s.streams);
    if s.calls[t].phase.sid == s.calls[u].phase.sid {
      OneCritical(s, t, u);
    }
  }

  lemma UsesTouch(s: State, t: nat, st: Stream, p: Phase)
    requires Basis(s) && CritOk(s.calls, s.km) && RefsOk(s.calls, s.streams)
    requires UsesOk(s.calls, s.streams, s.km.stolen)
    requires t < |s.calls| && s.calls[t].phase.HasStream() && s.calls[t].phase.sid < |s.streams|
    requires s.calls[t].Key() !in s.km.stolen ==>
               InUse(s.calls[t].(phase := p), t, s.streams[s.calls[t].phase.sid := st])
    ensures UsesOk(Go(s.calls, t, p), s.streams[s.calls[t].phase.sid := st], s.km.stolen)
  {
    var sid := s.calls[t].phase.sid;
    forall u | 0 <= u < |s.calls| && u != t && s.calls[u].Key() !in s.km.stolen
      ensures InUse(s.calls[u], u, s.streams[sid := st])
    {
      assert InUse(s.calls[u], u, s.streams);
      if s.calls[u].phase.HasStream() {
        OthersElsewhere(s, t, u);
      }
    }
  }

  lemma PoolTouch(calls: seq<Call>, streams: seq<Stream>, pool: Pool, stolen: set<string>, t: nat, st: Stream, p: Phase)
    requires PoolQuiet(calls, streams, pool, stolen)
    requires t < |calls| && calls[t].phase.HasStream() && calls[t].phase.sid < |streams| && Refers(calls[t], streams)
    requires var sid := calls[t].phase.sid;
             && (forall h :: Stored(pool, h) && h.id == sid ==> h == streams[sid].handle)
             && (Stored(pool, streams[sid].handle) ==>
                   p == Awaiting(sid) || p.Dropping? || (calls[t].Key() !in stolen ==> Quiet(st)))
    ensures PoolQuiet(Go(calls, t, p), streams[calls[t].phase.sid := st], pool, stolen)
  {
    var sid := calls[t].phase.sid;
    var streams' := streams[sid := st];
    forall h | Stored(pool, h) && h.id < |streams'| && LockKey(h.proto, h.peer) !in stolen && !Quiet(streams'[h.id])
      ensures exists u :: Explains(Go(calls, t, p), u, h)
    {
      if h.id == sid {
        assert Explains(Go(calls, t, p), t, h);
      } else {
        var u :| Explains(calls, u, h);
        assert Explains(Go(calls, t, p), u, h);
      }
    }
  }

  lemma ExchangesTouch(s: State, t: nat, st: Stream, p: Phase)
    requires Basis(s) && CritOk(s.calls, s.km) && References(s) && Exchanges(s)
    requires t < |s.calls| && s.calls[t].phase.HasStream() && s.calls[t].phase.sid < |s.streams|
    requires var sid := s.calls[t].phase.sid;
             && Grows(s.streams[sid], st)
             && (|| Fresh(s.calls[t].phase) || p == Awaiting(sid) || p.Dropping?
                 || (s.calls[t].Key() !in s.km.stolen ==> Quiet(st)))
             && (s.calls[t].Key() !in s.km.stolen ==>
                   && InUse(s.calls[t].(phase := p), t, s.streams[sid := st])
                   && ResultOk(p, t, s.streams[sid := st]))
    ensures ExchangesOk(Go(s.calls, t, p), s.streams[s.calls[t].phase.sid := st], s.cache.pool, s.km.stolen)
  {
    var sid := s.calls[t].phase.sid;
    UsesTouch(s, t, st, p);
    assert Refers(s.calls[t], s.streams);
    PoolTouch(s.calls, s.streams, s.cache.pool, s.km.stolen, t, st, p);
    ResultsGrow(s.calls, s.streams, s.streams[sid := st], s.km.stolen);
  }

  lemma ExchangesWrite(s: State, e: Event, t: nat)
    requires Step(s, e).Some? && Basis(s) && CritOk(s.calls, s.km) && References(s) && Exchanges(s)
    requires (e.Write? || e.WriteFail?) && Mover(e) == Some(t)
    ensures Exchanges(Step(s, e).value)
  {
    var s' := Step(s, e).value;
    var sid := s.calls[t].phase.sid;
    if s.calls[t].Key() !in s.km.stolen {
      assert InUse(s.calls[t], t, s.streams);
    }
    ExchangesTouch(s, t, s'.streams[sid], s'.calls[t].phase);
  }

  /** A reply without error text answers the one request that is out, so it is this call's. */
  lemma ReadAnswers(st: Stream, t: nat)
    requires ServerOk(st) && Pending(st, t) && st.taken < |st.replies| && ClientAccepts(st.replies[st.taken])
    ensures Answered(st, st.taken, t, st.replies[st.taken])
    ensures Quiet(st.(taken := st.taken + 1))
  {
  }

  lemma ExchangesRead(s: State, e: Event, t: nat)
    requires Step(s, e).Some? && Basis(s) && CritOk(s.calls, s.km) && References(s) && Exchanges(s)
    requires (e.Read? || e.ReadFail?) && Mover(e) == Some(t)
    ensures Exchanges(Step(s, e).value)
  {
    var s' := Step(s, e).value;
    var sid := s.calls[t].phase.sid;
    var st, p := s.streams[sid], s'.calls[t].phase;
    if s.calls[t].Key() !in s.km.stolen {
      assert InUse(s.calls[t], t, s.streams);
      if p.Leaving? {
        ReadAnswers(st, t);
        assert Answered(s'.streams[sid], st.taken, t, p.res.reply);
      }
    }
    ExchangesTouch(s, t, s'.streams[sid], p);
  }

  // ------------------------------------------------------------------------------------------
  // The far end moves.

  lemma ExchangesFarEnd(s: State, sid: nat, st: Stream)
    requires Exchanges(s) && sid < |s.streams| && Grows(s.streams[sid], st)
    requires st.reqs == s.streams[sid].reqs && st.taken == s.streams[sid].taken && st.tainted == s.streams[sid].tainted
    requires Quiet(s.streams[sid]) ==> st.acts == s.streams[sid].acts
    ensures ExchangesOk(s.calls, s.streams[sid := st], s.cache.pool, s.km.stolen)
  {
    var streams' := s.streams[sid := st];
    assert forall i :: 0 <= i < |s.streams| && Quiet(s.streams[i]) ==> Quiet(streams'[i]);
    forall t | 0 <= t < |s.calls| && s.calls[t].Key() !in s.km.stolen
      ensures InUse(s.calls[t], t, streams')
    {
      assert InUse(s.calls[t], t, s.streams);
    }
    ResultsGrow(s.calls, s.streams, streams', s.km.stolen);
  }

  // ------------------------------------------------------------------------------------------

  lemma OffLockKeepsStolen(s: State, e: Event)
    requires Step(s, e).Some? && !e.UnlockEnd?
    ensures Step(s, e).value.km.stolen == s.km.stolen
  {
  }

  lemma ExchangesUnlock(s: State, e: Event, t: nat)
    requires Step(s, e).Some? && Exchanges(s) && (e.UnlockLoad? || e.UnlockEnd?) && Mover(e) == Some(t)
    ensures Exchanges(Step(s, e).value)
  {
    var s' := Step(s, e).value;
    OnlyMoverMoves(s, e);
    PhaseTable(s, e, t);
    LeaveMove(s.calls, s.streams, e, t, s'.calls[t].phase);
    ExchangesGo(s.calls, s.streams, s.cache.pool, s.km.stolen, t, s'.calls[t].phase);
    PoolChanges(s, e);
    OnlyTouchedChanges(s, e);
    assert s.km.stolen <= s'.km.stolen;
    MoreStolen(s'.calls, s.streams, s.cache.pool, s.km.stolen, s'.km.stolen);
  }

  lemma ExchangesQuietMove(s: State, e: Event, t: nat)
    requires Step(s, e).Some? && Exchanges(s) && Mover(e) == Some(t)
    requires e.LockOk? || e.LockFail? || e.GetMiss? || e.OpenFail? || e.DelLock? || e.DelLoad? || e.DelDelete?
             || e.DelClose?
    ensures Exchanges(Step(s, e).value)
  {
    var s' := Step(s, e).value;
    OnlyMoverMoves(s, e);
    PhaseTable(s, e, t);
    QuietMove(s.calls, s.streams, e, t, s'.calls[t].phase);
    ExchangesGo(s.calls, s.streams, s.cache.pool, s.km.stolen, t, s'.calls[t].phase);
    PoolChanges(s, e);
    OnlyTouchedChanges(s, e);
    OffLockKeepsStolen(s, e);
  }

  lemma ExchangesWorld(s: State, e: Event)
    requires Step(s, e).Some? && References(s) && Exchanges(s)
    requires e.Disconnect? || e.Serve? || e.ServeReadError?
    ensures Exchanges(Step(s, e).value)
  {
    var s' := Step(s, e).value;
    match e {
      case Disconnect(id) =>
        StoredAfterDel2(s.cache, id, "");
        ExchangesShrink(s.calls, s.streams, s.cache.pool, s.km.stolen, s'.cache.pool);
      case Serve(sid, _, _) => ExchangesFarEnd(s, sid, s'.streams[sid]);
      case ServeReadError(sid, _, _, _) => ExchangesFarEnd(s, sid, s'.streams[sid]);
    }
  }

  lemma ExchangesStep(s: State, e: Event)
    requires Step(s, e).Some? && Structure(s) && References(s) && Exclusion(s) && Exchanges(s)
    ensures Exchanges(Step(s, e).value)
  {
    match e {
      case Regist(_) =>
      case Start(_, _, _, _) =>
        ExchangesStart(s.calls, s.streams, s.cache.pool, s.km.stolen, Step(s, e).value.calls[|s.calls|]);
        OffLockKeepsStolen(s, e);
      case GetHit(t, h) => ExchangesHit(s, t, h);
      case Open(t, remote, local) => ExchangesOpen(s, t, remote, local);
      case Write(t, _) => ExchangesWrite(s, e, t);
      case WriteFail(t, _, _) => ExchangesWrite(s, e, t);
      case PutStream(t) => ExchangesPut(s, t);
      case Read(t) => ExchangesRead(s, e, t);
      case ReadFail(t) => ExchangesRead(s, e, t);
      case DelPool(t) =>
        assert Sync(s.calls[t], s.km.callers[t]);
        ExchangesDelPool(s, t);
      case UnlockLoad(t) => ExchangesUnlock(s, e, t);
      case UnlockEnd(t, _) => ExchangesUnlock(s, e, t);
      case Disconnect(_) => ExchangesWorld(s, e);
      case Serve(_, _, _) => ExchangesWorld(s, e);
      case ServeReadError(_, _, _, _) => ExchangesWorld(s, e);
      case _ => ExchangesQuietMove(s, e, Mover(e).value);
    }
  }
}
