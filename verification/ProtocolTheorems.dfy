/** What every run of the request protocol guarantees. */
module ProtocolTheorems {
  import opened Counting
  import opened RawData
  import opened StreamKey
  import opened StreamCache
  import opened ServerLoop
  import opened Protocol
  import opened ProtocolInv
  import opened ProtocolStructure
  import opened ProtocolReferences
  import opened ProtocolRequests
  import opened ProtocolExclusion
  import opened ProtocolExchanges
  import opened ProtocolSequential
  import KM = KeyMutex
  import KP = KeyMutexProofs

  lemma InvInit()
    ensures Inv(INIT)
  {
    assert Run([]) == Some(INIT);
    KP.InvRun([]);
  }

  lemma InvStep(s: State, e: Event)
    requires Inv(s) && Step(s, e).Some?
    ensures Inv(Step(s, e).value)
  {
    StructureStep(s, e);
    ReferencesStep(s, e);
    RequestsStep(s, e);
    ExclusionStep(s, e);
    ExchangesStep(s, e);
    SequentialStep(s, e);
  }

  lemma {:induction false} InvRun(es: seq<Event>)
    requires Run(es).Some?
    ensures Inv(Run(es).value)
  {
    if es == [] {
      InvInit();
    } else {
      InvRun(es[..|es| - 1]);
      InvStep(Run(es[..|es| - 1]).value, es[|es| - 1]);
    }
  }

  /** Call `t` succeeded, and what it took is the answer to its own request: there is exactly one
      request of this call anywhere, it carries the call's message, its handler succeeded, and the
      frame taken carries that request's id, byte for byte, and what that handler run wrote. */
  ghost predicate Paired(s: State, t: nat, sid: nat, reply: RawData) {
    sid < |s.streams| && t < |s.calls| && exists i :: PairedAt(s, t, sid, reply, i)
  }

  ghost predicate PairedAt(s: State, t: nat, sid: nat, reply: RawData, i: nat)
    requires sid < |s.streams| && t < |s.calls|
  {
    var st := s.streams[sid];
    && Answered(st, i, t, reply)
    && (forall a, j :: Sent(s.streams, t, a, j) ==> a == sid && j == i)
    && st.reqs[i].frame.data == s.calls[t].msg
    && st.acts[i].err.None?
    && reply == RawData(st.reqs[i].frame.id, "", st.acts[i].wrote)
  }

  predicate Succeeded(s: State, t: nat) {
    t < |s.calls| && s.calls[t].phase.Ended() && s.calls[t].phase.res.Got?
  }

  lemma AnsweredMeansPaired(calls: seq<Call>, streams: seq<Stream>, s: State, t: nat, sid: nat, reply: RawData, i: nat)
    requires s.calls == calls && s.streams == streams && t < |calls| && sid < |streams|
    requires ReqsOk(calls, streams) && OneRequestEach(streams) && ServerOk(streams[sid])
    requires Answered(streams[sid], i, t, reply)
    ensures PairedAt(s, t, sid, reply, i)
  {
    var req := streams[sid].reqs[i];
    assert RequestOk(req, calls);
    assert Sent(streams, t, sid, i);
    IdNormalises(req.frame.id);
  }

  lemma OkImpliesPaired(s: State, t: nat)
    requires StreamsOk(s.streams) && Requests(s) && ResultsOk(s.calls, s.streams, s.km.stolen)
    requires Succeeded(s, t) && s.calls[t].Key() !in s.km.stolen
    ensures Paired(s, t, s.calls[t].phase.res.sid, s.calls[t].phase.res.reply)
  {
    var Got(sid, reply) := s.calls[t].phase.res;
    assert ResultOk(s.calls[t].phase, t, s.streams);
    var i: nat :| Answered(s.streams[sid], i, t, reply);
    AnsweredMeansPaired(s.calls, s.streams, s, t, sid, reply, i);
  }

  /** Main result. For any number of clients, any interleaving, any failures, cleans and disconnects:
      as long as no Unlock on the call's key has taken the token of a channel other than the one it
      locked, every successful RequestWithTimeout returns, and every successful SendMsgAfterClose
      consumes, the reply to its own request. */
  lemma RepliesArePaired(es: seq<Event>, t: nat)
    requires Run(es).Some? && Succeeded(Run(es).value, t)
    requires Run(es).value.calls[t].Key() !in Run(es).value.km.stolen
    ensures var s := Run(es).value;
            Paired(s, t, s.calls[t].phase.res.sid, s.calls[t].phase.res.reply)
  {
    InvRun(es);
    OkImpliesPaired(Run(es).value, t);
  }

  /** In particular up to the first Clean of the key, however calls and disconnects interleave. */
  lemma PairedUntilFirstClean(es: seq<Event>, t: nat)
    requires Run(es).Some? && Succeeded(Run(es).value, t)
    requires Run(es).value.km.deletes[Run(es).value.calls[t].Key()] == 0
    ensures var s := Run(es).value;
            Paired(s, t, s.calls[t].phase.res.sid, s.calls[t].phase.res.reply)
  {
    InvRun(es);
    OkImpliesPaired(Run(es).value, t);
  }

  /** And over any history of non-overlapping calls on the key, with write errors, read timeouts, late
      replies, error replies, cleans and disconnects. */
  lemma PairedWithoutOverlap(es: seq<Event>, t: nat)
    requires Run(es).Some? && Succeeded(Run(es).value, t)
    requires Run(es).value.calls[t].Key() !in Run(es).value.overlapped
    ensures var s := Run(es).value;
            Paired(s, t, s.calls[t].phase.res.sid, s.calls[t].phase.res.reply)
  {
    InvRun(es);
    OkImpliesPaired(Run(es).value, t);
  }

  /** A stream on which an exchange failed is never handed out again; one that is handed out has every
      request answered and every answer read. */
  lemma FailedStreamsNotReused(es: seq<Event>, t: nat, h: Handle)
    requires Run(es).Some? && DoGetHit(Run(es).value, t, h).Some?
    requires Run(es).value.calls[t].Key() !in Run(es).value.km.stolen
    ensures h.id < |Run(es).value.streams|
    ensures var st := Run(es).value.streams[h.id];
            && st.handle == h && !st.tainted
            && st.taken == |st.reqs| == |st.acts|
            && (forall i :: st.taken <= i < |st.replies| ==> st.replies[i].err != "")
  {
    InvRun(es);
    var s := Run(es).value;
    HandedOutAtRest(s, t, h);
  }

  lemma HandedOutAtRest(s: State, t: nat, h: Handle)
    requires DoGetHit(s, t, h).Some? && s.calls[t].Key() !in s.km.stolen
    requires Basis(s) && CritOk(s.calls, s.km) && StreamsOk(s.streams) && PoolOk(s.cache.pool, s.streams)
    requires PoolQuiet(s.calls, s.streams, s.cache.pool, s.km.stolen)
    ensures h.id < |s.streams|
    ensures var st := s.streams[h.id];
            && st.handle == h && Quiet(st)
            && (forall i :: st.taken <= i < |st.replies| ==> st.replies[i].err != "")
  {
    HandedOutQuiet(s, t, h);
    QuietIsRead(s.streams, h.id);
  }

  // On a quiet stream the only frame that can be left is the error reply of a loop that has ended.
  lemma QuietIsRead(streams: seq<Stream>, sid: nat)
    requires StreamsOk(streams) && sid < |streams| && Quiet(streams[sid])
    ensures forall i :: streams[sid].taken <= i < |streams[sid].replies| ==> streams[sid].replies[i].err != ""
  {
    assert ServerOk(streams[sid]);
  }

  /** While a sound key's lock is free and no call of that key is in del2, every pooled stream of the pair is
      at rest: no unanswered request, no unread answer. */
  lemma FreeLockMeansQuietPool(es: seq<Event>, h: Handle)
    requires Run(es).Some? && Stored(Run(es).value.cache.pool, h)
    requires LockKey(h.proto, h.peer) !in Run(es).value.km.stolen
    requires var s, k := Run(es).value, LockKey(h.proto, h.peer);
             && NoDel2On(s, k)
             && (k in s.km.slots ==> s.km.slots[k] < |s.km.chans| && !s.km.chans[s.km.slots[k]].full)
    ensures h.id < |Run(es).value.streams| && Quiet(Run(es).value.streams[h.id])
  {
    InvRun(es);
    FreeLockQuiet(Run(es).value, h);
  }

  // The call that holds the cache lock, if any, is on another key.
  predicate NoDel2On(s: State, k: string) {
    s.cacheLock.Some? && s.cacheLock.value < |s.calls| ==> s.calls[s.cacheLock.value].Key() != k
  }

  lemma FreeLockQuiet(s: State, h: Handle)
    requires Basis(s) && CritOk(s.calls, s.km) && PoolOk(s.cache.pool, s.streams)
    requires PoolQuiet(s.calls, s.streams, s.cache.pool, s.km.stolen)
    requires Stored(s.cache.pool, h) && LockKey(h.proto, h.peer) !in s.km.stolen
    requires NoDel2On(s, LockKey(h.proto, h.peer))
    requires var k := LockKey(h.proto, h.peer);
             k in s.km.slots ==> s.km.slots[k] < |s.km.chans| && !s.km.chans[s.km.slots[k]].full
    ensures h.id < |s.streams| && Quiet(s.streams[h.id])
  {
    forall u: nat
      ensures !Explains(s.calls, u, h)
    {
      FreeLockNobodyCritical(s, u, LockKey(h.proto, h.peer));
    }
  }

  lemma FreeLockNobodyCritical(s: State, u: nat, k: string)
    requires Basis(s) && CritOk(s.calls, s.km) && k !in s.km.stolen
    requires k in s.km.slots ==> s.km.slots[k] < |s.km.chans| && !s.km.chans[s.km.slots[k]].full
    ensures !(u < |s.calls| && s.calls[u].Key() == k && s.calls[u].phase.Critical())
  {
    if u < |s.calls| {
      assert Sync(s.calls[u], s.km.callers[u]);
    }
  }

  lemma ReachedPool(es: seq<Event>)
    requires Run(es).Some?
    ensures Wf(Run(es).value.cache.pool)
  {
    InvRun(es);
  }

  /** A disconnect drops exactly the pooled streams whose key names that peer second; of streams whose names
      have no '@' these are exactly the peer's. It leaves all key locks and all streams as they were. */
  lemma DisconnectDropsOnlyPeer(es: seq<Event>, id: string, h: Handle)
    requires Run(es).Some? && Run(es).value.cacheLock.None?
    ensures '@' in h.Key() && DoDisconnect(Run(es).value, id).Some?
    ensures var s, s' := Run(es).value, DoDisconnect(Run(es).value, id).value;
            && (Stored(s'.cache.pool, h) <==> Stored(s.cache.pool, h) && Id(h.Key()) != id)
            && (h.Plain() ==> Id(h.Key()) == h.peer)
            && (forall c: nat :: c !in s.km.cleaners ==> KM.DoCleanLoad(s.km, c, "", id) == Some(s'.km))
            && s'.streams == s.streams && s'.calls == s.calls
  {
    var s := Run(es).value;
    ReachedPool(es);
    KeyHasAt(h.peer, h.proto);
    DelPeerStored(s.cache, id, h);
    AccessorsInvertKey(h.peer, h.proto);
  }

  // ------------------------------------------------------------------------------------------
  // Generations under the cache lock.

  // Clean runs inside del2, and del2 holds the cache lock: none starts while another is under way.
  lemma CleansStayApart(s: State, e: Event)
    requires Step(s, e).Some? && DelOk(s.calls, s.km.cleaners, s.cacheLock) && !s.km.cleansOverlapped
    ensures !Step(s, e).value.km.cleansOverlapped
  {
    if e.DelLoad? {
      assert s.km.cleaners == map[];
    }
  }

  lemma {:induction false} CleansNeverOverlap(es: seq<Event>)
    requires Run(es).Some?
    ensures !Run(es).value.km.cleansOverlapped
  {
    if es != [] {
      var r := Run(es[..|es| - 1]).value;
      CleansNeverOverlap(es[..|es| - 1]);
      ReachedDel(es[..|es| - 1], r);
      CleansStayApart(r, es[|es| - 1]);
    }
  }

  lemma ReachedDel(es: seq<Event>, s: State)
    requires Run(es) == Some(s)
    ensures DelOk(s.calls, s.km.cleaners, s.cacheLock) && KP.Inv(s.km)
  {
    InvRun(es);
  }

  /** Generations are sound in every run of the protocol: a channel in the map is open; every other
      channel ever made is closed, exactly once, as soon as the one Clean that deleted it is over; and
      a Clean closes the very channel that it deleted. */
  lemma GenerationsSoundInProtocol(es: seq<Event>, c: KM.ChanId)
    requires Run(es).Some? && c < |Run(es).value.km.chans|
    ensures var km := Run(es).value.km;
            && km.chans[c].closes <= 1
            && (km.chans[c].closes == 1 <==>
                  !KP.Current(km.slots, km.chans[c].key, c) && !KP.PendingClose(km.cleaners, c))
            && (forall d :: d in km.cleaners && km.cleaners[d].Deleted? ==>
                              km.cleaners[d].gone == Some(km.cleaners[d].ch))
            && (forall d, f :: d in km.cleaners && f in km.cleaners ==> d == f)
  {
    CleansNeverOverlap(es);
    ReachedDel(es, Run(es).value);
    ClosedOnce(Run(es).value.km, c);
  }

  lemma ClosedOnce(km: KM.State, c: KM.ChanId)
    requires KP.Closes(km) && c < |km.chans|
    ensures km.chans[c].closes <= 1
    ensures km.chans[c].closes == 1 <==>
            !KP.Current(km.slots, km.chans[c].key, c) && !KP.PendingClose(km.cleaners, c)
    ensures forall d :: d in km.cleaners && km.cleaners[d].Deleted? ==> km.cleaners[d].gone == Some(km.cleaners[d].ch)
    ensures forall d, f :: d in km.cleaners && f in km.cleaners ==> d == f
  {
  }

  /** At most one call at a time is in the section that touches streams, per sound key. */
  lemma OneCallTouchesStreams(es: seq<Event>, t: nat, u: nat)
    requires Run(es).Some? && t < |Run(es).value.calls| && u < |Run(es).value.calls|
    requires var s := Run(es).value;
             && s.calls[t].Key() == s.calls[u].Key() && s.calls[t].Key() !in s.km.stolen
             && s.calls[t].phase.Critical() && s.calls[u].phase.Critical()
    ensures t == u
  {
    InvRun(es);
    OneCritical(Run(es).value, t, u);
  }

  // ------------------------------------------------------------------------------------------
  // Overlaps are what they are called.

  // A call starts on key `k` while another call on it has not returned.
  predicate OverlapsNow(s: State, e: Event, k: string) {
    e.Start? && LockKey(e.proto, e.to) == k && exists u :: 0 <= u < |s.calls| && Active(s.calls, u, k)
  }

  predicate OverlapsAt(es: seq<Event>, n: nat, k: string) {
    n < |es| && Run(es[..n]).Some? && OverlapsNow(Run(es[..n]).value, es[n], k)
  }

  lemma OverlapStep(s: State, e: Event, k: string)
    requires Step(s, e).Some?
    ensures k in Step(s, e).value.overlapped <==> k in s.overlapped || OverlapsNow(s, e, k)
  {
    if e.Start? {
      assert Call(e.kind, e.to, e.proto, e.msg, Locking).Key() == LockKey(e.proto, e.to);
    }
  }

  /** A key counts as overlapped if and only if at some point of the run a call on it started while another
      had not returned. */
  lemma {:induction false} OverlappedExact(es: seq<Event>, k: string)
    requires Run(es).Some?
    ensures k in Run(es).value.overlapped <==> exists n :: OverlapsAt(es, n, k)
  {
    if es != [] {
      var front, e := es[..|es| - 1], es[|es| - 1];
      OverlappedExact(front, k);
      OverlapStep(Run(front).value, e, k);
      OverlapsAtGrows(es, front, k);
    }
  }

  lemma OverlapsAtGrows(es: seq<Event>, front: seq<Event>, k: string)
    requires es != [] && front == es[..|es| - 1] && Run(front).Some?
    ensures (exists n :: OverlapsAt(es, n, k)) <==>
            (exists n :: OverlapsAt(front, n, k)) || OverlapsNow(Run(front).value, es[|es| - 1], k)
  {
    if n: nat :| OverlapsAt(es, n, k) {
      OverlapsAtFront(es, front, n, k);
    }
    if n: nat :| OverlapsAt(front, n, k) {
      OverlapsAtFront(es, front, n, k);
    }
    OverlapsAtFront(es, front, |front|, k);
  }

  lemma OverlapsAtFront(es: seq<Event>, front: seq<Event>, n: nat, k: string)
    requires es != [] && front == es[..|es| - 1] && Run(front).Some?
    ensures OverlapsAt(es, n, k) <==>
            OverlapsAt(front, n, k) || (n == |front| && OverlapsNow(Run(front).value, es[|front|], k))
  {
    if n < |front| {
      assert es[..n] == front[..n];
    }
  }

  // A call's deferred Unlock takes the token of a channel other than the one its Lock filled.
  predicate StealsNow(s: State, e: Event, k: string) {
    e.UnlockEnd? && !e.timeout && KP.StealsNow(s.km, KM.UnlockRecv(e.t), k)
  }

  predicate StealsAt(es: seq<Event>, n: nat, k: string) {
    n < |es| && Run(es[..n]).Some? && StealsNow(Run(es[..n]).value, es[n], k)
  }

  lemma StolenStep(s: State, e: Event, k: string)
    requires Step(s, e).Some?
    ensures k in Step(s, e).value.km.stolen <==> k in s.km.stolen || StealsNow(s, e, k)
  {
    KmMoves(s, e);
    if KmEvent(s, e).Some? {
      KP.StolenStep(s.km, KmEvent(s, e).value, k);
    }
  }

  /** A key counts as hit by a stale Unlock if and only if at some point of the run a call's Unlock on it took
      another channel's token. */
  lemma {:induction false} StolenExact(es: seq<Event>, k: string)
    requires Run(es).Some?
    ensures k in Run(es).value.km.stolen <==> exists n :: StealsAt(es, n, k)
  {
    if es != [] {
      var front, e := es[..|es| - 1], es[|es| - 1];
      StolenExact(front, k);
      StolenStep(Run(front).value, e, k);
      StealsAtGrows(es, front, k);
    }
  }

  lemma StealsAtGrows(es: seq<Event>, front: seq<Event>, k: string)
    requires es != [] && front == es[..|es| - 1] && Run(front).Some?
    ensures (exists n :: StealsAt(es, n, k)) <==>
            (exists n :: StealsAt(front, n, k)) || StealsNow(Run(front).value, es[|es| - 1], k)
  {
    if n: nat :| StealsAt(es, n, k) {
      StealsAtFront(es, front, n, k);
    }
    if n: nat :| StealsAt(front, n, k) {
      StealsAtFront(es, front, n, k);
    }
    StealsAtFront(es, front, |front|, k);
  }

  lemma StealsAtFront(es: seq<Event>, front: seq<Event>, n: nat, k: string)
    requires es != [] && front == es[..|es| - 1] && Run(front).Some?
    ensures StealsAt(es, n, k) <==>
            StealsAt(front, n, k) || (n == |front| && StealsNow(Run(front).value, es[|front|], k))
  {
    if n < |front| {
      assert es[..n] == front[..n];
    }
  }
}
