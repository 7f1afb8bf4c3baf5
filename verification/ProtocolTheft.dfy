/** Why the pairing theorem needs its condition: an Unlock whose channel was cleaned takes the token
    of the next generation, and then a later call can be given another call's reply. */
module ProtocolTheft {
  import opened Counting
  import opened RawData
  import opened StreamKey
  import opened StreamCache
  import opened ServerLoop
  import opened Protocol
  import opened ProtocolInv
  import opened ProtocolReferences
  import opened ProtocolExchanges
  import opened ProtocolTheorems
  import KM = KeyMutex

  lemma Then(es: seq<Event>, s: State, e: Event) returns (es': seq<Event>, s': State)
    requires Run(es) == Some(s) && Step(s, e).Some?
    ensures es' == es + [e] && Some(s') == Step(s, e) == Run(es')
  {
    es', s' := es + [e], Step(s, e).value;
    assert es'[..|es|] == es;
  }

  // The cache lock is free and the pair's protocol is registered.
  predicate CanCall(s: State, to: string, proto: string) {
    && |s.calls| == |s.km.callers|
    && s.cacheLock.None? && proto in s.km.spaces && '@' !in to
  }

  // ------------------------------------------------------------------------------------------
  // A call on a pair without stream or channel, up to the point where it waits for its reply.

  lemma TakeFreshLock(es0: seq<Event>, s0: State, kind: Kind, to: string, proto: string, msg: seq<byte>)
    returns (es: seq<Event>, s: State)
    requires Run(es0) == Some(s0) && CanCall(s0, to, proto) && LockKey(proto, to) !in s0.km.slots
    ensures Run(es) == Some(s)
    ensures var k, c := LockKey(proto, to), |s0.km.chans|;
            && s.calls == s0.calls + [Call(kind, to, proto, msg, Locked)]
            && s.km.callers == s0.km.callers + [KM.Holding(k, c)]
            && s.km.chans == s0.km.chans + [KM.Chan(k, true, 0)]
            && s.km.slots == s0.km.slots[k := c]
            && s.km.cleaners == s0.km.cleaners && s.km.spaces == s0.km.spaces && s.km.deletes == s0.km.deletes
            && s.cache == s0.cache && s.cacheLock == None && s.streams == s0.streams
  {
    es, s := Then(es0, s0, Start(kind, to, proto, msg));
    es, s := Then(es, s, LockOk(|s0.calls|));
  }

  lemma OpenAndWrite(es0: seq<Event>, s0: State, t: nat, uuid: seq<byte>, remote: string, local: string)
    returns (es: seq<Event>, s: State)
    requires Run(es0) == Some(s0) && At(s0, t, Locked) && s0.cacheLock.None?
    requires Candidates(s0.cache.pool, s0.calls[t].to, s0.calls[t].proto) == {}
    ensures Run(es) == Some(s)
    ensures var sid, c := |s0.streams|, s0.calls[t];
            var h := Handle(sid, c.to, c.proto, remote, local);
            && s.calls == Go(s0.calls, t, Wrote(sid)) && s.km == s0.km
            && s.cache == s0.cache && s.cacheLock == None
            && var req := Request(t, NewRawData(None, uuid, c.msg));
            s.streams == s0.streams + [Stream(h, [req], [], [], 0, START, false)]
  {
    es, s := Then(es0, s0, GetMiss(t));
    es, s := Then(es, s, Open(t, remote, local));
    es, s := Then(es, s, Write(t, uuid));
    var h := Handle(|s0.streams|, s0.calls[t].to, s0.calls[t].proto, remote, local);
    var blank := Stream(h, [], [], [], 0, START, false);
    assert Append(blank, t, uuid, s0.calls[t].msg).reqs == [Request(t, NewRawData(None, uuid, s0.calls[t].msg))];
    assert s.streams == s0.streams + [Append(blank, t, uuid, s0.calls[t].msg)];
  }

  // ------------------------------------------------------------------------------------------
  // That call fails while it waits, and drops its stream and its channel.

  lemma FailAndLoad(es0: seq<Event>, s0: State, t: nat) returns (es: seq<Event>, s: State)
    requires Run(es0) == Some(s0) && ToRead(s0, t) && s0.cacheLock.None? && s0.km.cleaners == map[]
    requires s0.calls[t].proto != "" && s0.calls[t].to != "" && s0.calls[t].Key() in s0.km.slots
    ensures Run(es) == Some(s)
    ensures var k := s0.calls[t].Key();
            && s.calls == Go(s0.calls, t, DropLoaded)
            && s.km.cleaners == map[t := KM.Loaded(k, s0.km.slots[k])]
            && s.km.callers == s0.km.callers && s.km.chans == s0.km.chans && s.km.slots == s0.km.slots
            && s.km.spaces == s0.km.spaces && s.km.deletes == s0.km.deletes
            && s.cache == s0.cache && s.cacheLock == Some(t) && |s.streams| == |s0.streams|
  {
    es, s := Then(es0, s0, ReadFail(t));
    es, s := Then(es, s, DelLock(t));
    es, s := Then(es, s, DelLoad(t));
  }

  lemma DeleteAndClose(es0: seq<Event>, s0: State, t: nat, k: string) returns (es: seq<Event>, s: State)
    requires Run(es0) == Some(s0) && At(s0, t, DropLoaded)
    requires k in s0.km.slots && s0.km.slots[k] < |s0.km.chans|
    requires s0.km.cleaners == map[t := KM.Loaded(k, s0.km.slots[k])]
    ensures Run(es) == Some(s)
    ensures && s.calls == Go(s0.calls, t, DropPool) && s.km.callers == s0.km.callers
            && |s.km.chans| == |s0.km.chans| && s.km.slots == s0.km.slots - {k} && s.km.cleaners == map[]
            && s.km.spaces == s0.km.spaces && s.km.deletes == s0.km.deletes + multiset{k}
            && s.cache == s0.cache && s.cacheLock == s0.cacheLock && s.streams == s0.streams
  {
    es, s := Deletes(es0, s0, t, k);
    es, s := Then(es, s, DelClose(t));
    assert s.km.cleaners == map[];
  }

  lemma Deletes(es0: seq<Event>, s0: State, t: nat, k: string) returns (es: seq<Event>, s: State)
    requires Run(es0) == Some(s0) && At(s0, t, DropLoaded)
    requires k in s0.km.slots && s0.km.cleaners == map[t := KM.Loaded(k, s0.km.slots[k])]
    ensures Run(es) == Some(s)
    ensures && s.calls == Go(s0.calls, t, DropDeleted) && s.km.callers == s0.km.callers
            && s.km.chans == s0.km.chans && s.km.slots == s0.km.slots - {k}
            && s.km.cleaners == map[t := KM.Deleted(k, s0.km.slots[k], Some(s0.km.slots[k]))]
            && s.km.spaces == s0.km.spaces && s.km.deletes == s0.km.deletes + multiset{k}
            && s.cache == s0.cache && s.cacheLock == s0.cacheLock && s.streams == s0.streams
  {
    es, s := Then(es0, s0, DelDelete(t));
  }

  // ------------------------------------------------------------------------------------------
  // Two calls one after the other: the first has failed and only its Unlock is left; the second
  // waits for its reply on a pooled stream, holding the channel of the next generation.

  ghost predicate BeforeTheft(s: State, to: string, proto: string) {
    && |s.calls| == |s.km.callers| == 2 && |s.streams| == 2
    && s.calls[0].to == to && s.calls[0].proto == proto && s.calls[0].phase == Leaving(Failed)
    && s.km.callers[0] == KM.Holding(LockKey(proto, to), 0)
    && s.km.slots == map[LockKey(proto, to) := 1]
    && |s.km.chans| == 2 && s.km.chans[1] == KM.Chan(LockKey(proto, to), true, 0)
    && CanCall(s, to, proto) && s.km.deletes == multiset{LockKey(proto, to)}
    && s.calls[1].to == to && s.calls[1].proto == proto && s.calls[1].phase == Awaiting(1)
    && AwaitsOn(s, 1, 1)
  }

  // Call `t` has its one request on the pooled stream `sid`; nothing has been served yet.
  predicate AwaitsOn(s: State, t: nat, sid: nat) {
    && t < |s.calls| && s.calls[t].phase == Awaiting(sid) && sid < |s.streams|
    && var st := s.streams[sid];
    && Stored(s.cache.pool, st.handle) && st.handle.id == sid
    && st.handle.peer == s.calls[t].to && st.handle.proto == s.calls[t].proto
    && st.server.up && st.server.writer == []
    && st.taken == |st.acts| == |st.replies| && |st.reqs| == st.taken + 1
    && st.reqs[st.taken].call == t && st.reqs[st.taken].frame.err == ""
  }

  lemma FirstCallFails(to: string, proto: string) returns (es: seq<Event>, s: State)
    requires '@' !in to && to != "" && proto != ""
    ensures Run(es) == Some(s)
    ensures |s.calls| == 1 && s.calls[0].to == to && s.calls[0].proto == proto && s.calls[0].phase == Leaving(Failed)
    ensures s.km.callers == [KM.Holding(LockKey(proto, to), 0)] && s.km.slots == map[] && s.km.cleaners == map[]
    ensures |s.km.chans| == 1 && |s.streams| == 1 && proto in s.km.spaces && s.cacheLock == None
    ensures s.km.deletes == multiset{LockKey(proto, to)}
    ensures Candidates(s.cache.pool, to, proto) == {}
  {
    var k := LockKey(proto, to);
    es, s := Then([], INIT, Regist(proto));
    es, s := TakeFreshLock(es, s, RequestWithTimeout, to, proto, []);
    es, s := OpenAndWrite(es, s, 0, [], "", "");
    es, s := Then(es, s, PutStream(0));
    es, s := FailAndLoad(es, s, 0);
    es, s := DeleteAndClose(es, s, 0, k);
    assert s.km.slots == map[];
    InvRun(es);
    es, s := LastStepOfDel2(es, s, 0);
  }

  lemma LastStepOfDel2(es0: seq<Event>, s0: State, t: nat) returns (es: seq<Event>, s: State)
    requires Run(es0) == Some(s0) && At(s0, t, DropPool)
    requires '@' !in s0.calls[t].to && PoolOk(s0.cache.pool, s0.streams)
    requires StreamsOk(s0.streams)
    ensures Run(es) == Some(s)
    ensures s.calls == Go(s0.calls, t, Leaving(Failed)) && s.km == s0.km && s.streams == s0.streams
            && s.cacheLock == None
    ensures Candidates(s.cache.pool, s0.calls[t].to, s0.calls[t].proto) == {}
  {
    es, s := Then(es0, s0, DelPool(t));
    var to, proto := s0.calls[t].to, s0.calls[t].proto;
    StoredAfterDel2(s0.cache, to, proto);
    if h :| h in Candidates(s.cache.pool, to, proto) {
      assert Stored(s.cache.pool, h);
      CandidateOfPair(s.cache.pool, h, to, proto);
      DropsWholePair(s0.cache, to, proto, h);
      assert false;
    }
  }

  lemma TheftIsReachable(to: string, proto: string) returns (es: seq<Event>, s: State)
    requires '@' !in to && to != "" && proto != ""
    ensures Run(es) == Some(s) && BeforeTheft(s, to, proto)
  {
    es, s := FirstCallFails(to, proto);
    es, s := TakeFreshLock(es, s, RequestWithTimeout, to, proto, []);
    es, s := OpenAndWrite(es, s, 1, [], "", "");
    es, s := Then(es, s, PutStream(1));
  }

  // The first call's deferred Unlock finds the second call's channel and takes its token.
  lemma StaleUnlockSteals(es0: seq<Event>, s0: State, to: string, proto: string) returns (es: seq<Event>, s: State)
    requires Run(es0) == Some(s0) && BeforeTheft(s0, to, proto)
    ensures Run(es) == Some(s) && LockKey(proto, to) in s.km.stolen
    ensures s.calls == Go(s0.calls, 0, Done(Failed)) && |s.km.callers| == 2 && s.streams == s0.streams
            && s.cache == s0.cache
    ensures s.km.slots == s0.km.slots && |s.km.chans| == 2 && s.km.chans[1] == KM.Chan(LockKey(proto, to), false, 0)
    ensures CanCall(s, to, proto) && s.km.deletes == s0.km.deletes
  {
    es, s := Then(es0, s0, UnlockLoad(0));
    es, s := Then(es, s, UnlockEnd(0, false));
  }

  // ------------------------------------------------------------------------------------------
  // A third call gets in and is handed the stream in use.

  // A call on a pair whose channel is stored and empty.
  lemma TakeStoredLock(es0: seq<Event>, s0: State, kind: Kind, to: string, proto: string, msg: seq<byte>)
    returns (es: seq<Event>, s: State)
    requires Run(es0) == Some(s0) && CanCall(s0, to, proto) && LockKey(proto, to) in s0.km.slots
    requires var c := s0.km.slots[LockKey(proto, to)];
             c < |s0.km.chans| && s0.km.chans[c].closes == 0 && !s0.km.chans[c].full
    ensures Run(es) == Some(s)
    ensures s.calls == s0.calls + [Call(kind, to, proto, msg, Locked)]
    ensures s.cache == s0.cache && s.cacheLock == None && s.streams == s0.streams
    ensures s.km.stolen == s0.km.stolen && s.km.deletes == s0.km.deletes
  {
    es, s := Then(es0, s0, Start(kind, to, proto, msg));
    es, s := Then(es, s, LockOk(|s0.calls|));
  }

  lemma GetsStreamInUse(es0: seq<Event>, s0: State, t: nat, sid: nat, kind: Kind, msg: seq<byte>, uuid: seq<byte>)
    returns (es: seq<Event>, s: State)
    requires Run(es0) == Some(s0) && AwaitsOn(s0, t, sid)
    requires var c := s0.calls[t];
             && CanCall(s0, c.to, c.proto)
             && c.Key() in s0.km.slots && s0.km.slots[c.Key()] < |s0.km.chans|
             && s0.km.chans[s0.km.slots[c.Key()]].closes == 0 && !s0.km.chans[s0.km.slots[c.Key()]].full
    ensures Run(es) == Some(s)
    ensures var u, c := |s0.calls|, s0.calls[t];
            && s.calls == s0.calls + [Call(kind, c.to, c.proto, msg, Awaiting(sid))]
            && s.streams == s0.streams[sid := Append(s0.streams[sid], u, uuid, msg)]
            && s.km.stolen == s0.km.stolen && s.km.deletes == s0.km.deletes
  {
    var u := |s0.calls|;
    var c, h := s0.calls[t], s0.streams[sid].handle;
    es, s := TakeStoredLock(es0, s0, kind, c.to, c.proto, msg);
    assert h in s.cache.pool[h.Key()].Values;
    es, s := Then(es, s, GetHit(u, h));
    es, s := Then(es, s, Write(u, uuid));
  }

  // The far end serves the request in front, and the third call reads first.
  lemma ReadsAnothersReply(es0: seq<Event>, s0: State, t: nat, u: nat, sid: nat, act: Act)
    returns (es: seq<Event>, s: State)
    requires Run(es0) == Some(s0) && u < |s0.calls| && s0.calls[u].phase == Awaiting(sid) && sid < |s0.streams|
    requires act.err.None?
    requires var st := s0.streams[sid];
             && st.server.up && st.server.writer == [] && st.taken == |st.acts| == |st.replies|
             && |st.reqs| == st.taken + 2 && st.reqs[st.taken].call == t && st.reqs[st.taken].frame.err == ""
             && st.reqs[st.taken + 1].call == u
    ensures Run(es) == Some(s) && Succeeded(s, u) && s.calls[u].phase.res.sid == sid && sid < |s.streams|
    ensures |s.streams[sid].acts| == s0.streams[sid].taken + 1 && s.streams[sid].reqs == s0.streams[sid].reqs
    ensures Answered(s.streams[sid], s0.streams[sid].taken, t, s.calls[u].phase.res.reply)
    ensures s.km.stolen == s0.km.stolen && s.km.deletes == s0.km.deletes
    ensures s.calls[u].(phase := Locking) == s0.calls[u].(phase := Locking)
  {
    var st := s0.streams[sid];
    TurnCases(st.server, Incoming(st.reqs[|st.acts|].frame, None), act, Written);
    es, s := Then(es0, s0, Serve(sid, act, Written));
    assert s.streams[sid].replies == st.replies + [Reply(st.reqs[st.taken].frame, act.wrote)];
    es, s := Then(es, s, Read(u));
  }

  /** After one Clean in all, on key `k`, call 2 on that key has succeeded with the reply to call 1's
      request, which is not the reply to its own. */
  ghost predicate Mispaired(s: State, k: string) {
    && Succeeded(s, 2) && s.calls[2].Key() == k && s.km.deletes == multiset{k}
    && s.calls[2].phase.res.sid < |s.streams|
    && (exists i :: Answered(s.streams[s.calls[2].phase.res.sid], i, 1, s.calls[2].phase.res.reply))
    && !Paired(s, 2, s.calls[2].phase.res.sid, s.calls[2].phase.res.reply)
  }

  /** One Clean is enough to break pairing: on every key there is a run with a single Clean in which a
      call succeeds with the reply to another call's request, its own request not even served. The
      first call failed and cleaned the key, its deferred Unlock took the second call's token, and the
      third call shared the second one's stream. */
  lemma StaleUnlockBreaksPairing(to: string, proto: string, kind: Kind,
                                 msg: seq<byte>, uuid: seq<byte>, wrote: seq<byte>)
    requires '@' !in to && to != "" && proto != ""
    ensures exists es :: Run(es).Some? && Mispaired(Run(es).value, LockKey(proto, to))
                         && Run(es).value.calls[2].kind == kind && Run(es).value.calls[2].msg == msg
  {
    var es, s := TheftIsReachable(to, proto);
    es, s := StaleUnlockSteals(es, s, to, proto);
    assert AwaitsOn(s, 1, 1) && s.calls[1].Key() == LockKey(proto, to);
    es, s := EmptyChannelMispairs(es, s, 1, 1, kind, msg, uuid, wrote);
  }

  /** The token is all that protects an exchange: from every reachable state in which a call waits for
      its reply on a pooled stream while its channel is empty, a further call on the pair can succeed
      with that reply. */
  lemma EmptyChannelMispairs(es0: seq<Event>, s0: State, t: nat, sid: nat,
                             kind: Kind, msg: seq<byte>, uuid: seq<byte>, wrote: seq<byte>)
    returns (es: seq<Event>, s: State)
    requires Run(es0) == Some(s0) && AwaitsOn(s0, t, sid)
    requires var c := s0.calls[t];
             && CanCall(s0, c.to, c.proto)
             && c.Key() in s0.km.slots && s0.km.slots[c.Key()] < |s0.km.chans|
             && s0.km.chans[s0.km.slots[c.Key()]].closes == 0 && !s0.km.chans[s0.km.slots[c.Key()]].full
    ensures Run(es) == Some(s) && s.km.stolen == s0.km.stolen && s.km.deletes == s0.km.deletes && sid < |s.streams|
    ensures var u := |s0.calls|;
            && Succeeded(s, u) && s.calls[u].phase.res.sid == sid
            && s.calls[u].kind == kind && s.calls[u].msg == msg && s.calls[u].Key() == s0.calls[t].Key()
            && Answered(s.streams[sid], s0.streams[sid].taken, t, s.calls[u].phase.res.reply)
            && !Paired(s, u, sid, s.calls[u].phase.res.reply)
  {
    ReachedRequests(es0, s0);
    var u := |s0.calls|;
    es, s := GetsStreamInUse(es0, s0, t, sid, kind, msg, uuid);
    es, s := ReadsAnothersReply(es, s, t, u, sid, Act(0, wrote, None));
    NewCallNotAnswered(s0.calls, s0.streams, sid, s.streams[sid]);
  }

  lemma ReachedRequests(es: seq<Event>, s: State)
    requires Run(es) == Some(s)
    ensures ReqsOk(s.calls, s.streams)
  {
    InvRun(es);
  }

  lemma NewCallNotAnswered(calls: seq<Call>, streams: seq<Stream>, sid: nat, st: Stream)
    requires ReqsOk(calls, streams) && sid < |streams|
    requires |st.acts| <= |streams[sid].reqs| <= |st.reqs| && st.reqs[..|streams[sid].reqs|] == streams[sid].reqs
    ensures forall i: nat, reply :: !Answered(st, i, |calls|, reply)
  {
    forall i: nat | i < |st.acts|
      ensures st.reqs[i].call != |calls|
    {
      assert st.reqs[i] == streams[sid].reqs[i];
      assert RequestOk(streams[sid].reqs[i], calls);
    }
  }

  // ------------------------------------------------------------------------------------------
  // What the condition on stale Unlocks is needed for, and how many Cleans it takes.

  /** Without it the lock does not keep calls apart, nor the pool at rest while the lock is free: after one
      Clean a pooled stream can have an unanswered request with the channel empty, and then two calls on
      the key wait on that stream. */
  lemma StaleUnlockLetsTwoIn(to: string, proto: string)
    requires '@' !in to && to != "" && proto != ""
    ensures exists es :: Run(es).Some? && UnguardedStream(Run(es).value, LockKey(proto, to))
    ensures exists es :: Run(es).Some? && TwoOnOneStream(Run(es).value, LockKey(proto, to))
  {
    var es, s := TheftIsReachable(to, proto);
    es, s := StaleUnlockSteals(es, s, to, proto);
    assert AwaitsOn(s, 1, 1) && s.calls[1].Key() == LockKey(proto, to);
    assert UnguardedStream(s, LockKey(proto, to));
    es, s := GetsStreamInUse(es, s, 1, 1, RequestWithTimeout, [], []);
    assert s.calls[1].phase == s.calls[2].phase == Awaiting(1);
    assert Run(es) == Some(s) && TwoOnOneStream(s, LockKey(proto, to));
  }

  // The key's channel is stored and empty, nobody is in del2, and a pooled stream of the key is in use.
  ghost predicate UnguardedStream(s: State, k: string) {
    && s.cacheLock.None? && k in s.km.slots && s.km.slots[k] < |s.km.chans| && !s.km.chans[s.km.slots[k]].full
    && s.km.deletes[k] == 1
    && exists t: nat, sid: nat :: AwaitsOn(s, t, sid) && s.calls[t].Key() == k
  }

  ghost predicate TwoOnOneStream(s: State, k: string) {
    && s.km.deletes[k] == 1
    && exists t: nat, u: nat, sid: nat ::
         && t < u < |s.calls| && s.calls[t].Key() == s.calls[u].Key() == k
         && s.calls[t].phase == s.calls[u].phase == Awaiting(sid)
  }

  /** Every success on the key is paired, in every run with at most `n` deletions by Clean. */
  ghost predicate AlwaysPaired(k: string, n: nat) {
    forall es, t: nat :: Run(es).Some? && Run(es).value.km.deletes[k] <= n ==> PairedIfDone(Run(es).value, t, k)
  }

  ghost predicate PairedIfDone(s: State, t: nat, k: string) {
    Succeeded(s, t) && s.calls[t].Key() == k ==> Paired(s, t, s.calls[t].phase.res.sid, s.calls[t].phase.res.reply)
  }

  /** The exact number of Cleans a key can bear: pairing holds in every run with at most `n` of them if and
      only if `n` is zero. */
  lemma PairingBearsNoClean(to: string, proto: string, n: nat)
    requires '@' !in to && to != "" && proto != ""
    ensures AlwaysPaired(LockKey(proto, to), n) <==> n == 0
  {
    var k := LockKey(proto, to);
    if n == 0 {
      forall es, t: nat | Run(es).Some? && Run(es).value.km.deletes[k] <= n
        ensures PairedIfDone(Run(es).value, t, k)
      {
        if Succeeded(Run(es).value, t) && Run(es).value.calls[t].Key() == k {
          PairedUntilFirstClean(es, t);
        }
      }
    } else {
      StaleUnlockBreaksPairing(to, proto, RequestWithTimeout, [], [], []);
      var es :| Run(es).Some? && Mispaired(Run(es).value, k);
      assert !PairedIfDone(Run(es).value, 2, k);
    }
  }
}
