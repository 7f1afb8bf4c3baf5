/** The client side as impl.go writes it: one call from takelock to the deferred unlock, with other
    goroutines, the network and the far ends moving between any two of its atomic actions. */
module ProtocolService {
  import opened Counting
  import opened RawData
  import opened StreamKey
  import opened StreamCache
  import opened ServerLoop
  import opened Protocol
  import opened ProtocolInv
  import opened ProtocolStructure
  import opened ProtocolRequests
  import opened ProtocolExchanges
  import opened ProtocolTheorems
  import opened ProtocolProgress
  import opened ProtocolCache
  import KM = KeyMutex
  import KP = KeyMutexProofs

  /** What one call meets in the outside world. */
  datatype Env = Env(
    lockTimer: bool,     // the select in Lock takes the timer's case
    dialed: bool,        // NewStream succeeds, on a connection with these addresses
    remote: string,
    local: string,
    uuid: seq<byte>,     // what uuid.New gives
    written: bool,       // ToWriter succeeds; if not, the frame may have been delivered all the same
    delivered: bool,
    deadline: bool,      // FromReader fails: deadline, reset or decode error
    unlockTimer: bool)   // the select in Unlock takes the timer's case

  datatype Cause = LockFailed | DialFailed | WriteFailed | ReadFailed | Refused(text: string)

  /** What the caller sees. `Blocked` is a call that still waits for the cache lock. */
  datatype Outcome = Blocked | Error(cause: Cause) | Success(data: seq<byte>)

  /** How sendMsg ends. */
  datatype SendResult = Waits | Fails(cause: Cause) | Sends

  // ------------------------------------------------------------------------------------------
  // What the actions leave behind.

  lemma LastStep(before: seq<Event>, pre: State, e: Event, s: State)
    requires Run(before) == Some(pre) && Run(before + [e]) == Some(s)
    ensures Step(pre, e) == Some(s)
  {
    assert (before + [e])[..|before|] == before;
  }

  /** Call `t` has its one request on stream `sid`, carrying its message and the uuid's integer. */
  ghost predicate WroteOnce(calls: seq<Call>, streams: seq<Stream>, t: nat, sid: nat, uuid: seq<byte>) {
    t < |calls| && exists i: nat :: WroteAt(calls, streams, t, sid, i, uuid)
  }

  ghost predicate WroteAt(calls: seq<Call>, streams: seq<Stream>, t: nat, sid: nat, i: nat, uuid: seq<byte>)
    requires t < |calls|
  {
    && Carries(streams, t, sid, i, uuid) && streams[sid].reqs[i].frame.data == calls[t].msg
    && forall a, j :: Sent(streams, t, a, j) ==> a == sid && j == i
  }

  predicate Carries(streams: seq<Stream>, t: nat, sid: nat, i: nat, uuid: seq<byte>) {
    && Sent(streams, t, sid, i)
    && streams[sid].reqs[i].frame.id == StripZeros(uuid) && streams[sid].reqs[i].frame.err == ""
  }

  lemma AfterWrite(before: seq<Event>, pre: State, s: State, t: nat, uuid: seq<byte>) returns (i: nat)
    requires Run(before) == Some(pre) && Run(before + [Write(t, uuid)]) == Some(s)
    ensures t < |pre.calls| && ToWrite(pre, t) && Carries(s.streams, t, pre.calls[t].phase.sid, i, uuid)
  {
    LastStep(before, pre, Write(t, uuid), s);
    i := |pre.streams[pre.calls[t].phase.sid].reqs|;
    NewRawDataCarries(None, uuid, pre.calls[t].msg);
  }

  // A request once written stays as it is.
  lemma {:induction false} CarriesStays(trace0: seq<Event>, s0: State, trace: seq<Event>, s: State,
                                        t: nat, sid: nat, i: nat, uuid: seq<byte>)
    requires Run(trace0) == Some(s0) && Run(trace) == Some(s) && trace0 <= trace && Carries(s0.streams, t, sid, i, uuid)
    ensures Carries(s.streams, t, sid, i, uuid)
  {
    if |trace0| < |trace| {
      var front := trace[..|trace| - 1];
      CarriesStays(trace0, s0, front, Run(front).value, t, sid, i, uuid);
      StreamsKeepReqs(Run(front).value, trace[|trace| - 1]);
    } else {
      assert trace0 == trace;
    }
  }

  lemma CarriesOnce(trace: seq<Event>, s: State, t: nat, sid: nat, i: nat, uuid: seq<byte>)
    requires Run(trace) == Some(s) && Carries(s.streams, t, sid, i, uuid)
    ensures WroteOnce(s.calls, s.streams, t, sid, uuid)
  {
    ReachedRequests(trace, s);
    OneCarried(s.calls, s.streams, t, sid, i, uuid);
  }

  lemma OneCarried(calls: seq<Call>, streams: seq<Stream>, t: nat, sid: nat, i: nat, uuid: seq<byte>)
    requires ReqsOk(calls, streams) && OneRequestEach(streams) && Carries(streams, t, sid, i, uuid)
    ensures WroteOnce(calls, streams, t, sid, uuid)
  {
    assert RequestOk(streams[sid].reqs[i], calls);
    assert WroteAt(calls, streams, t, sid, i, uuid);
  }

  // ------------------------------------------------------------------------------------------
  // Why a call fails.

  predicate LockReady(km: KM.State, t: nat) {
    && t < |km.callers| && km.callers[t].Waiting? && km.callers[t].ch < |km.chans|
    && km.chans[km.callers[t].ch].closes == 0 && !km.chans[km.callers[t].ch].full
  }

  predicate UnlockReady(km: KM.State, t: nat) {
    && t < |km.callers| && km.callers[t].Releasing? && km.callers[t].from < |km.chans|
    && (km.chans[km.callers[t].from].full || km.chans[km.callers[t].from].closes > 0)
  }

  // The next frame on the stream call `t` reads from, if one has arrived.
  function NextFrame(s: State, t: nat): Option<RawData> {
    if ToRead(s, t) && s.streams[s.calls[t].phase.sid].taken < |s.streams[s.calls[t].phase.sid].replies|
    then Some(s.streams[s.calls[t].phase.sid].replies[s.streams[s.calls[t].phase.sid].taken])
    else None
  }

  /** At point `k` of the run call `t` failed for this cause: the world did it, or the channel was not ready,
      or no frame had come; or the frame it took carries the error text that it reports. */
  predicate WhyAt(trace: seq<Event>, t: nat, cause: Cause, env: Env, k: nat) {
    && k < |trace| && Run(trace[..k]).Some?
    && var s := Run(trace[..k]).value;
    match cause
    case LockFailed => trace[k].LockFail? && trace[k].t == t && (env.lockTimer || !LockReady(s.km, t))
    case DialFailed => trace[k] == OpenFail(t) && !env.dialed
    case WriteFailed => trace[k] == WriteFail(t, env.uuid, env.delivered) && !env.written
    case ReadFailed => trace[k] == ReadFail(t) && (env.deadline || NextFrame(s, t).None?)
    case Refused(text) =>
      trace[k] == Read(t) && NextFrame(s, t).Some? && NextFrame(s, t).value.err == text && text != ""
  }

  ghost predicate Why(trace: seq<Event>, t: nat, cause: Cause, env: Env) {
    exists k :: WhyAt(trace, t, cause, env, k)
  }

  lemma WhyStays(trace0: seq<Event>, trace: seq<Event>, t: nat, cause: Cause, env: Env)
    requires trace0 <= trace && Why(trace0, t, cause, env)
    ensures Why(trace, t, cause, env)
  {
    var k: nat :| WhyAt(trace0, t, cause, env, k);
    assert trace[..k] == trace0[..k];
    assert WhyAt(trace, t, cause, env, k);
  }

  lemma WhyNow(before: seq<Event>, pre: State, e: Event, t: nat, cause: Cause, env: Env)
    requires Run(before) == Some(pre)
    requires match cause
             case LockFailed => e.LockFail? && e.t == t && (env.lockTimer || !LockReady(pre.km, t))
             case DialFailed => e == OpenFail(t) && !env.dialed
             case WriteFailed => e == WriteFail(t, env.uuid, env.delivered) && !env.written
             case ReadFailed => e == ReadFail(t) && (env.deadline || NextFrame(pre, t).None?)
             case Refused(text) =>
               e == Read(t) && NextFrame(pre, t).Some? && NextFrame(pre, t).value.err == text && text != ""
    ensures Why(before + [e], t, cause, env)
  {
    assert (before + [e])[..|before|] == before;
    assert WhyAt(before + [e], t, cause, env, |before|);
  }

  // The call got a pooled stream.
  ghost predicate Reused(trace: seq<Event>, t: nat) { exists h :: GetHit(t, h) in trace }

  // The call's Unlock was its last action: it found no channel, or it received, or it timed out because the
  // world or an empty channel made it.
  predicate Released(trace: seq<Event>, s: State, t: nat, timer: bool) {
    && trace != [] && Run(trace[..|trace| - 1]).Some?
    && var e, pre := trace[|trace| - 1], Run(trace[..|trace| - 1]).value;
    || (e == UnlockLoad(t) && t < |pre.calls| && pre.calls[t].Key() !in s.km.slots)
    || (e == UnlockEnd(t, true) && (timer || !UnlockReady(pre.km, t)))
    || (e == UnlockEnd(t, false) && !timer && Emptied(pre.km, s.km, t))
  }

  predicate Emptied(pre: KM.State, km: KM.State, t: nat) {
    && t < |pre.callers| && pre.callers[t].Releasing?
    && pre.callers[t].from < |km.chans| && !km.chans[pre.callers[t].from].full
  }

  lemma ReleasedByLoad(before: seq<Event>, pre: State, s: State, t: nat, timer: bool)
    requires Run(before) == Some(pre) && Run(before + [UnlockLoad(t)]) == Some(s)
    requires t < |s.calls| && s.calls[t].phase.Done?
    ensures Released(before + [UnlockLoad(t)], s, t, timer)
  {
    LastStep(before, pre, UnlockLoad(t), s);
    assert (before + [UnlockLoad(t)])[..|before|] == before;
  }

  lemma ReleasedByEnd(before: seq<Event>, pre: State, s: State, t: nat, timeout: bool, timer: bool)
    requires Run(before) == Some(pre) && Run(before + [UnlockEnd(t, timeout)]) == Some(s)
    requires if timeout then timer || !UnlockReady(pre.km, t) else !timer
    ensures Released(before + [UnlockEnd(t, timeout)], s, t, timer)
  {
    LastStep(before, pre, UnlockEnd(t, timeout), s);
    assert (before + [UnlockEnd(t, timeout)])[..|before|] == before;
  }

  // The call's last action dropped exactly what its pair had in the cache, and started a close for each.
  ghost predicate DroppedPair(trace: seq<Event>, s: State, t: nat, to: string, proto: string) {
    && trace != [] && trace[|trace| - 1] == DelPool(t) && Run(trace[..|trace| - 1]).Some?
    && var pre := Run(trace[..|trace| - 1]).value;
    forall h :: DroppedOne(pre.cache, s.cache, to, proto, h)
  }

  predicate DroppedOne(pre: Cache, post: Cache, to: string, proto: string, h: Handle) {
    && (Stored(post.pool, h) <==> Stored(pre.pool, h) && !Doomed(h, to, proto))
    && post.closed[h] == pre.closed[h] + if Stored(pre.pool, h) && Doomed(h, to, proto) then 1 else 0
  }

  lemma DropsJustPair(before: seq<Event>, pre: State, s: State, t: nat)
    requires Run(before) == Some(pre) && Run(before + [DelPool(t)]) == Some(s)
    ensures t < |pre.calls|
    ensures DroppedPair(before + [DelPool(t)], s, t, pre.calls[t].to, pre.calls[t].proto)
  {
    LastStep(before, pre, DelPool(t), s);
    assert (before + [DelPool(t)])[..|before|] == before;
    forall h
      ensures DroppedOne(pre.cache, s.cache, pre.calls[t].to, pre.calls[t].proto, h)
    {
      FailureDropsExactlyPair(before, t, h);
    }
  }

  lemma ReachedRequests(trace: seq<Event>, s: State)
    requires Run(trace) == Some(s)
    ensures Requests(s)
  {
    InvRun(trace);
  }

  /** A failed write spoils the stream, and one that was opened for it does not get into the cache. */
  lemma AfterWriteFail(before: seq<Event>, pre: State, e: Event, s: State, t: nat)
    requires Run(before) == Some(pre) && Run(before + [e]) == Some(s)
    requires e.WriteFail? && e.t == t && ToWrite(pre, t)
    ensures var sid := pre.calls[t].phase.sid;
            && sid < |s.streams| && s.streams[sid].tainted
            && (pre.calls[t].phase.Opened? ==> !Stored(s.cache.pool, s.streams[sid].handle))
  {
    LastStep(before, pre, e, s);
    ReachedFresh(before, pre);
  }

  lemma ReachedFresh(trace: seq<Event>, s: State)
    requires Run(trace) == Some(s)
    ensures FreshOk(s.calls, s.streams, s.cache.pool)
  {
    InvRun(trace);
  }

  predicate Cached(s: State, sid: nat) {
    sid < |s.streams| &&
    var h := s.streams[sid].handle;
    Lookup(s.cache.pool, h.peer, h.proto, h.Session()).Some?
  }

  lemma AfterPut(before: seq<Event>, pre: State, s: State, t: nat)
    requires Run(before) == Some(pre) && Run(before + [PutStream(t)]) == Some(s)
    ensures t < |pre.calls| && pre.calls[t].phase.Wrote? && Cached(s, pre.calls[t].phase.sid)
  {
    LastStep(before, pre, PutStream(t), s);
  }

  /** The call took the frame at the head of its stream, and that frame is no error reply. */
  predicate TookFrame(s: State, t: nat, sid: nat) {
    && t < |s.calls| && sid < |s.streams| && 0 < s.streams[sid].taken <= |s.streams[sid].replies|
    && s.calls[t].phase == Leaving(Got(sid, s.streams[sid].replies[s.streams[sid].taken - 1]))
    && s.calls[t].phase.res.reply.err == ""
  }

  lemma AfterRead(before: seq<Event>, pre: State, e: Event, s: State, t: nat, sid: nat)
    requires Run(before) == Some(pre) && Run(before + [e]) == Some(s)
    requires (e == Read(t) || e == ReadFail(t)) && At(pre, t, Awaiting(sid))
    ensures t < |s.calls| && sid < |s.streams|
    ensures if s.calls[t].phase.Leaving? then TookFrame(s, t, sid) else s.streams[sid].tainted
  {
    LastStep(before, pre, e, s);
  }

  lemma AfterTaking(before: seq<Event>, pre: State, s: State, t: nat, rsp: RawData)
    requires Run(before) == Some(pre) && Run(before + [Read(t)]) == Some(s) && NextFrame(pre, t) == Some(rsp)
    ensures t < |s.calls| && (s.calls[t].phase.Leaving? <==> rsp.err == "")
    ensures !s.calls[t].phase.Leaving? ==> s.calls[t].phase.Dropping?
  {
    LastStep(before, pre, Read(t), s);
  }

  lemma AfterOpen(before: seq<Event>, pre: State, s: State, t: nat, remote: string, local: string)
    requires Run(before) == Some(pre) && Run(before + [Open(t, remote, local)]) == Some(s) && t < |pre.calls|
    ensures t < |s.calls| && |s.streams| == |pre.streams| + 1 && s.calls[t].phase == Opened(|pre.streams|)
    ensures s.streams[|pre.streams|] ==
            Stream(Handle(|pre.streams|, pre.calls[t].to, pre.calls[t].proto, remote, local),
                   [], [], [], 0, START, false)
  {
    LastStep(before, pre, Open(t, remote, local), s);
  }

  // The channel an Unlock waits on is one of those ever made.
  lemma CanReceive(trace: seq<Event>, s: State, t: nat)
    requires Run(trace) == Some(s) && t < |s.calls| && s.calls[t].phase.Unlocking?
    ensures UnlockReady(s.km, t) <==> Step(s, UnlockEnd(t, false)).Some?
  {
    ReachedCaller(trace, s, t);
  }

  predicate NeedsCache(p: Phase) { p.Locked? || p.Wrote? || p.Dropping? }

  /** No stream of the pair is in the cache. */
  ghost predicate PairDropped(pool: Pool, to: string, proto: string) {
    forall h: Handle :: h.peer == to && h.proto == proto ==> !Stored(pool, h)
  }

  lemma AfterDelPool(before: seq<Event>, pre: State, s: State, t: nat)
    requires Run(before) == Some(pre) && Run(before + [DelPool(t)]) == Some(s)
    requires t < |pre.calls| && '@' !in pre.calls[t].to
    ensures PairDropped(s.cache.pool, pre.calls[t].to, pre.calls[t].proto)
  {
    LastStep(before, pre, DelPool(t), s);
    var to, proto := pre.calls[t].to, pre.calls[t].proto;
    forall h: Handle | h.peer == to && h.proto == proto
      ensures !Stored(s.cache.pool, h)
    {
      DropsWholePair(pre.cache, to, proto, h);
    }
  }

  /** A channel of key `k` that was cleaned: closed, and so not in the map. */
  predicate Shut(km: KM.State, k: string, c: KM.ChanId) {
    c < |km.chans| && km.chans[c].key == k && km.chans[c].closes > 0
  }

  lemma ShutStep(s: State, e: Event, k: string, c: KM.ChanId)
    requires Step(s, e).Some? && Shut(s.km, k, c)
    ensures Shut(Step(s, e).value.km, k, c)
  {
    KmMoves(s, e);
    if KmEvent(s, e).Some? {
      ShutKmStep(s.km, KmEvent(s, e).value, k, c);
    }
  }

  lemma ShutKmStep(km: KM.State, e: KM.Event, k: string, c: KM.ChanId)
    requires KM.Step(km, e).Some? && Shut(km, k, c)
    ensures Shut(KM.Step(km, e).value, k, c)
  {
  }

  // Once closed, always closed.
  lemma {:induction false} ShutForever(trace0: seq<Event>, s0: State, trace: seq<Event>, s: State,
                                       k: string, c: KM.ChanId)
    requires Run(trace0) == Some(s0) && Run(trace) == Some(s) && trace0 <= trace && Shut(s0.km, k, c)
    ensures Shut(s.km, k, c)
  {
    if |trace0| < |trace| {
      var front := trace[..|trace| - 1];
      ShutForever(trace0, s0, front, Run(front).value, k, c);
      ShutStep(Run(front).value, trace[|trace| - 1], k, c);
    } else {
      assert trace0 == trace;
    }
  }

  lemma ShutIsGone(trace: seq<Event>, s: State, k: string, c: KM.ChanId)
    requires Run(trace) == Some(s) && Shut(s.km, k, c)
    ensures !KP.Current(s.km.slots, k, c)
  {
    InvRun(trace);
  }

  // What Clean of a pair loads.
  function ToClean(km: KM.State, to: string, proto: string): Option<KM.ChanId> {
    var k := LockKey(proto, to);
    if to == "" || proto == "" || k !in km.slots then None else Some(km.slots[k])
  }

  lemma AfterLoad(before: seq<Event>, pre: State, s: State, t: nat)
    requires Run(before) == Some(pre) && Run(before + [DelLoad(t)]) == Some(s) && t < |pre.calls| && t < |s.calls|
    ensures var gone := ToClean(pre.km, pre.calls[t].to, pre.calls[t].proto);
            && (s.calls[t].phase.DropLoaded? <==> gone.Some?)
            && (gone.Some? ==> t in s.km.cleaners && s.km.cleaners[t] == KM.Loaded(pre.calls[t].Key(), gone.value))
  {
    LastStep(before, pre, DelLoad(t), s);
    ReachedCleaning(before, pre);
  }

  lemma AfterDelete(before: seq<Event>, pre: State, s: State, t: nat)
    requires Run(before) == Some(pre) && Run(before + [DelDelete(t)]) == Some(s)
    requires t in pre.km.cleaners
    ensures t in s.km.cleaners && s.km.cleaners[t].Deleted?
    ensures s.km.cleaners[t].ch == pre.km.cleaners[t].ch && s.km.cleaners[t].key == pre.km.cleaners[t].key
  {
    LastStep(before, pre, DelDelete(t), s);
  }

  lemma AfterClose(before: seq<Event>, pre: State, s: State, t: nat)
    requires Run(before) == Some(pre) && Run(before + [DelClose(t)]) == Some(s)
    requires t in pre.km.cleaners
    ensures Shut(s.km, pre.km.cleaners[t].key, pre.km.cleaners[t].ch)
  {
    LastStep(before, pre, DelClose(t), s);
    ReachedCleaning(before, pre);
  }

  // Steps by others leave a Clean under way as it is.
  lemma OthersLeaveCleaner(s: State, e: Event, t: nat)
    requires Step(s, e).Some? && Mover(e) != Some(t) && t in s.km.cleaners
    ensures t in Step(s, e).value.km.cleaners && Step(s, e).value.km.cleaners[t] == s.km.cleaners[t]
  {
    if !OnCacheLock(e) {
      OthersKeepCacheLock(s, e);
    }
  }

  /** Conditions a caller can see to, any of which makes the key sound. */
  predicate Sound(s: State, k: string) {
    k !in s.km.stolen || s.km.deletes[k] == 0 || k !in s.overlapped
  }

  lemma SoundIsPaired(trace: seq<Event>, s: State, t: nat)
    requires Run(trace) == Some(s) && Succeeded(s, t) && Sound(s, s.calls[t].Key())
    ensures Paired(s, t, s.calls[t].phase.res.sid, s.calls[t].phase.res.reply)
  {
    var k := s.calls[t].Key();
    if k !in s.km.stolen {
      RepliesArePaired(trace, t);
    } else if s.km.deletes[k] == 0 {
      PairedUntilFirstClean(trace, t);
    } else {
      PairedWithoutOverlap(trace, t);
    }
  }

  class Service {
    var km: KM.State
    var cache: Cache
    var cacheLock: Option<nat>
    var streams: seq<Stream>
    var calls: seq<Call>
    var overlapped: set<string>
    ghost var trace: seq<Event>  // everything that happened, oldest first

    function View(): State
      reads this
    {
      State(km, cache, cacheLock, streams, calls, overlapped)
    }

    ghost predicate Valid()
      reads this
    {
      Run(trace) == Some(View())
    }

    // Call `t` is in phase `p`, and it is the call that was made.
    ghost predicate Running(t: nat, c: Call, p: Phase)
      reads this
    {
      Valid() && t < |calls| && calls[t] == c.(phase := p)
    }

    constructor ()
      ensures Valid() && trace == []
    {
      km, cache, cacheLock := INIT.km, INIT.cache, INIT.cacheLock;
      streams, calls, overlapped := INIT.streams, INIT.calls, INIT.overlapped;
      trace := [];
    }

    // One atomic action.
    method Do(e: Event)
      requires Valid() && Step(View(), e).Some?
      modifies this
      ensures Valid() && trace == old(trace) + [e]
      ensures Some(View()) == Step(old(View()), e)
    {
      var s := Step(View(), e).value;
      km, cache, cacheLock, streams, calls, overlapped := s.km, s.cache, s.cacheLock, s.streams, s.calls, s.overlapped;
      trace := trace + [e];
      assert trace[..|trace| - 1] == old(trace);
    }

    // One atomic action of call `t`.
    method Act(t: nat, e: Event)
      requires Valid() && Mover(e) == Some(t) && Step(View(), e).Some?
      modifies this
      ensures Valid() && trace == old(trace) + [e]
      ensures t < old(|calls|) && t < |calls| && calls[t] == old(calls[t]).(phase := calls[t].phase)
      ensures Moves(e, old(calls[t].phase), calls[t].phase)
    {
      OnlyMoverMoves(View(), e);
      PhaseTable(View(), e, t);
      Do(e);
    }

    /** The others: any number of actions, none of them by call `me`. */
    method Others(me: nat)
      requires Valid() && me < |calls|
      modifies this
      ensures Valid() && old(trace) <= trace
      ensures |calls| >= old(|calls|) && calls[me] == old(calls[me])
      ensures old(me in km.cleaners) ==> me in km.cleaners && km.cleaners[me] == old(km.cleaners[me])
    {
      var n: nat := *;
      while n > 0
        invariant Valid() && old(trace) <= trace
        invariant |calls| >= old(|calls|) && calls[me] == old(calls[me])
        invariant old(me in km.cleaners) ==> me in km.cleaners && km.cleaners[me] == old(km.cleaners[me])
      {
        var e: Event := *;
        if Step(View(), e).Some? && Mover(e) != Some(me) {
          if !e.Start? {
            OnlyMoverMoves(View(), e);
          }
          if me in km.cleaners {
            OthersLeaveCleaner(View(), e, me);
          }
          Do(e);
        }
        n := n - 1;
      }
    }

    /** takelock: an error for a protocol that is not registered; otherwise the select ends with the token
        sent, or, if the timer's case is taken or the channel is not ready, with an error. */
    method TakeLock(kind: Kind, to: string, proto: string, msg: seq<byte>, env: Env) returns (t: nat, ok: bool)
      requires Valid() && '@' !in to
      modifies this
      ensures proto !in old(km.spaces) ==> !ok && View() == old(View()) && trace == old(trace)
      ensures proto in old(km.spaces) ==>
                && old(trace) < trace && t == old(|calls|) && (ok ==> !env.lockTimer)
                && Running(t, Call(kind, to, proto, msg, Locking), if ok then Locked else Done(Failed))
                && (!ok ==> Why(trace, t, LockFailed, env))
    {
      if proto !in km.spaces {
        return 0, false;
      }
      t := |calls|;
      Do(Start(kind, to, proto, msg));
      ok := AwaitLock(t, Call(kind, to, proto, msg, Locking), env);
    }

    method AwaitLock(t: nat, ghost c: Call, env: Env) returns (ok: bool)
      requires Running(t, c, Locking)
      modifies this
      ensures old(trace) < trace && Running(t, c, if ok then Locked else Done(Failed)) && (ok ==> !env.lockTimer)
      ensures !ok ==> Why(trace, t, LockFailed, env)
    {
      Others(t);
      CanTimeOut(trace, View(), t);
      ghost var before, pre := trace, View();
      ok := !env.lockTimer && LockReady(km, t);
      if ok {
        Act(t, LockOk(t));
      } else {
        var panics := !env.lockTimer && Step(View(), LockFail(t, false)).Some?;
        Act(t, LockFail(t, !panics));
        WhyNow(before, pre, LockFail(t, !panics), t, LockFailed, env);
      }
    }

    // Call `t` is under way after sendMsg.
    ghost predicate AfterSend(t: nat, c: Call, r: SendResult)
      reads this
    {
      && t < |calls| && Running(t, c, calls[t].phase)
      && match r
         case Waits => (calls[t].phase.Locked? || calls[t].phase.Wrote?) && cacheLock.Some?
         case Fails(cause) =>
           (cause.DialFailed? || cause.WriteFailed?) && (calls[t].phase.Dropping? || calls[t].phase == Leaving(Failed))
         case Sends => calls[t].phase.Awaiting?
    }

    /** sendMsg on a registered protocol: reuse a pooled stream or open one, and write one frame. It waits only
        for the cache lock; a failure on a pooled stream leaves it to be dropped. */
    method SendMsg(t: nat, ghost c: Call, env: Env) returns (r: SendResult)
      requires Running(t, c, Locked)
      modifies this
      ensures old(trace) <= trace && AfterSend(t, c, r)
      ensures r.Sends? ==> WroteOnce(calls, streams, t, calls[t].phase.sid, env.uuid)
      ensures r.Sends? ==> env.written && (env.dialed || Reused(trace, t))
      ensures r.Fails? ==> Why(trace, t, r.cause, env)
    {
      Others(t);
      if cacheLock.Some? {
        return Waits;
      }
      var pooled := Candidates(cache.pool, calls[t].to, calls[t].proto);
      ghost var got := trace;
      if pooled != {} {
        var h: Handle :| h in pooled;
        Act(t, GetHit(t, h));
        got := trace;
        assert GetHit(t, h) in got;
      } else {
        Act(t, GetMiss(t));
        var dialed := Dial(t, c, env);
        if !dialed {
          return Fails(DialFailed);
        }
      }
      r := WriteFrame(t, c, env);
      assert !env.dialed ==> Reused(trace, t);
    }

    // NewStream.
    method Dial(t: nat, ghost c: Call, env: Env) returns (dialed: bool)
      requires Running(t, c, Missed)
      modifies this
      ensures old(trace) <= trace && t < |calls| && Running(t, c, calls[t].phase) && dialed == env.dialed
      ensures if dialed then OnNewStream(t, c, env)
              else calls[t].phase == Leaving(Failed) && Why(trace, t, DialFailed, env)
    {
      Others(t);
      ghost var before, pre := trace, View();
      dialed := env.dialed;
      if dialed {
        Act(t, Open(t, env.remote, env.local));
        AfterOpen(before, pre, View(), t, env.remote, env.local);
      } else {
        Act(t, OpenFail(t));
        WhyNow(before, pre, OpenFail(t), t, DialFailed, env);
      }
    }

    // The call has the newest stream, to its peer on its protocol and on this connection, and it is blank.
    ghost predicate OnNewStream(t: nat, c: Call, env: Env)
      reads this
    {
      && t < |calls| && streams != [] && calls[t].phase == Opened(|streams| - 1)
      && streams[|streams| - 1] ==
         Stream(Handle(|streams| - 1, c.to, c.proto, env.remote, env.local), [], [], [], 0, START, false)
    }

    /** One frame. On success it is on the stream, once, and a stream opened for it has been offered to the
        cache; on failure the stream is spoilt and one opened for it is not in the cache. */
    method WriteFrame(t: nat, ghost c: Call, env: Env) returns (r: SendResult)
      requires t < |calls| && Running(t, c, calls[t].phase) && (calls[t].phase.Hit? || calls[t].phase.Opened?)
      modifies this
      ensures old(trace) <= trace && AfterSend(t, c, r)
      ensures r.Sends? ==> env.written
      ensures r.Fails? ==> r.cause == WriteFailed && Why(trace, t, WriteFailed, env)
      ensures var p, sid := old(calls[t].phase), old(calls[t].phase.sid);
              && (r.Sends? ==> calls[t].phase.sid == sid && WroteOnce(calls, streams, t, sid, env.uuid))
              && (r.Sends? && p.Opened? ==> Cached(View(), sid))
              && (r.Fails? ==> sid < |streams| && streams[sid].tainted)
              && (r.Fails? && p.Opened? ==> !Stored(cache.pool, streams[sid].handle))
    {
      Others(t);
      CanWrite(trace, View(), t, env.uuid, env.delivered);
      ghost var before, pre := trace, View();
      if env.written {
        Act(t, Write(t, env.uuid));
        ghost var i := AfterWrite(before, pre, View(), t, env.uuid);
        r := Store(t, c, i, env);
      } else {
        Act(t, WriteFail(t, env.uuid, env.delivered));
        AfterWriteFail(before, pre, WriteFail(t, env.uuid, env.delivered), View(), t);
        WhyNow(before, pre, WriteFail(t, env.uuid, env.delivered), t, WriteFailed, env);
        r := Fails(WriteFailed);
      }
    }

    // put, for a stream that is not from the cache.
    method Store(t: nat, ghost c: Call, ghost i: nat, env: Env) returns (r: SendResult)
      requires t < |calls| && Running(t, c, calls[t].phase) && (calls[t].phase.Awaiting? || calls[t].phase.Wrote?)
      requires Carries(streams, t, calls[t].phase.sid, i, env.uuid)
      modifies this
      ensures old(trace) <= trace && AfterSend(t, c, r) && !r.Fails?
      ensures var p, sid := old(calls[t].phase), old(calls[t].phase.sid);
              r.Sends? ==>
                && calls[t].phase == Awaiting(sid) && WroteOnce(calls, streams, t, sid, env.uuid)
                && (p.Wrote? ==> Cached(View(), sid))
    {
      ghost var written, then0, sid := trace, View(), calls[t].phase.sid;
      r := Sends;
      if calls[t].phase.Wrote? {
        r := PutFresh(t, c);
      }
      if r.Sends? {
        CarriesStays(written, then0, trace, View(), t, sid, i, env.uuid);
        CarriesOnce(trace, View(), t, sid, i, env.uuid);
      }
    }

    method PutFresh(t: nat, ghost c: Call) returns (r: SendResult)
      requires t < |calls| && Running(t, c, calls[t].phase) && calls[t].phase.Wrote?
      modifies this
      ensures old(trace) <= trace && !r.Fails?
      ensures r.Waits? ==> Running(t, c, old(calls[t].phase)) && cacheLock.Some?
      ensures r.Sends? ==> Running(t, c, Awaiting(old(calls[t].phase.sid))) && Cached(View(), old(calls[t].phase.sid))
    {
      Others(t);
      if cacheLock.Some? {
        return Waits;
      }
      CanPut(trace, View(), t);
      ghost var before, pre := trace, View();
      Act(t, PutStream(t));
      AfterPut(before, pre, View(), t);
      r := Sends;
    }

    /** FromReader: the next frame, taken if it is no error reply; or a failure, of the world or for want of a
        frame, after which the stream is spoilt, as it is after an error reply. */
    method ReadReply(t: nat, ghost c: Call, env: Env) returns (failure: Option<Cause>)
      requires t < |calls| && Running(t, c, calls[t].phase) && calls[t].phase.Awaiting?
      modifies this
      ensures old(trace) <= trace && t < |calls| && Running(t, c, calls[t].phase)
      ensures var sid := old(calls[t].phase.sid);
              && sid < |streams|
              && match failure
                 case None => TookFrame(View(), t, sid) && !env.deadline
                 case Some(cause) =>
                   && calls[t].phase.Dropping? && streams[sid].tainted
                   && (cause.ReadFailed? || cause.Refused?) && Why(trace, t, cause, env)
    {
      Others(t);
      CanReadFail(trace, View(), t);
      ghost var before, pre := trace, View();
      var next := NextFrame(View(), t);
      if env.deadline || next.None? {
        Act(t, ReadFail(t));
        AfterRead(before, pre, ReadFail(t), View(), t, pre.calls[t].phase.sid);
        WhyNow(before, pre, ReadFail(t), t, ReadFailed, env);
        failure := Some(ReadFailed);
      } else {
        Act(t, Read(t));
        AfterRead(before, pre, Read(t), View(), t, pre.calls[t].phase.sid);
        AfterTaking(before, pre, View(), t, next.value);
        if next.value.err == "" {
          failure := None;
        } else {
          WhyNow(before, pre, Read(t), t, Refused(next.value.err), env);
          failure := Some(Refused(next.value.err));
        }
      }
    }

    /** del2(to, proto, ""): the channel first, then the pool, under the cache lock throughout. Its last action
        drops and closes exactly what the pair has in the cache; the channel found for the key is closed and
        not in the map. It waits only for the cache lock. */
    method Del2(t: nat, ghost c: Call) returns (ok: bool, ghost gone: Option<KM.ChanId>)
      requires Running(t, c, Dropping) && '@' !in c.to
      modifies this
      ensures old(trace) <= trace
      ensures Running(t, c, if ok then Leaving(Failed) else Dropping) && (!ok ==> cacheLock.Some?)
      ensures ok ==> DroppedPair(trace, View(), t, c.to, c.proto) && PairDropped(cache.pool, c.to, c.proto)
      ensures ok && gone.Some? ==> Shut(km, c.Key(), gone.value) && !KP.Current(km.slots, c.Key(), gone.value)
    {
      gone := None;
      Others(t);
      if cacheLock.Some? {
        return false, gone;
      }
      Act(t, DelLock(t));
      Others(t);
      gone := CleanLock(t, c);
      ghost var upto, cleaned := trace, View();
      DropStreams(t, c);
      if gone.Some? {
        ShutForever(upto, cleaned, trace, View(), c.Key(), gone.value);
        ShutIsGone(trace, View(), c.Key(), gone.value);
      }
      ok := true;
    }

    method DropStreams(t: nat, ghost c: Call)
      requires Running(t, c, DropPool) && '@' !in c.to
      modifies this
      ensures old(trace) <= trace && Running(t, c, Leaving(Failed))
      ensures DroppedPair(trace, View(), t, c.to, c.proto) && PairDropped(cache.pool, c.to, c.proto)
    {
      Others(t);
      CanDropPool(trace, View(), t);
      ghost var before, pre := trace, View();
      Act(t, DelPool(t));
      AfterDelPool(before, pre, View(), t);
      DropsJustPair(before, pre, View(), t);
    }

    /** cleanlock: the key's channel, if one is stored, is deleted and closed; it is then in no map. */
    method CleanLock(t: nat, ghost c: Call) returns (ghost gone: Option<KM.ChanId>)
      requires Running(t, c, DropLocked)
      modifies this
      ensures old(trace) <= trace && Running(t, c, DropPool)
      ensures gone == ToClean(old(km), c.to, c.proto)
      ensures gone.Some? ==> Shut(km, c.Key(), gone.value)
    {
      CanClean(trace, View(), t);
      gone := ToClean(km, c.to, c.proto);
      ghost var before, pre := trace, View();
      Act(t, DelLoad(t));
      AfterLoad(before, pre, View(), t);
      if calls[t].phase.DropLoaded? {
        DeleteAndClose(t, c);
      }
    }

    method DeleteAndClose(t: nat, ghost c: Call)
      requires Running(t, c, DropLoaded) && t in km.cleaners && km.cleaners[t].key == c.Key()
      modifies this
      ensures old(trace) <= trace && Running(t, c, DropPool)
      ensures Shut(km, c.Key(), old(km.cleaners[t].ch))
    {
      Others(t);
      CanClean(trace, View(), t);
      ghost var before, pre := trace, View();
      Act(t, DelDelete(t));
      AfterDelete(before, pre, View(), t);
      Close(t, c);
    }

    method Close(t: nat, ghost c: Call)
      requires Running(t, c, DropDeleted) && t in km.cleaners && km.cleaners[t].key == c.Key()
      modifies this
      ensures old(trace) <= trace && Running(t, c, DropPool)
      ensures Shut(km, c.Key(), old(km.cleaners[t].ch))
    {
      Others(t);
      CanClean(trace, View(), t);
      ghost var before, pre := trace, View();
      Act(t, DelClose(t));
      AfterClose(before, pre, View(), t);
    }

    /** The deferred unlock always ends, and as `Released` says. */
    method Unlock(t: nat, ghost c: Call, ghost res: Result, env: Env)
      requires Running(t, c, Leaving(res))
      modifies this
      ensures old(trace) <= trace && Running(t, c, Done(res)) && Released(trace, View(), t, env.unlockTimer)
    {
      Others(t);
      CanUnlock(trace, View(), t);
      ghost var before, pre := trace, View();
      Act(t, UnlockLoad(t));
      if calls[t].phase.Unlocking? {
        FinishUnlock(t, c, res, env);
      } else {
        ReleasedByLoad(before, pre, View(), t, env.unlockTimer);
      }
    }

    method FinishUnlock(t: nat, ghost c: Call, ghost res: Result, env: Env)
      requires Running(t, c, Unlocking(res))
      modifies this
      ensures old(trace) <= trace && Running(t, c, Done(res)) && Released(trace, View(), t, env.unlockTimer)
    {
      Others(t);
      CanUnlock(trace, View(), t);
      CanReceive(trace, View(), t);
      ghost var before, pre := trace, View();
      var timeout := env.unlockTimer || !UnlockReady(km, t);
      Act(t, UnlockEnd(t, timeout));
      ReleasedByEnd(before, pre, View(), t, timeout, env.unlockTimer);
    }

    // Call `t` is the call `c` that was made. While it is blocked its next action is get, put or del2, and
    // another holds the cache lock. Else it has returned: with the data of the frame it took, paired if the
    // key is sound; or with an error, for the cause it reports.
    ghost predicate CallOver(t: nat, c: Call, env: Env, out: Outcome)
      reads this
    {
      && t < |calls| && calls[t] == c.(phase := calls[t].phase)
      && match out
         case Blocked => NeedsCache(calls[t].phase) && cacheLock.Some?
         case Error(cause) =>
           && calls[t].phase == Done(Failed) && Why(trace, t, cause, env)
           && (!cause.LockFailed? ==> Released(trace, View(), t, env.unlockTimer))
         case Success(data) =>
           && calls[t].phase.Done? && Succeeded(View(), t) && data == calls[t].phase.res.reply.data
           && !env.lockTimer && env.written && !env.deadline && (env.dialed || Reused(trace, t))
           && Released(trace, View(), t, env.unlockTimer)
           && (Sound(View(), c.Key()) ==> Paired(View(), t, calls[t].phase.res.sid, calls[t].phase.res.reply))
    }

    /** The whole call: takelock, sendMsg, FromReader, on failure del2, and the deferred unlock. */
    method OnRegistered(kind: Kind, to: string, proto: string, msg: seq<byte>, env: Env)
      returns (out: Outcome, ghost t: nat)
      requires Valid() && proto in km.spaces && '@' !in to
      modifies this
      ensures Valid() && old(trace) < trace && t == old(|calls|)
      ensures CallOver(t, Call(kind, to, proto, msg, Locking), env, out)
    {
      var id, locked := TakeLock(kind, to, proto, msg, env);
      t := id;
      if locked {
        out := Exchange(id, Call(kind, to, proto, msg, Locking), env);
      } else {
        out := Error(LockFailed);
      }
    }

    // With the lock taken.
    method Exchange(t: nat, ghost c: Call, env: Env) returns (out: Outcome)
      requires Running(t, c, Locked) && '@' !in c.to && !env.lockTimer
      modifies this
      ensures Valid() && old(trace) <= trace && CallOver(t, c, env, out)
    {
      var sent := SendMsg(t, c, env);
      match sent {
        case Waits => out := Blocked;
        case Fails(cause) => out := Fail(t, c, cause, env);
        case Sends => out := Receive(t, c, env);
      }
    }

    // With the frame written: FromReader, and what follows it.
    method Receive(t: nat, ghost c: Call, env: Env) returns (out: Outcome)
      requires t < |calls| && Running(t, c, calls[t].phase) && calls[t].phase.Awaiting? && '@' !in c.to
      requires !env.lockTimer && env.written && (env.dialed || Reused(trace, t))
      modifies this
      ensures Valid() && old(trace) <= trace && CallOver(t, c, env, out)
    {
      ghost var sent := trace;
      var failure := ReadReply(t, c, env);
      match failure {
        case Some(cause) => out := Fail(t, c, cause, env);
        case None =>
          var res := calls[t].phase.res;
          Unlock(t, c, res, env);
          if Sound(View(), c.Key()) {
            SoundIsPaired(trace, View(), t);
          }
          out := Success(res.reply.data);
      }
      assert Reused(sent, t) ==> Reused(trace, t);
    }

    // After a failure: del2 if a stream is to be dropped, and the unlock.
    method Fail(t: nat, ghost c: Call, cause: Cause, env: Env) returns (out: Outcome)
      requires t < |calls| && Running(t, c, calls[t].phase) && '@' !in c.to
      requires (calls[t].phase.Dropping? || calls[t].phase == Leaving(Failed)) && Why(trace, t, cause, env)
      modifies this
      ensures Valid() && old(trace) <= trace && CallOver(t, c, env, out) && (out.Error? ==> out.cause == cause)
      ensures !out.Success?
    {
      ghost var failed := trace;
      var dropped := true;
      if calls[t].phase.Dropping? {
        ghost var gone: Option<KM.ChanId>;
        dropped, gone := Del2(t, c);
      }
      if dropped {
        Unlock(t, c, Failed, env);
        WhyStays(failed, trace, t, cause, env);
        out := Error(cause);
      } else {
        out := Blocked;
      }
    }

    // Without a registered handler: a stream of its own, written and read to the end or closed. It touches
    // neither lock nor cache.
    method RawExchange(toEnd: bool, received: seq<byte>, env: Env) returns (out: Outcome)
      ensures out == if !env.dialed then Error(DialFailed) else if !env.written then Error(WriteFailed)
                     else if toEnd && env.deadline then Error(ReadFailed)
                     else Success(if toEnd then received else [])
    {
      if !env.dialed {
        out := Error(DialFailed);
      } else if !env.written {
        out := Error(WriteFailed);
      } else if toEnd && env.deadline {
        out := Error(ReadFailed);
      } else {
        out := Success(if toEnd then received else []);
      }
    }

    /** RequestWithTimeout. On success the data returned is what the far end's handler wrote when it served
        the one request this call sent, which carried `pkg`, unless an Unlock on the key has taken another
        channel's token; which does not happen before the key is first cleaned, or if its calls never
        overlap. An unregistered protocol leaves everything shared alone, and the bytes `received` on the
        call's own stream are returned. */
    method RequestWithTimeout(to: string, proto: string, pkg: seq<byte>, received: seq<byte>, env: Env)
      returns (out: Outcome, ghost t: nat)
      requires Valid() && '@' !in to
      modifies this
      ensures Valid()
      ensures proto !in old(km.spaces) ==> View() == old(View()) && !out.Blocked?
      ensures proto !in old(km.spaces) ==> (out == Success(received) <==> env.dialed && env.written && !env.deadline)
      ensures proto in old(km.spaces) ==>
                t == old(|calls|) && CallOver(t, Call(Kind.RequestWithTimeout, to, proto, pkg, Locking), env, out)
    {
      t := 0;
      if proto !in km.spaces {
        out := RawExchange(true, received, env);
      } else {
        out, t := OnRegistered(Kind.RequestWithTimeout, to, proto, pkg, env);
      }
    }

    /** SendMsgAfterClose: the same exchange; the reply is consumed, and only its error text is reported. */
    method SendMsgAfterClose(to: string, proto: string, msg: seq<byte>, env: Env) returns (out: Outcome, ghost t: nat)
      requires Valid() && '@' !in to
      modifies this
      ensures Valid() && (out.Success? ==> out.data == [])
      ensures proto !in old(km.spaces) ==> View() == old(View()) && (out.Success? <==> env.dialed && env.written)
      ensures proto !in old(km.spaces) ==> !out.Blocked?
      ensures proto in old(km.spaces) ==>
                && t == old(|calls|) && t < |calls|
                && (out.Success? ==> Succeeded(View(), t))
                && CallOver(t, Call(Kind.SendMsgAfterClose, to, proto, msg, Locking), env,
                            if out.Success? then Success(calls[t].phase.res.reply.data) else out)
    {
      t := 0;
      if proto !in km.spaces {
        out := RawExchange(false, [], env);
      } else {
        out, t := OnRegistered(Kind.SendMsgAfterClose, to, proto, msg, env);
        if out.Success? {
          out := Success([]);
        }
      }
    }
  }
}
