/** No call of the request protocol is ever stuck: the key locks and the cache lock do not deadlock, and
    every call is over after boundedly many steps of its own. */
module ProtocolProgress {
  import opened Counting
  import opened RawData
  import opened StreamKey
  import opened StreamCache
  import opened ServerLoop
  import opened Protocol
  import opened ProtocolInv
  import opened ProtocolStructure
  import opened ProtocolTheorems
  import KM = KeyMutex
  import KP = KeyMutexProofs

  // ------------------------------------------------------------------------------------------
  // A call that has not returned is never stuck on its own account: apart from the cache lock, its
  // next action can always be taken.

  lemma CanTimeOut(trace: seq<Event>, s: State, t: nat)
    requires Run(trace) == Some(s) && At(s, t, Locking)
    ensures Step(s, LockFail(t, true)).Some?
  {
    InvRun(trace);
    assert Sync(s.calls[t], s.km.callers[t]);
  }

  lemma CanWrite(trace: seq<Event>, s: State, t: nat, uuid: seq<byte>, delivered: bool)
    requires Run(trace) == Some(s) && t < |s.calls| && (s.calls[t].phase.Hit? || s.calls[t].phase.Opened?)
    ensures Step(s, Write(t, uuid)).Some? && Step(s, WriteFail(t, uuid, delivered)).Some?
  {
    ReachedRefs(trace, s, t);
  }

  lemma ReachedRefs(trace: seq<Event>, s: State, t: nat)
    requires Run(trace) == Some(s) && t < |s.calls|
    ensures Refers(s.calls[t], s.streams)
  {
    InvRun(trace);
  }

  lemma CanPut(trace: seq<Event>, s: State, t: nat)
    requires Run(trace) == Some(s) && t < |s.calls| && s.calls[t].phase.Wrote? && s.cacheLock.None?
    ensures Step(s, PutStream(t)).Some?
  {
    ReachedRefs(trace, s, t);
  }

  lemma CanReadFail(trace: seq<Event>, s: State, t: nat)
    requires Run(trace) == Some(s) && t < |s.calls| && s.calls[t].phase.Awaiting?
    ensures Step(s, ReadFail(t)).Some?
  {
    ReachedRefs(trace, s, t);
  }

  lemma CanClean(trace: seq<Event>, s: State, t: nat)
    requires Run(trace) == Some(s) && t < |s.calls|
    ensures s.calls[t].phase.DropLocked? ==> Step(s, DelLoad(t)).Some?
    ensures s.calls[t].phase.DropLoaded? ==> Step(s, DelDelete(t)).Some?
    ensures s.calls[t].phase.DropDeleted? ==> Step(s, DelClose(t)).Some?
  {
    ReachedCleaning(trace, s);
  }

  lemma ReachedCleaning(trace: seq<Event>, s: State)
    requires Run(trace) == Some(s)
    ensures DelOk(s.calls, s.km.cleaners, s.cacheLock) && KP.CleanersOk(s.km.slots, s.km.chans, s.km.cleaners)
  {
    InvRun(trace);
  }

  lemma CanDropPool(trace: seq<Event>, s: State, t: nat)
    requires Run(trace) == Some(s) && At(s, t, DropPool)
    ensures Step(s, DelPool(t)).Some?
  {
    ReachedPool(trace, s);
  }

  lemma ReachedPool(trace: seq<Event>, s: State)
    requires Run(trace) == Some(s)
    ensures Wf(s.cache.pool)
  {
    InvRun(trace);
  }

  lemma CanUnlock(trace: seq<Event>, s: State, t: nat)
    requires Run(trace) == Some(s) && t < |s.calls|
    ensures s.calls[t].phase.Leaving? ==> Step(s, UnlockLoad(t)).Some?
    ensures s.calls[t].phase.Unlocking? ==> Step(s, UnlockEnd(t, true)).Some?
  {
    ReachedCaller(trace, s, t);
  }

  lemma ReachedCaller(trace: seq<Event>, s: State, t: nat)
    requires Run(trace) == Some(s) && t < |s.calls|
    ensures t < |s.km.callers| && Sync(s.calls[t], s.km.callers[t]) && KP.CallerOk(s.km.chans, s.km.callers[t])
  {
    InvRun(trace);
  }

  // ------------------------------------------------------------------------------------------
  // Some call can always go on.

  // The call inside del2 needs nothing that another call holds.
  lemma Del2CanGoOn(trace: seq<Event>, s: State) returns (e: Event)
    requires Run(trace) == Some(s) && s.cacheLock.Some?
    ensures Step(s, e).Some? && Mover(e).Some?
  {
    ReachedCleaning(trace, s);
    var t := s.cacheLock.value;
    CanClean(trace, s, t);
    match s.calls[t].phase {
      case DropLocked => e := DelLoad(t);
      case DropLoaded => e := DelDelete(t);
      case DropDeleted => e := DelClose(t);
      case _ =>
        CanDropPool(trace, s, t);
        e := DelPool(t);
    }
  }

  lemma CanGet(s: State, t: nat) returns (e: Event)
    requires At(s, t, Locked) && s.cacheLock.None?
    ensures Step(s, e).Some? && Mover(e) == Some(t)
  {
    if h :| h in Candidates(s.cache.pool, s.calls[t].to, s.calls[t].proto) {
      e := GetHit(t, h);
    } else {
      e := GetMiss(t);
    }
  }

  // With the cache lock free, any call that has not returned can go on.
  lemma CallCanGoOn(trace: seq<Event>, s: State, t: nat) returns (e: Event)
    requires Run(trace) == Some(s) && s.cacheLock.None? && t < |s.calls| && !s.calls[t].phase.Done?
    ensures Step(s, e).Some? && Mover(e) == Some(t)
  {
    ReachedCleaning(trace, s);
    match s.calls[t].phase {
      case Locking =>
        CanTimeOut(trace, s, t);
        e := LockFail(t, true);
      case Locked => e := CanGet(s, t);
      case Missed => e := OpenFail(t);
      case Wrote(_) =>
        CanPut(trace, s, t);
        e := PutStream(t);
      case Awaiting(_) =>
        CanReadFail(trace, s, t);
        e := ReadFail(t);
      case Dropping => e := DelLock(t);
      case Leaving(_) =>
        CanUnlock(trace, s, t);
        e := UnlockLoad(t);
      case Unlocking(_) =>
        CanUnlock(trace, s, t);
        e := UnlockEnd(t, true);
      case _ =>
        CanWrite(trace, s, t, [], false);
        e := Write(t, []);
    }
  }

  // ------------------------------------------------------------------------------------------
  // Every step of a call brings it nearer to its end.

  const MAX_STEPS: nat := 13

  const STEPS_LEFT: Call -> nat := (c: Call) =>
    match c.phase
    case Locking => MAX_STEPS
    case Locked => 12
    case Missed => 11
    case Hit(_) => 10
    case Opened(_) => 10
    case Wrote(_) => 9
    case Awaiting(_) => 8
    case Dropping => 7
    case DropLocked => 6
    case DropLoaded => 5
    case DropDeleted => 4
    case DropPool => 3
    case Leaving(_) => 2
    case Unlocking(_) => 1
    case Done(_) => 0

  function StepsLeft(s: State): nat { Sum(s.calls, STEPS_LEFT) }

  function One(b: bool): nat { if b then 1 else 0 }

  // The steps taken by calls.
  function CallSteps(es: seq<Event>): nat {
    if es == [] then 0 else CallSteps(es[..|es| - 1]) + One(Mover(es[|es| - 1]).Some?)
  }

  lemma PhaseComesNearer(e: Event, c: Call, p: Phase)
    requires Moves(e, c.phase, p)
    ensures STEPS_LEFT(c.(phase := p)) < STEPS_LEFT(c)
  {
  }

  lemma StartAddsCall(s: State, kind: Kind, to: string, proto: string, msg: seq<byte>)
    requires DoStart(s, kind, to, proto, msg).Some?
    ensures var s' := DoStart(s, kind, to, proto, msg).value;
            |s'.calls| == |s.calls| + 1 && StepsLeft(s') == StepsLeft(s) + MAX_STEPS
  {
    SumAppend(s.calls, Call(kind, to, proto, msg, Locking), STEPS_LEFT);
  }

  lemma StepComesNearer(s: State, e: Event)
    requires Step(s, e).Some? && !e.Start?
    ensures |Step(s, e).value.calls| == |s.calls|
    ensures StepsLeft(Step(s, e).value) + One(Mover(e).Some?) <= StepsLeft(s)
  {
    OnlyMoverMoves(s, e);
    if Mover(e).Some? {
      var t := Mover(e).value;
      var p := Step(s, e).value.calls[t].phase;
      PhaseTable(s, e, t);
      PhaseComesNearer(e, s.calls[t], p);
      SumUpdate(s.calls, t, s.calls[t].(phase := p), STEPS_LEFT);
    }
  }

  lemma {:induction false} StepsBounded(es: seq<Event>)
    requires Run(es).Some?
    ensures CallSteps(es) + StepsLeft(Run(es).value) <= MAX_STEPS * |Run(es).value.calls|
  {
    if es != [] {
      var front, e := es[..|es| - 1], es[|es| - 1];
      var r := Run(front).value;
      StepsBounded(front);
      if e.Start? {
        StartAddsCall(r, e.kind, e.to, e.proto, e.msg);
      } else {
        StepComesNearer(r, e);
      }
    }
  }

  predicate AllReturned(s: State) { forall t :: 0 <= t < |s.calls| ==> s.calls[t].phase.Done? }

  /** In every run calls take at most thirteen steps each, whatever the others, the network and the far ends
      do; and where no call can take a step every call has returned. So however the calls that can go on
      are scheduled, all calls return: the key locks and the cache lock never deadlock. */
  lemma EveryScheduleReturns(es: seq<Event>)
    requires Run(es).Some?
    ensures var s := Run(es).value;
            && CallSteps(es) + StepsLeft(s) <= MAX_STEPS * |s.calls|
            && ((forall e :: Mover(e).Some? ==> Step(s, e).None?) ==> AllReturned(s))
  {
    var s := Run(es).value;
    StepsBounded(es);
    if t: nat :| t < |s.calls| && !s.calls[t].phase.Done? {
      var e: Event;
      if s.cacheLock.Some? {
        e := Del2CanGoOn(es, s);
      } else {
        e := CallCanGoOn(es, s, t);
      }
    }
  }
}
