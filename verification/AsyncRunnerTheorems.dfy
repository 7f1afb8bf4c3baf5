/** What the worker pool guarantees in every interleaving. */
module AsyncRunnerTheorems {
  import opened Counting
  import opened AsyncRunner
  import opened AsyncRunnerProofs

  lemma {:induction false} RunFromAppend(s: State, es: seq<Event>, e: Event)
    requires RunFrom(s, es).Some? && Enabled(RunFrom(s, es).value, e)
    ensures RunFrom(s, es + [e]) == Some(Step(RunFrom(s, es).value, e))
  {
    assert (es + [e])[..|es|] == es;
  }

  lemma Then(s0: State, es: seq<Event>, s: State, e: Event) returns (es': seq<Event>, s': State)
    requires RunFrom(s0, es) == Some(s) && Enabled(s, e)
    ensures es' == es + [e] && s' == Step(s, e) && RunFrom(s0, es') == Some(s')
  {
    RunFromAppend(s0, es, e);
    es', s' := es + [e], Step(s, e);
  }

  /** The counter is the number of workers not yet retired, one being started included, and stays
      between zero and the maximum, also while cancelled workers decrement it outside the lock. */
  lemma CounterIsWorkers(min: int, max: int, es: seq<Event>)
    requires max < MAX_INT32 && Run(min, max, es).Some?
    ensures var s := Run(min, max, es).value;
            && s.counter == Unretired(s) + BeingBorn(s)
            && 0 <= s.counter <= if max > 0 then max else 0
  {
    InvRun(min, max, es);
  }

  function One(b: bool): nat { if b then 1 else 0 }

  /** Every submitted task is in exactly one place, once: waiting in its Apply call, running, or done;
      in particular none runs twice and none is dropped. */
  lemma TasksExactlyOnce(min: int, max: int, es: seq<Event>, i: Task)
    requires Run(min, max, es).Some?
    ensures var s := Run(min, max, es).value;
            One(Pending(s, i)) + RunningCount(s, i) + s.done[i] == One(i < |s.subs|)
  {
    InvRun(min, max, es);
  }

  /** Close accounting. Closes done or due never exceed the starts from zero, and while the context is
      alive they are exactly the starts, less one if workers are live. So closeCh is closed twice,
      which crashes, only if the pool was started again after draining, and then as soon as it has
      drained again; and with a positive minimum a live pool is closed only after WaitClose. */
  lemma CloseAccounting(min: int, max: int, es: seq<Event>)
    requires max < MAX_INT32 && Run(min, max, es).Some?
    ensures var s := Run(min, max, es).value;
            && s.closes + CloseDue(s) + One(s.counter > 0) <= s.starts
            && (Alive(s) ==> s.closes + CloseDue(s) == s.starts - One(s.counter > 0))
            && (Crashed(s) ==> s.starts >= 2)
            && (Alive(s) && s.counter == 0 && CloseDue(s) == 0 ==> (Crashed(s) <==> s.starts >= 2))
            && (min >= 1 && Alive(s) && s.closes + CloseDue(s) > 0 ==> s.closing)
  {
    InvRun(min, max, es);
    var s := Run(min, max, es).value;
    if CloseDue(s) > 0 {
      assert s.workers[s.lock.w].Closing?;
    }
  }

  // ------------------------------------------------------------------------------------------
  // Wait.

  lemma {:induction false} NobodyLeft(workers: seq<Worker>, w: nat)
    requires Sum(workers, UNFINISHED) == 0 && w < |workers|
    ensures workers[w].Gone?
  {
    SumAtLeast(workers, w, UNFINISHED);
  }

  /** Wait returns when the wait group is zero: the monitor has then seen a cancelled context or a
      closed closeCh, and every worker goroutine has exited. */
  lemma WaitMeansDrained(min: int, max: int, es: seq<Event>)
    requires Run(min, max, es).Some?
    ensures var s := Run(min, max, es).value;
            && s.wg == One(s.monitor) + Goroutines(s)
            && (s.wg == 0 ==> (s.ctxDone || s.closes > 0) && forall w :: 0 <= w < |s.workers| ==> s.workers[w].Gone?)
  {
    InvRun(min, max, es);
    var s := Run(min, max, es).value;
    if s.wg == 0 {
      forall w | 0 <= w < |s.workers|
        ensures s.workers[w].Gone?
      {
        NobodyLeft(s.workers, w);
      }
    }
  }

  lemma ZeroRises(s: State, e: Event)
    requires Inv(s) && Enabled(s, e) && s.wg == 0
    ensures Step(s, e).wg == if e.SubSpawn? then 1 else 0
    ensures e.SubSpawn? && Alive(s) && NoWrap(s) ==> s.starts >= 2
  {
    if e.SubSpawn? {
      SumAtLeast(s.subs, e.i, SPAWNING);
    } else if e.WorkerDone? {
      NobodyLeft(s.workers, e.w);
    }
  }

  // No run revives the context or forgets a start.
  lemma StartsStay(s: State, e: Event)
    requires Enabled(s, e)
    ensures (Alive(Step(s, e)) ==> Alive(s)) && s.starts <= Step(s, e).starts
  {
  }

  predicate ZeroAfter(s: State, es: seq<Event>, k: nat)
    requires k <= |es|
  {
    RunFrom(s, es[..k]).Some? && RunFrom(s, es[..k]).value.wg == 0
  }

  // At no point of the schedule is the wait group above zero.
  ghost predicate StaysZero(s: State, es: seq<Event>) {
    forall k :: 0 <= k <= |es| ==> ZeroAfter(s, es, k)
  }

  predicate Spawns(es: seq<Event>) { exists k :: 0 <= k < |es| && es[k].SubSpawn? }

  lemma ZeroAfterExtend(s: State, es: seq<Event>, e: Event, k: nat)
    requires k <= |es|
    ensures ZeroAfter(s, es + [e], k) <==> ZeroAfter(s, es, k)
  {
    assert (es + [e])[..k] == es[..k];
  }

  lemma StaysZeroExtend(s: State, es: seq<Event>, e: Event)
    ensures StaysZero(s, es + [e]) <==> StaysZero(s, es) && ZeroAfter(s, es + [e], |es| + 1)
  {
    forall k | 0 <= k <= |es|
      ensures ZeroAfter(s, es + [e], k) <==> ZeroAfter(s, es, k)
    {
      ZeroAfterExtend(s, es, e, k);
    }
  }

  lemma SpawnsExtend(es: seq<Event>, e: Event)
    ensures Spawns(es + [e]) <==> Spawns(es) || e.SubSpawn?
  {
    var more := es + [e];
    if k :| 0 <= k < |es| && es[k].SubSpawn? {
      assert more[k].SubSpawn?;
    }
    assert more[|es|] == e;
  }

  /** A wait group that has reached zero stays there if and only if no worker is started any more, and
      then Wait is final. While the context is alive, starting one is a restart of a drained pool. */
  lemma {:induction false} WaitIsFinal(s: State, es: seq<Event>)
    requires Inv(s) && s.wg == 0 && RunFrom(s, es).Some?
    ensures StaysZero(s, es) <==> !Spawns(es)
    ensures StaysZero(s, es) ==> RunFrom(s, es).value.wg == 0
    ensures NoWrap(s) && Alive(RunFrom(s, es).value) && Spawns(es) ==> RunFrom(s, es).value.starts >= 2
  {
    if es == [] {
      assert es[..0] == [];
    } else {
      var before, e := es[..|es| - 1], es[|es| - 1];
      assert es == before + [e];
      WaitIsFinal(s, before);
      InvFrom(s, before);
      StaysZeroExtend(s, before, e);
      assert es[..|es|] == es;
      SpawnsExtend(before, e);
      StartsStay(RunFrom(s, before).value, e);
      if StaysZero(s, before) {
        ZeroRises(RunFrom(s, before).value, e);
      }
    }
  }

  /** The condition of a live context is needed: with the context cancelled first, Wait may return
      before the first Apply, whose worker then lifts the wait group without any restart. */
  lemma CancelledWaitRises(min: int, max: int)
    requires 1 <= max < MAX_INT32
    ensures exists es, k: nat :: k <= |es| && Run(min, max, es).Some? && Run(min, max, es[..k]).Some?
                            && Run(min, max, es[..k]).value.wg == 0
                            && Run(min, max, es).value.wg == 1 && Run(min, max, es).value.starts == 1
  {
    var s0 := New(min, max);
    var before, s := Then(s0, [], s0, Cancel);
    before, s := Then(s0, before, s, MonitorDone);
    assert s == s0.(ctxDone := true, monitor := false, wg := 0);
    var es, t := FirstWorker(s0, before, s);
    assert es[..|before|] == before;
  }

  lemma FirstWorker(s0: State, es0: seq<Event>, s: State) returns (es: seq<Event>, t: State)
    requires RunFrom(s0, es0) == Some(s) && !Crashed(s)
    requires s.counter == 0 && s.wg == 0 && s.starts == 0 && s.lock.Nobody? && s.max >= 1
    ensures RunFrom(s0, es) == Some(t) && es0 <= es && t.wg == 1 && t.starts == 1
  {
    WrapInRange(1);
    es, t := FindsRoom(s0, es0, s);
    es, t := StartsWorker(s0, es, t, |s.subs|);
  }

  // ------------------------------------------------------------------------------------------
  // Submitters are served.

  lemma RetireLeavesMinimum(s: State, w: nat)
    requires MinOk(s) && BoundOk(s) && NoWrap(s) && s.min >= 1 && !s.closing && !s.ctxDone
    requires Enabled(s, GcRetire(w))
    ensures Step(s, GcRetire(w)).counter >= s.min
  {
  }

  /** Idle collection never takes an open pool below its minimum. */
  lemma CollectionKeepsMinimum(min: int, max: int, es: seq<Event>, w: nat)
    requires max < MAX_INT32 && Run(min, max, es).Some?
    requires var s := Run(min, max, es).value;
             min >= 1 && !s.closing && !s.ctxDone && Enabled(s, GcRetire(w))
    ensures Step(Run(min, max, es).value, GcRetire(w)).counter >= min
  {
    InvRun(min, max, es);
    RetireLeavesMinimum(Run(min, max, es).value, w);
  }

  lemma SomebodyStays(s: State, i: Task) returns (w: nat)
    requires StayOk(s.workers, s.subs) && Sub(s, i, Sending)
    ensures w < |s.workers| && s.workers[w].Counted() && !s.workers[w].Retiring? && !s.workers[w].Cancelling?
  {
    assert Waits(s.subs[i]);
    w := SumWitness(s.workers, STAYS);
  }

  /** While a submitter is blocked in an open pool there is a live worker that has not been told to go. */
  lemma BlockedSubmitterHasWorker(min: int, max: int, es: seq<Event>, i: Task)
    requires max < MAX_INT32 && Run(min, max, es).Some?
    requires Open(Run(min, max, es).value) && Sub(Run(min, max, es).value, i, Sending)
    ensures exists w :: 0 <= w < |Run(min, max, es).value.workers| &&
                        var p := Run(min, max, es).value.workers[w];
                        p.Counted() && !p.Retiring? && !p.Cancelling?
  {
    InvRun(min, max, es);
    var w := SomebodyStays(Run(min, max, es).value, i);
  }

  // Steps of the program itself: no new submission, no timer, no request to close or cancel.
  predicate Progress(e: Event) { !e.Submit? && !e.Tick? && !e.WaitClose? && !e.Cancel? }

  const WORK_LEFT: Worker -> nat := (w: Worker) =>
    match w
    case Gone => 0
    case Exiting => 1
    case Cancelling => 2
    case Releasing(exit) => if exit then 2 else 4
    case Closing => 3
    case Selecting => 3
    case Running(_) => 4
    case Retiring => 5
    case Checking => 6
    case Ticked => 7

  const SUBMIT_LEFT: Submitter -> nat := (p: Submitter) =>
    match p
    case Handed => 0
    case Sending => 2
    case Unlocking => 3
    case Spawning => 7
    case Adding => 8
    case Looking => 9
    case WantLock => 10
    case Trying => 11

  function Measure(s: State): nat { Sum(s.workers, WORK_LEFT) + Sum(s.subs, SUBMIT_LEFT) + One(s.monitor) }

  lemma ProgressBySubmitter(s: State, e: Event)
    requires Enabled(s, e) && Progress(e)
    requires e.Hand? || e.Default? || e.SubLock? || e.SubLook? || e.SubAdd? || e.SubSpawn? || e.SubUnlock?
    ensures Measure(Step(s, e)) < Measure(s)
  {
    SumUpdate(s.subs, e.i, Step(s, e).subs[e.i], SUBMIT_LEFT);
    if e.Hand? {
      SumUpdate(s.workers, e.w, Running(e.i), WORK_LEFT);
    } else if e.SubSpawn? {
      SumAppend(s.workers, Selecting, WORK_LEFT);
    }
  }

  lemma ProgressByWorker(s: State, e: Event)
    requires Enabled(s, e) && Progress(e)
    requires !e.Hand? && !e.Default? && !e.SubLock? && !e.SubLook? && !e.SubAdd? && !e.SubSpawn? && !e.SubUnlock?
    ensures Measure(Step(s, e)) < Measure(s)
  {
    if !e.MonitorDone? {
      SumUpdate(s.workers, e.w, Step(s, e).workers[e.w], WORK_LEFT);
    }
  }

  /** Every hand-off, completion and internal step decreases a measure, so without new submissions and
      timer ticks the pool comes to rest after boundedly many steps, in every schedule. */
  lemma ProgressDecreases(s: State, e: Event)
    requires Enabled(s, e) && Progress(e)
    ensures Measure(Step(s, e)) < Measure(s)
  {
    if e.Hand? || e.Default? || e.SubLock? || e.SubLook? || e.SubAdd? || e.SubSpawn? || e.SubUnlock? {
      ProgressBySubmitter(s, e);
    } else {
      ProgressByWorker(s, e);
    }
  }

  // The mutex's owner can always go on.
  function OwnerStep(s: State): (e: Event)
    requires LockOk(s.lock, s.workers, s.subs) && !s.lock.Nobody? && !Crashed(s)
    ensures Enabled(s, e) && Progress(e)
  {
    match s.lock
    case ByWorker(w) =>
      (match s.workers[w]
       case Checking => GcCheck(w)
       case Retiring => GcRetire(w)
       case Closing => GcClose(w)
       case _ => GcUnlock(w))
    case BySubmitter(i) =>
      (match s.subs[i]
       case Looking => SubLook(i)
       case Adding => SubAdd(i)
       case Spawning => SubSpawn(i)
       case _ => SubUnlock(i))
  }

  // A task is waiting in its Apply call or running.
  ghost predicate Unserved(s: State) {
    (exists i :: Pending(s, i)) || (exists w :: 0 <= w < |s.workers| && s.workers[w].Running?)
  }

  // In an open pool with a pending or running task some step of the program is possible.
  lemma SomeStepPossible(s: State) returns (e: Event)
    requires Inv(s) && NoWrap(s) && Open(s) && Unserved(s)
    ensures Enabled(s, e) && Progress(e)
  {
    if !s.lock.Nobody? {
      e := OwnerStep(s);
    } else if w :| 0 <= w < |s.workers| && s.workers[w].Running? {
      e := Finish(w);
    } else {
      var i: Task :| Pending(s, i);
      match s.subs[i] {
        case Trying => e := Default(i);
        case WantLock => e := SubLock(i);
        case _ => e := ServeSending(s, i);
      }
    }
  }

  // With the lock free and nobody running, a live worker takes the task or finishes its collection.
  lemma ServeSending(s: State, i: Task) returns (e: Event)
    requires Inv(s) && NoWrap(s) && Open(s) && s.lock.Nobody? && Sub(s, i, Sending)
    requires forall w :: 0 <= w < |s.workers| ==> !s.workers[w].Running?
    ensures Enabled(s, e) && Progress(e)
  {
    var w := SomebodyStays(s, i);
    if s.workers[w].Selecting? {
      e := Hand(i, w);
    } else {
      e := GcLock(w);
    }
  }

  predicate AllDone(s: State) { forall i :: 0 <= i < |s.subs| ==> s.subs[i].Handed? && s.done[i] == 1 }

  // Timers firing, and nothing else from outside.
  predicate Inside(e: Event) { Progress(e) || e.Tick? }

  function Ticks(es: seq<Event>): nat { if es == [] then 0 else Ticks(es[..|es| - 1]) + One(es[|es| - 1].Tick?) }

  lemma TickAdds(s: State, w: nat)
    requires Enabled(s, Tick(w))
    ensures Measure(Step(s, Tick(w))) == Measure(s) + 4
  {
    SumUpdate(s.workers, w, Ticked, WORK_LEFT);
  }

  lemma InsideStep(s: State, e: Event)
    requires Inv(s) && NoWrap(s) && Open(s) && Enabled(s, e) && Inside(e)
    ensures Inv(Step(s, e)) && NoWrap(Step(s, e)) && Open(Step(s, e)) && |Step(s, e).subs| == |s.subs|
    ensures 1 + Measure(Step(s, e)) <= Measure(s) + 5 * One(e.Tick?)
  {
    InvStep(s, e);
    InsideKeepsOpen(s, e);
    if e.Tick? {
      TickAdds(s, e.w);
    } else {
      ProgressDecreases(s, e);
    }
  }

  /** Every schedule of an open pool serves its submissions. Without new ones, a schedule with `n` timer
      ticks is no longer than the measure plus five times `n`, and where it can only be extended by a
      tick every submitted task has run exactly once. */
  lemma {:induction false} EveryScheduleServes(s: State, es: seq<Event>)
    requires Inv(s) && NoWrap(s) && Open(s) && RunFrom(s, es).Some? && forall e :: e in es ==> Inside(e)
    ensures var t := RunFrom(s, es).value;
            && Inv(t) && NoWrap(t) && Open(t) && |t.subs| == |s.subs|
            && |es| + Measure(t) <= Measure(s) + 5 * Ticks(es)
            && ((forall e :: Progress(e) ==> !Enabled(t, e)) ==> AllDone(t))
  {
    var t := RunFrom(s, es).value;
    if es != [] {
      var n := |es| - 1;
      assert forall e :: e in es[..n] ==> e in es;
      EveryScheduleServes(s, es[..n]);
      InsideStep(RunFrom(s, es[..n]).value, es[n]);
    }
    if Unserved(t) {
      var e := SomeStepPossible(t);
    } else {
      RestMeansDone(t);
    }
  }

  lemma InsideKeepsOpen(s: State, e: Event)
    requires Enabled(s, e) && Inside(e) && Open(s)
    ensures Open(Step(s, e)) && |Step(s, e).subs| == |s.subs|
  {
  }

  /** When no task is pending or running, every submitted one is done, once. */
  lemma RestMeansDone(s: State)
    requires TasksOk(s.workers, s.done, s.subs) && !Unserved(s)
    ensures AllDone(s)
  {
    forall i | 0 <= i < |s.subs|
      ensures s.subs[i].Handed? && s.done[i] == 1
    {
      assert !Pending(s, i);
      if RunningCount(s, i) > 0 {
        var w := SumWitness(s.workers, RunningOf(i));
      }
    }
  }

  // ------------------------------------------------------------------------------------------
  // The second close.

  // Nobody holds the lock, no worker is live, and WaitClose was called.
  predicate Drained(s: State) { s.counter == 0 && s.lock.Nobody? && s.closing && s.max >= 1 && !Crashed(s) }

  // Everything but the submitters and the mutex.
  predicate SamePool(s: State, t: State) {
    && t.max == s.max && t.counter == s.counter && t.wg == s.wg && t.ctxDone == s.ctxDone
    && t.closing == s.closing && t.workers == s.workers && t.closes == s.closes && t.starts == s.starts
  }

  lemma Queues(s0: State, es0: seq<Event>, s: State) returns (es: seq<Event>, s': State)
    requires RunFrom(s0, es0) == Some(s) && !Crashed(s)
    ensures RunFrom(s0, es) == Some(s') && es0 <= es
    ensures SamePool(s, s') && s'.lock == s.lock && Sub(s', |s.subs|, WantLock)
  {
    es, s' := Then(s0, es0, s, Submit);
    es, s' := Then(s0, es, s', Default(|s.subs|));
  }

  // Its look at the counter tells it to add a worker.
  lemma LookFindsRoom(s: State, i: nat)
    requires !Crashed(s) && Sub(s, i, Looking) && Wrap32(s.counter + 1) <= s.max
    ensures Enabled(s, SubLook(i)) && Step(s, SubLook(i)) == s.(subs := s.subs[i := Adding])
  {
  }

  lemma Locks(s0: State, es0: seq<Event>, s: State, i: nat) returns (es: seq<Event>, s': State)
    requires RunFrom(s0, es0) == Some(s) && !Crashed(s) && s.lock.Nobody? && Sub(s, i, WantLock)
    ensures RunFrom(s0, es) == Some(s') && es0 <= es && SamePool(s, s') && Sub(s', i, Looking)
  {
    es, s' := Then(s0, es0, s, SubLock(i));
  }

  lemma Looks(s0: State, es0: seq<Event>, s: State, i: nat) returns (es: seq<Event>, s': State)
    requires RunFrom(s0, es0) == Some(s) && !Crashed(s) && Sub(s, i, Looking) && Wrap32(s.counter + 1) <= s.max
    ensures RunFrom(s0, es) == Some(s') && es0 <= es && SamePool(s, s') && Sub(s', i, Adding)
  {
    LookFindsRoom(s, i);
    es, s' := Then(s0, es0, s, SubLook(i));
  }

  // A submitter finds room.
  lemma FindsRoom(s0: State, es0: seq<Event>, s: State) returns (es: seq<Event>, s': State)
    requires RunFrom(s0, es0) == Some(s) && !Crashed(s) && s.lock.Nobody? && Wrap32(s.counter + 1) <= s.max
    ensures RunFrom(s0, es) == Some(s') && es0 <= es && SamePool(s, s') && Sub(s', |s.subs|, Adding)
  {
    es, s' := Queues(s0, es0, s);
    es, s' := Locks(s0, es, s', |s.subs|);
    es, s' := Looks(s0, es, s', |s.subs|);
  }

  lemma Adds(s: State, i: nat)
    requires !Crashed(s) && 0 <= s.counter < MAX_INT32 && Sub(s, i, Adding)
    ensures Step(s, SubAdd(i)) ==
            s.(subs := s.subs[i := Spawning], counter := s.counter + 1, starts := s.starts + One(s.counter == 0))
  {
    WrapInRange(s.counter + 1);
  }

  lemma SpawnsAndUnlocks(s0: State, es0: seq<Event>, s: State, i: nat) returns (es: seq<Event>, s': State)
    requires RunFrom(s0, es0) == Some(s) && !Crashed(s) && Sub(s, i, Spawning)
    ensures RunFrom(s0, es) == Some(s') && es == es0 + [SubSpawn(i), SubUnlock(i)] && Sub(s', i, Sending)
    ensures s' == s.(subs := s'.subs, lock := Nobody, wg := s.wg + 1, workers := s.workers + [Selecting])
  {
    es, s' := Then(s0, es0, s, SubSpawn(i));
    es, s' := Then(s0, es, s', SubUnlock(i));
  }

  // It starts a worker.
  lemma StartsWorker(s0: State, es0: seq<Event>, s: State, i: nat) returns (es: seq<Event>, s': State)
    requires RunFrom(s0, es0) == Some(s) && !Crashed(s) && 0 <= s.counter < MAX_INT32 && Sub(s, i, Adding)
    ensures RunFrom(s0, es) == Some(s') && es == es0 + [SubAdd(i), SubSpawn(i), SubUnlock(i)] && Sub(s', i, Sending)
    ensures s'.counter == s.counter + 1 && s'.starts == s.starts + One(s.counter == 0)
    ensures s'.wg == s.wg + 1 && s'.workers == s.workers + [Selecting]
    ensures s'.lock.Nobody? && s'.closing == s.closing && s'.max == s.max && s'.ctxDone == s.ctxDone
    ensures s'.closes == s.closes
  {
    Adds(s, i);
    es, s' := Then(s0, es0, s, SubAdd(i));
    es, s' := SpawnsAndUnlocks(s0, es, s', i);
  }

  // A submission starts a worker again.
  lemma StartAgain(s0: State, es0: seq<Event>, s: State) returns (es: seq<Event>, s': State)
    requires RunFrom(s0, es0) == Some(s) && Drained(s)
    ensures RunFrom(s0, es) == Some(s') && s'.counter == 1 && s'.lock.Nobody? && s'.closing && s'.max == s.max
    ensures s'.ctxDone == s.ctxDone
    ensures s'.closes == s.closes && |s'.workers| == |s.workers| + 1 && s'.workers[|s.workers|] == Selecting
  {
    WrapInRange(1);
    es, s' := FindsRoom(s0, es0, s);
    es, s' := StartsWorker(s0, es, s', |s.subs|);
  }

  // The worker's timer fires and it is told to go.
  lemma ToldToGo(s0: State, es0: seq<Event>, s: State, w: nat) returns (es: seq<Event>, s': State)
    requires RunFrom(s0, es0) == Some(s) && !Crashed(s)
    requires s.counter == 1 && s.lock.Nobody? && s.closing && Wrk(s, w, Selecting)
    ensures RunFrom(s0, es) == Some(s') && s'.counter == 1 && s'.closing && s'.max == s.max && s'.closes == s.closes
    ensures s'.ctxDone == s.ctxDone
    ensures Wrk(s', w, Retiring) && |s'.workers| == |s.workers|
  {
    es, s' := Then(s0, es0, s, Tick(w));
    es, s' := Then(s0, es, s', GcLock(w));
    es, s' := Then(s0, es, s', GcCheck(w));
  }

  lemma LastOneRetires(s: State, w: nat)
    requires !Crashed(s) && s.counter == 1 && Wrk(s, w, Retiring)
    ensures Step(s, GcRetire(w)) == SetWrk(s, w, Closing).(counter := 0)
  {
  }

  // As the last one it closes closeCh.
  lemma LastOneCloses(s0: State, es0: seq<Event>, s: State, w: nat) returns (es: seq<Event>, s': State)
    requires RunFrom(s0, es0) == Some(s) && !Crashed(s) && s.counter == 1 && Wrk(s, w, Retiring)
    ensures RunFrom(s0, es) == Some(s') && s'.counter == 0 && s'.closing == s.closing && s'.max == s.max
    ensures s'.ctxDone == s.ctxDone
    ensures s'.closes == s.closes + 1 && Wrk(s', w, Releasing(true)) && |s'.workers| == |s.workers|
  {
    LastOneRetires(s, w);
    es, s' := Then(s0, es0, s, GcRetire(w));
    es, s' := Then(s0, es, s', GcClose(w));
  }

  lemma DrainAgain(s0: State, es0: seq<Event>, s: State, w: nat) returns (es: seq<Event>, s': State)
    requires RunFrom(s0, es0) == Some(s) && !Crashed(s)
    requires s.counter == 1 && s.lock.Nobody? && s.closing && Wrk(s, w, Selecting)
    ensures RunFrom(s0, es) == Some(s') && s'.counter == 0 && s'.closing && s'.max == s.max
    ensures s'.ctxDone == s.ctxDone
    ensures s'.closes == s.closes + 1 && Wrk(s', w, Releasing(true))
  {
    es, s' := ToldToGo(s0, es0, s, w);
    es, s' := LastOneCloses(s0, es, s', w);
  }

  // A pool that starts once more crashes when it drains.
  lemma StartAndDrain(s0: State, es0: seq<Event>, s: State) returns (es: seq<Event>, s': State, w: nat)
    requires RunFrom(s0, es0) == Some(s) && Drained(s)
    ensures RunFrom(s0, es) == Some(s') && s'.counter == 0 && s'.closing && s'.max == s.max
    ensures s'.ctxDone == s.ctxDone
    ensures s'.closes == s.closes + 1 && Wrk(s', w, Releasing(true))
  {
    es, s' := StartAgain(s0, es0, s);
    w := |s.workers|;
    es, s' := DrainAgain(s0, es, s', w);
  }

  /** The bound on closes is exact: whatever the minimum, a pool asked to close, drained, started again
      by a submission and drained once more closes closeCh twice and crashes. */
  lemma RestartAfterDrainCrashes(min: int, max: int)
    requires max >= 1
    ensures exists es :: Run(min, max, es).Some? && Crashed(Run(min, max, es).value) && Alive(Run(min, max, es).value)
  {
    var s0 := New(min, max);
    var es, s := Then(s0, [], s0, WaitClose);
    var w: nat;
    es, s, w := StartAndDrain(s0, es, s);
    es, s := Then(s0, es, s, GcUnlock(w));
    es, s, w := StartAndDrain(s0, es, s);
    assert Run(min, max, es) == Some(s);
  }

  // ------------------------------------------------------------------------------------------
  // The largest limit.

  // `n` submissions start `n` workers.
  lemma {:induction false} ManyWorkers(min: int, max: int, n: nat) returns (es: seq<Event>, s: State)
    requires n <= max <= MAX_INT32
    ensures Run(min, max, es) == Some(s)
    ensures s.counter == n && s.max == max && s.lock.Nobody? && s.closes == 0
  {
    if n == 0 {
      es, s := [], New(min, max);
    } else {
      es, s := ManyWorkers(min, max, n - 1);
      var i := |s.subs|;
      WrapInRange(n);
      es, s := FindsRoom(New(min, max), es, s);
      es, s := StartsWorker(New(min, max), es, s, i);
    }
  }

  lemma CounterWraps(min: int) returns (es: seq<Event>)
    ensures Run(min, MAX_INT32, es).Some? && Run(min, MAX_INT32, es).value.counter < 0
  {
    var s: State;
    es, s := ManyWorkers(min, MAX_INT32, MAX_INT32);
    var i := |s.subs|;
    assert Wrap32(MAX_INT32 + 1) == -0x8000_0000;
    es, s := FindsRoom(New(min, MAX_INT32), es, s);
    es, s := Then(New(min, MAX_INT32), es, s, SubAdd(i));
  }

  /** The counter stays in its bounds in every interleaving if and only if the maximum is not the largest
      32-bit integer: with that maximum the test in Apply wraps around and always finds room. */
  lemma CounterBoundExact(min: int, max: int)
    requires max <= MAX_INT32
    ensures (forall es :: Run(min, max, es).Some? ==>
              0 <= Run(min, max, es).value.counter <= if max > 0 then max else 0) <==> max < MAX_INT32
  {
    if max < MAX_INT32 {
      forall es | Run(min, max, es).Some?
        ensures 0 <= Run(min, max, es).value.counter <= if max > 0 then max else 0
      {
        CounterIsWorkers(min, max, es);
      }
    } else {
      var es := CounterWraps(min);
    }
  }
}
