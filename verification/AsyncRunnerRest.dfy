/** Where the worker pool comes to rest: what growing, collecting, cancelling and closing lead to, in every
    schedule. */
module AsyncRunnerRest {
  import opened Counting
  import opened AsyncRunner
  import opened AsyncRunnerProofs
  import opened AsyncRunnerTheorems

  /** The program itself has nothing left to do: only timers, submissions or requests can move it. */
  ghost predicate AtRest(s: State) { !Crashed(s) && forall e :: Progress(e) ==> !Enabled(s, e) }

  lemma RestLockFree(s: State)
    requires LockOk(s.lock, s.workers, s.subs) && AtRest(s)
    ensures s.lock.Nobody?
  {
    if !s.lock.Nobody? {
      var e := OwnerStep(s);
      assert false;
    }
  }

  // At rest a worker waits in its select, or is gone.
  lemma RestWorker(s: State, w: nat)
    requires LockOk(s.lock, s.workers, s.subs) && AtRest(s) && w < |s.workers|
    ensures s.workers[w].Selecting? || s.workers[w].Gone?
    ensures s.ctxDone ==> s.workers[w].Gone?
  {
    RestLockFree(s);
    assert !s.workers[w].HasLock();
    assert !Enabled(s, Finish(w)) && !Enabled(s, GcLock(w)) && !Enabled(s, CancelRetire(w));
    assert !Enabled(s, WorkerDone(w)) && !Enabled(s, SeeCancel(w));
  }

  // At rest a submitter has been served, or is blocked in its send with no worker left to take it.
  lemma RestSubmitter(s: State, i: Task)
    requires LockOk(s.lock, s.workers, s.subs) && AtRest(s) && i < |s.subs|
    ensures s.subs[i].Handed? || (s.subs[i].Sending? && forall w :: 0 <= w < |s.workers| ==> s.workers[w].Gone?)
  {
    RestLockFree(s);
    assert !s.subs[i].HasLock();
    assert !Enabled(s, Default(i)) && !Enabled(s, SubLock(i));
    if s.subs[i].Sending? {
      forall w | 0 <= w < |s.workers|
        ensures s.workers[w].Gone?
      {
        RestWorker(s, w);
        assert !Enabled(s, Hand(i, w));
      }
    }
  }

  lemma RestCounts(s: State)
    requires Inv(s) && AtRest(s)
    ensures BeingBorn(s) == 0 && CloseDue(s) == 0
    ensures s.ctxDone || s.closes > 0 ==> !s.monitor
  {
    RestLockFree(s);
    assert !Enabled(s, MonitorDone);
    if BeingBorn(s) > 0 {
      var i := SumWitness(s.subs, SPAWNING);
      RestSubmitter(s, i);
      assert false;
    }
  }

  lemma {:induction false} AllGone(workers: seq<Worker>)
    requires forall w :: 0 <= w < |workers| ==> workers[w].Gone?
    ensures Sum(workers, UNFINISHED) == 0 && Sum(workers, COUNTED) == 0
  {
    if workers != [] {
      AllGone(workers[..|workers| - 1]);
    }
  }

  /** Every schedule with `n` timer ticks is no longer than the measure plus five times `n`. */
  lemma {:induction false} ScheduleBounded(s: State, es: seq<Event>)
    requires RunFrom(s, es).Some? && forall e :: e in es ==> Inside(e)
    ensures |es| + Measure(RunFrom(s, es).value) <= Measure(s) + 5 * Ticks(es)
  {
    if es != [] {
      var n := |es| - 1;
      var r := RunFrom(s, es[..n]).value;
      ScheduleBounded(s, es[..n]);
      StepBounded(r, es[n]);
    }
  }

  lemma StepBounded(s: State, e: Event)
    requires Enabled(s, e) && Inside(e)
    ensures 1 + Measure(Step(s, e)) <= Measure(s) + 5 * One(e.Tick?)
  {
    if e.Tick? {
      TickAdds(s, e.w);
    } else {
      ProgressDecreases(s, e);
    }
  }

  lemma CancelledAtRest(s: State)
    requires Inv(s) && s.ctxDone && AtRest(s)
    ensures s.wg == 0 && forall w :: 0 <= w < |s.workers| ==> s.workers[w].Gone?
  {
    forall w | 0 <= w < |s.workers|
      ensures s.workers[w].Gone?
    {
      RestWorker(s, w);
    }
    AllGone(s.workers);
    RestCounts(s);
  }

  /** Cancelling the context stops the pool, in whatever state it is. Without new submissions every schedule
      after that is bounded, and where the pool comes to rest every worker has exited and the wait group is
      zero, so Wait returns. */
  lemma CancelledPoolStops(s: State, es: seq<Event>)
    requires Inv(s) && !Crashed(s) && forall e :: e in es ==> Inside(e)
    ensures Enabled(s, Cancel)
    ensures RunFrom(Step(s, Cancel), es).Some? ==>
              var t := RunFrom(Step(s, Cancel), es).value;
              && |es| + Measure(t) <= Measure(s) + 5 * Ticks(es)
              && (AtRest(t) ==> t.wg == 0 && forall w :: 0 <= w < |t.workers| ==> t.workers[w].Gone?)
  {
    var c := Step(s, Cancel);
    if RunFrom(c, es).Some? {
      InvStep(s, Cancel);
      ScheduleBounded(c, es);
      InvFrom(c, es);
      StaysCancelled(c, es);
      if AtRest(RunFrom(c, es).value) {
        CancelledAtRest(RunFrom(c, es).value);
      }
    }
  }

  lemma {:induction false} StaysCancelled(s: State, es: seq<Event>)
    requires s.ctxDone && RunFrom(s, es).Some?
    ensures RunFrom(s, es).value.ctxDone
  {
    if es != [] {
      StaysCancelled(s, es[..|es| - 1]);
      CancelStays(RunFrom(s, es[..|es| - 1]).value, es[|es| - 1]);
    }
  }

  lemma CancelStays(s: State, e: Event)
    requires Enabled(s, e) && s.ctxDone
    ensures Step(s, e).ctxDone
  {
  }

  // ------------------------------------------------------------------------------------------
  // Growing.

  lemma GrowRun(s: State, i: Task) returns (t: State)
    requires Enabled(s, SubLook(i)) && 0 <= s.counter < s.max && s.counter < MAX_INT32
    ensures RunFrom(s, [SubLook(i), SubAdd(i), SubSpawn(i), SubUnlock(i)]) == Some(t)
    ensures t.counter == s.counter + 1 && t.workers == s.workers + [Selecting] && t.wg == s.wg + 1
    ensures Sub(t, i, Sending) && t.lock.Nobody?
  {
    LookFindsRoom(s, i);
    var es: seq<Event>;
    es, t := Then(s, [], s, SubLook(i));
    es, t := StartsWorker(s, es, t, i);
    assert es == [SubLook(i), SubAdd(i), SubSpawn(i), SubUnlock(i)];
  }

  /** A submitter that has the lock starts a worker if and only if fewer than the maximum are counted, and
      then exactly one; in either case it goes on to its send. */
  lemma GrowsWhileThereIsRoom(s: State, i: Task)
    requires Inv(s) && NoWrap(s) && Enabled(s, SubLook(i))
    ensures if s.counter < s.max
            then exists t :: RunFrom(s, [SubLook(i), SubAdd(i), SubSpawn(i), SubUnlock(i)]) == Some(t)
                             && Grown(s, t, i)
            else exists t :: RunFrom(s, [SubLook(i), SubUnlock(i)]) == Some(t) && Kept(s, t, i)
  {
    if s.counter < s.max {
      var t := GrowRun(s, i);
      assert Grown(s, t, i);
    } else {
      WrapInRange(s.counter + 1);
      StayRun(s, i);
      assert Kept(s, s.(subs := s.subs[i := Sending], lock := Nobody), i);
    }
  }

  predicate Grown(s: State, t: State, i: Task) {
    && t.counter == s.counter + 1 && t.workers == s.workers + [Selecting] && t.wg == s.wg + 1
    && Sub(t, i, Sending) && t.lock.Nobody?
  }

  predicate Kept(s: State, t: State, i: Task) {
    && t.counter == s.counter && t.workers == s.workers && t.wg == s.wg
    && Sub(t, i, Sending) && t.lock.Nobody?
  }

  lemma StayRun(s: State, i: Task)
    requires Enabled(s, SubLook(i)) && Wrap32(s.counter + 1) > s.max
    ensures RunFrom(s, [SubLook(i), SubUnlock(i)]) ==
            Some(s.(subs := s.subs[i := Sending], lock := Nobody))
  {
    var es, t := Then(s, [], s, SubLook(i));
    es, t := Then(s, es, t, SubUnlock(i));
    assert es == [SubLook(i), SubUnlock(i)];
    assert s.subs[i := Unlocking][i := Sending] == s.subs[i := Sending];
  }

  // ------------------------------------------------------------------------------------------
  // Collecting.

  lemma RunFromStep(s: State, es: seq<Event>, e: Event)
    ensures RunFrom(s, es + [e]) ==
            match RunFrom(s, es)
            case None => None
            case Some(r) => if Enabled(r, e) then Some(Step(r, e)) else None
  {
    assert (es + [e])[..|es|] == es;
  }

  // The worker's timer fires, and under the lock it is told to go or to stay.
  function Told(s: State): Worker { if s.counter > s.min || s.closing then Retiring else Releasing(false) }

  lemma GetsLock(s: State, w: nat)
    requires !Crashed(s) && s.lock.Nobody? && Wrk(s, w, Selecting)
    ensures RunFrom(s, [Tick(w), GcLock(w)]) == Some(s.(lock := ByWorker(w), workers := s.workers[w := Checking]))
  {
    RunFromStep(s, [], Tick(w));
    RunFromStep(s, [Tick(w)], GcLock(w));
    assert [] + [Tick(w)] == [Tick(w)] && [Tick(w)] + [GcLock(w)] == [Tick(w), GcLock(w)];
    assert s.workers[w := Ticked][w := Checking] == s.workers[w := Checking];
  }

  lemma IsTold(s: State, w: nat)
    requires !Crashed(s) && s.lock.Nobody? && Wrk(s, w, Selecting)
    ensures RunFrom(s, [Tick(w), GcLock(w), GcCheck(w)]) ==
            Some(s.(lock := ByWorker(w), workers := s.workers[w := Told(s)]))
  {
    GetsLock(s, w);
    RunFromStep(s, [Tick(w), GcLock(w)], GcCheck(w));
    assert [Tick(w), GcLock(w)] + [GcCheck(w)] == [Tick(w), GcLock(w), GcCheck(w)];
    assert s.workers[w := Checking][w := Told(s)] == s.workers[w := Told(s)];
  }

  /** One collection, undisturbed: the worker whose timer fired stays if and only if no more than the minimum
      are counted and the pool is not closing. */
  lemma CollectionKeepsIff(s: State, w: nat)
    requires !Crashed(s) && s.lock.Nobody? && Wrk(s, w, Selecting)
    ensures RunFrom(s, [Tick(w), GcLock(w), GcCheck(w), GcUnlock(w)]).Some? <==> s.counter <= s.min && !s.closing
  {
    var told := [Tick(w), GcLock(w), GcCheck(w)];
    IsTold(s, w);
    RunFromStep(s, told, GcUnlock(w));
    assert told + [GcUnlock(w)] == [Tick(w), GcLock(w), GcCheck(w), GcUnlock(w)];
  }

  /** Otherwise it leaves, the counter is one lower, and if it was the last it goes on to close closeCh. */
  lemma CollectionShrinks(s: State, w: nat)
    requires Inv(s) && NoWrap(s) && !Crashed(s) && s.lock.Nobody? && Wrk(s, w, Selecting)
    requires s.counter > s.min || s.closing
    ensures var left := RunFrom(s, [Tick(w), GcLock(w), GcCheck(w), GcRetire(w)]);
            && left.Some? && left.value.counter == s.counter - 1
            && Wrk(left.value, w, if s.counter == 1 then Closing else Releasing(true))
  {
    SumAtLeast(s.workers, w, COUNTED);
    IsTold(s, w);
    RetireRun(s, w);
  }

  lemma Retires(s: State, w: nat)
    requires !Crashed(s) && 0 < s.counter <= MAX_INT32 && Wrk(s, w, Retiring)
    ensures Enabled(s, GcRetire(w))
    ensures Step(s, GcRetire(w)).counter == s.counter - 1
    ensures Wrk(Step(s, GcRetire(w)), w, if s.counter == 1 then Closing else Releasing(true))
  {
    WrapInRange(s.counter - 1);
  }

  lemma RetireRun(s: State, w: nat)
    requires w < |s.workers| && 0 < s.counter <= MAX_INT32 && !Crashed(s)
    requires RunFrom(s, [Tick(w), GcLock(w), GcCheck(w)]) ==
             Some(s.(lock := ByWorker(w), workers := s.workers[w := Retiring]))
    ensures var left := RunFrom(s, [Tick(w), GcLock(w), GcCheck(w), GcRetire(w)]);
            && left.Some? && left.value.counter == s.counter - 1
            && Wrk(left.value, w, if s.counter == 1 then Closing else Releasing(true))
  {
    var told := [Tick(w), GcLock(w), GcCheck(w)];
    Retires(s.(lock := ByWorker(w), workers := s.workers[w := Retiring]), w);
    RunFromStep(s, told, GcRetire(w));
    assert told + [GcRetire(w)] == [Tick(w), GcLock(w), GcCheck(w), GcRetire(w)];
  }

  // On its way out, for good.
  predicate Going(p: Worker) {
    p.Retiring? || p.Closing? || p == Releasing(true) || p.Cancelling? || p.Exiting? || p.Gone?
  }

  // A worker whose timer fired is about to ask, is going, or is kept by a pool at its minimum.
  predicate Settled(s: State, w: nat) {
    w < |s.workers| &&
    var p := s.workers[w];
    p.Ticked? || p.Checking? || Going(p) || (!s.closing && s.counter <= s.min)
  }

  predicate AllServed(s: State) { forall i :: 0 <= i < |s.subs| ==> s.subs[i].Handed? }

  lemma SettingsStay(s: State, e: Event)
    requires Enabled(s, e) && Inside(e) && !e.SubAdd?
    ensures Step(s, e).closing == s.closing && Step(s, e).min == s.min && Step(s, e).starts == s.starts
    ensures Step(s, e).ctxDone == s.ctxDone
  {
  }

  // With nobody waiting no worker is added.
  lemma ServedPoolOnlyShrinks(s: State, e: Event)
    requires Inv(s) && NoWrap(s) && AllServed(s) && Enabled(s, e) && Inside(e)
    ensures AllServed(Step(s, e)) && Step(s, e).counter <= s.counter && |Step(s, e).workers| == |s.workers|
    ensures Step(s, e).closing == s.closing && Step(s, e).min == s.min && Step(s, e).starts == s.starts
    ensures Step(s, e).ctxDone == s.ctxDone
    ensures e.GcRetire? || e.CancelRetire? || Step(s, e).counter == s.counter
  {
    if e.GcRetire? || e.CancelRetire? {
      RetiringShrinks(s, e);
    }
    SettingsStay(s, e);
  }

  lemma RetiringShrinks(s: State, e: Event)
    requires Inv(s) && NoWrap(s) && Enabled(s, e) && (e.GcRetire? || e.CancelRetire?)
    ensures Step(s, e).counter == s.counter - 1 && Step(s, e).subs == s.subs
  {
    SumAtLeast(s.workers, e.w, COUNTED);
    WrapInRange(s.counter - 1);
  }

  lemma SettledStays(s: State, e: Event, w: nat)
    requires Inv(s) && NoWrap(s) && AllServed(s) && Enabled(s, e) && Inside(e)
    requires Settled(s, w) || e == Tick(w)
    ensures Settled(Step(s, e), w)
  {
    ServedPoolOnlyShrinks(s, e);
    WorkerOrder(s, e, w);
  }

  // A worker's way through a collection.
  lemma WorkerOrder(s: State, e: Event, w: nat)
    requires Enabled(s, e) && w < |s.workers|
    ensures w < |Step(s, e).workers|
    ensures InOrder(s, e, s.workers[w], Step(s, e).workers[w], w)
  {
    if GcEvent(e) {
      WorkerOrderGc(s, e, w);
    }
  }

  predicate InOrder(s: State, e: Event, p: Worker, q: Worker, w: nat) {
    && (Going(p) ==> Going(q))
    && (p.Ticked? ==> q.Ticked? || q.Checking?)
    && (p.Checking? ==> q.Checking? || q.Retiring? || (!s.closing && s.counter <= s.min))
    && (e == Tick(w) ==> q.Ticked?)
  }

  lemma WorkerOrderGc(s: State, e: Event, w: nat)
    requires Enabled(s, e) && GcEvent(e) && w < |s.workers|
    ensures w < |Step(s, e).workers|
    ensures InOrder(s, e, s.workers[w], Step(s, e).workers[w], w)
  {
  }

  predicate HasTicked(es: seq<Event>, w: nat) { Tick(w) in es }

  // What a served pool keeps from `s` to `t`, if `es` happened in between.
  ghost predicate Shrunk(s: State, t: State, es: seq<Event>) {
    && AllServed(t)
    && t.closing == s.closing && t.min == s.min && t.starts == s.starts && t.ctxDone == s.ctxDone
    && forall w :: HasTicked(es, w) ==> Settled(t, w)
  }

  lemma ShrunkStep(s: State, t: State, es: seq<Event>, e: Event)
    requires Inv(t) && NoWrap(t) && Shrunk(s, t, es) && Enabled(t, e) && Inside(e)
    ensures Shrunk(s, Step(t, e), es + [e])
  {
    ServedPoolOnlyShrinks(t, e);
    forall w | HasTicked(es + [e], w)
      ensures Settled(Step(t, e), w)
    {
      SettledStays(t, e, w);
    }
  }

  lemma {:induction false} TickedAreSettled(s: State, es: seq<Event>)
    requires Inv(s) && NoWrap(s) && AllServed(s) && RunFrom(s, es).Some? && forall e :: e in es ==> Inside(e)
    ensures Shrunk(s, RunFrom(s, es).value, es)
  {
    if es != [] {
      var front, e := es[..|es| - 1], es[|es| - 1];
      assert es == front + [e];
      TickedAreSettled(s, front);
      InvFrom(s, front);
      ShrunkStep(s, RunFrom(s, front).value, front, e);
    }
  }

  /** An idle pool shrinks to its minimum, and a closing one to nothing. In every schedule after all
      submissions are served, once it comes to rest and the timer of every worker still there has fired,
      no more than the minimum are left, or nobody at all. */
  lemma IdlePoolShrinks(s: State, es: seq<Event>)
    requires Inv(s) && NoWrap(s) && AllServed(s) && RunFrom(s, es).Some? && forall e :: e in es ==> Inside(e)
    requires var t := RunFrom(s, es).value;
             && AtRest(t)
             && forall w :: 0 <= w < |t.workers| && !t.workers[w].Gone? ==> HasTicked(es, w)
    ensures var t := RunFrom(s, es).value;
            if s.closing then t.counter == 0 else t.counter == 0 || t.counter <= s.min
  {
    TickedAreSettled(s, es);
    InvFrom(s, es);
    var t := RunFrom(s, es).value;
    RestCounts(t);
    if w :| 0 <= w < |t.workers| && !t.workers[w].Gone? {
      RestWorker(t, w);
      assert Settled(t, w);
    } else {
      AllGone(t.workers);
    }
  }

  /** WaitClose returns from a pool that ever had a worker, and from no other: a closing pool whose remaining
      workers' timers have fired comes to rest with the wait group at zero if and only if a worker was ever
      started or the context is done. */
  lemma ClosingPoolLetsWaitReturn(s: State, es: seq<Event>)
    requires Inv(s) && NoWrap(s) && s.closing && AllServed(s)
    requires RunFrom(s, es).Some? && forall e :: e in es ==> Inside(e)
    requires var t := RunFrom(s, es).value;
             && AtRest(t)
             && forall w :: 0 <= w < |t.workers| && !t.workers[w].Gone? ==> HasTicked(es, w)
    ensures RunFrom(s, es).value.wg == 0 <==> s.starts > 0 || s.ctxDone
  {
    IdlePoolShrinks(s, es);
    TickedAreSettled(s, es);
    InvFrom(s, es);
    var t := RunFrom(s, es).value;
    RestCounts(t);
    forall w | 0 <= w < |t.workers|
      ensures t.workers[w].Gone?
    {
      RestWorker(t, w);
      if t.workers[w].Selecting? {
        SumAtLeast(t.workers, w, COUNTED);
      }
    }
    AllGone(t.workers);
  }
}
