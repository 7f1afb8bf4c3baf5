/** What every interleaving of submitters, workers and the monitor keeps. */
module AsyncRunnerProofs {
  import opened Counting
  import opened AsyncRunner

  // ------------------------------------------------------------------------------------------
  // The mutex.

  ghost predicate LockOk(lock: Owner, workers: seq<Worker>, subs: seq<Submitter>) {
    && (forall w :: 0 <= w < |workers| ==> (workers[w].HasLock() <==> lock == ByWorker(w)))
    && (forall i :: 0 <= i < |subs| ==> (subs[i].HasLock() <==> lock == BySubmitter(i)))
    && (lock.ByWorker? ==> lock.w < |workers|)
    && (lock.BySubmitter? ==> lock.i < |subs|)
  }

  predicate SubEvent(e: Event) {
    e.Submit? || e.Default? || e.SubLock? || e.SubLook? || e.SubAdd? || e.SubUnlock?
  }

  // Taking the mutex and giving it back.
  lemma LockSubMutex(s: State, e: Event)
    requires Enabled(s, e) && (e.SubLock? || e.SubUnlock?) && LockOk(s.lock, s.workers, s.subs)
    ensures LockOk(Step(s, e).lock, Step(s, e).workers, Step(s, e).subs)
  {
  }

  lemma LockSub(s: State, e: Event)
    requires Enabled(s, e) && SubEvent(e) && LockOk(s.lock, s.workers, s.subs)
    ensures LockOk(Step(s, e).lock, Step(s, e).workers, Step(s, e).subs)
  {
    if e.SubLock? || e.SubUnlock? {
      LockSubMutex(s, e);
    } else {
      LockSubKept(s, e);
    }
  }

  lemma LockSubKept(s: State, e: Event)
    requires Enabled(s, e) && SubEvent(e) && !e.SubLock? && !e.SubUnlock? && LockOk(s.lock, s.workers, s.subs)
    ensures LockOk(Step(s, e).lock, Step(s, e).workers, Step(s, e).subs)
  {
  }

  lemma LockBoth(s: State, e: Event)
    requires Enabled(s, e) && (e.Hand? || e.SubSpawn?) && LockOk(s.lock, s.workers, s.subs)
    ensures LockOk(Step(s, e).lock, Step(s, e).workers, Step(s, e).subs)
  {
  }

  // The lock-holding steps of a worker.
  predicate GcEvent(e: Event) { e.GcLock? || e.GcCheck? || e.GcRetire? || e.GcClose? || e.GcUnlock? }

  lemma LockGc(s: State, e: Event)
    requires Enabled(s, e) && GcEvent(e) && LockOk(s.lock, s.workers, s.subs)
    ensures LockOk(Step(s, e).lock, Step(s, e).workers, Step(s, e).subs)
  {
  }

  lemma LockOther(s: State, e: Event)
    requires Enabled(s, e) && LockOk(s.lock, s.workers, s.subs)
    requires !SubEvent(e) && !e.Hand? && !e.SubSpawn? && !GcEvent(e)
    ensures LockOk(Step(s, e).lock, Step(s, e).workers, Step(s, e).subs)
  {
  }

  lemma LockStep(s: State, e: Event)
    requires Enabled(s, e) && LockOk(s.lock, s.workers, s.subs)
    ensures LockOk(Step(s, e).lock, Step(s, e).workers, Step(s, e).subs)
  {
    if SubEvent(e) {
      LockSub(s, e);
    } else if e.Hand? || e.SubSpawn? {
      LockBoth(s, e);
    } else if GcEvent(e) {
      LockGc(s, e);
    } else {
      LockOther(s, e);
    }
  }

  // ------------------------------------------------------------------------------------------
  // The counter, the wait group and the tasks.

  ghost predicate CountOk(s: State) { s.counter == Unretired(s) + BeingBorn(s) }

  ghost predicate GroupOk(s: State) { s.wg == (if s.monitor then 1 else 0) + Goroutines(s) }

  /** The one limit under which the 32-bit counter can wrap around is the largest one. */
  predicate NoWrap(s: State) { s.max < MAX_INT32 }

  function Cap(s: State): nat { if s.max > 0 then s.max else 0 }

  ghost predicate BoundOk(s: State) {
    && 0 <= s.counter <= Cap(s)
    && (forall i :: 0 <= i < |s.subs| && s.subs[i].Adding? ==> s.counter + 1 <= s.max)
  }

  // A task that was handed over is running once or has run once, and any other not at all.
  ghost predicate TasksOk(workers: seq<Worker>, done: multiset<Task>, subs: seq<Submitter>) {
    forall i: Task :: Sum(workers, RunningOf(i)) + done[i] == if i < |subs| && subs[i].Handed? then 1 else 0
  }

  // What a step does to one worker.
  lemma WorkerSums(s: State, w: nat, p: Worker)
    requires w < |s.workers|
    ensures Sum(s.workers[w := p], COUNTED) + COUNTED(s.workers[w]) == Sum(s.workers, COUNTED) + COUNTED(p)
    ensures COUNTED(s.workers[w]) <= Sum(s.workers, COUNTED)
  {
    SumUpdate(s.workers, w, p, COUNTED);
    SumAtLeast(s.workers, w, COUNTED);
  }

  lemma WrapInRange(n: int)
    requires -0x8000_0000 <= n <= MAX_INT32
    ensures Wrap32(n) == n
  {
  }

  lemma CountSub(s: State, e: Event)
    requires Enabled(s, e) && SubEvent(e) && CountOk(s) && BoundOk(s) && NoWrap(s)
    ensures CountOk(Step(s, e))
  {
    if e.Submit? {
      SumAppend(s.subs, Trying, SPAWNING);
    } else {
      WrapInRange(s.counter + 1);
      SumUpdate(s.subs, e.i, Step(s, e).subs[e.i], SPAWNING);
    }
  }

  lemma CountHand(s: State, i: Task, w: nat)
    requires Enabled(s, Hand(i, w)) && CountOk(s)
    ensures CountOk(Step(s, Hand(i, w)))
  {
    SumUpdate(s.subs, i, Handed, SPAWNING);
    WorkerSums(s, w, Running(i));
  }

  lemma CountSpawn(s: State, i: Task)
    requires Enabled(s, SubSpawn(i)) && CountOk(s)
    ensures CountOk(Step(s, SubSpawn(i)))
  {
    SumUpdate(s.subs, i, Unlocking, SPAWNING);
    SumAppend(s.workers, Selecting, COUNTED);
  }

  predicate World(e: Event) { e.MonitorDone? || e.WaitClose? || e.Cancel? }

  lemma CountWorker(s: State, e: Event)
    requires Enabled(s, e) && !SubEvent(e) && !e.Hand? && !e.SubSpawn? && !World(e)
    requires CountOk(s) && BoundOk(s) && NoWrap(s)
    ensures CountOk(Step(s, e))
  {
    WorkerSums(s, e.w, Step(s, e).workers[e.w]);
    WrapInRange(s.counter - 1);
  }

  // A worker's step keeps the wait group, except the deferred Done.
  lemma GroupWorker(s: State, e: Event)
    requires Enabled(s, e) && GroupOk(s) && !SubEvent(e) && !World(e) && !e.SubSpawn?
    ensures GroupOk(Step(s, e))
  {
    SumUpdate(s.workers, e.w, Step(s, e).workers[e.w], UNFINISHED);
  }

  lemma GroupStep(s: State, e: Event)
    requires Enabled(s, e) && GroupOk(s)
    ensures GroupOk(Step(s, e))
  {
    if e.SubSpawn? {
      SumAppend(s.workers, Selecting, UNFINISHED);
    } else if !SubEvent(e) && !World(e) {
      GroupWorker(s, e);
    }
  }

  lemma BoundSub(s: State, e: Event)
    requires Enabled(s, e) && (SubEvent(e) || e.Hand? || e.SubSpawn?)
    requires BoundOk(s) && NoWrap(s) && LockOk(s.lock, s.workers, s.subs)
    ensures BoundOk(Step(s, e))
  {
  }

  lemma BoundWorker(s: State, e: Event)
    requires Enabled(s, e) && !(SubEvent(e) || e.Hand? || e.SubSpawn?)
    requires BoundOk(s) && NoWrap(s) && CountOk(s)
    ensures BoundOk(Step(s, e))
  {
    if e.GcRetire? || e.CancelRetire? {
      WorkerSums(s, e.w, Exiting);
    }
  }

  lemma BoundStep(s: State, e: Event)
    requires Enabled(s, e) && BoundOk(s) && NoWrap(s) && LockOk(s.lock, s.workers, s.subs) && CountOk(s)
    ensures BoundOk(Step(s, e))
  {
    if SubEvent(e) || e.Hand? || e.SubSpawn? {
      BoundSub(s, e);
    } else {
      BoundWorker(s, e);
    }
  }

  lemma TasksSpawn(workers: seq<Worker>, done: multiset<Task>, subs: seq<Submitter>, subs': seq<Submitter>)
    requires TasksOk(workers, done, subs) && |subs| == |subs'|
    requires forall i :: 0 <= i < |subs| ==> (subs[i].Handed? <==> subs'[i].Handed?)
    ensures TasksOk(workers + [Selecting], done, subs')
  {
    forall i: Task
      ensures Sum(workers + [Selecting], RunningOf(i)) == Sum(workers, RunningOf(i))
    {
      SumAppend(workers, Selecting, RunningOf(i));
    }
  }

  // A worker takes up task `i`, finishes it, or does neither.
  lemma TasksMove(workers: seq<Worker>, done: multiset<Task>, subs: seq<Submitter>, w: nat, p: Worker,
                  done': multiset<Task>, subs': seq<Submitter>)
    requires TasksOk(workers, done, subs) && w < |workers|
    requires forall i: Task ::
               RunningOf(i)(p) + done'[i] + (if i < |subs| && subs[i].Handed? then 1 else 0)
               == RunningOf(i)(workers[w]) + done[i] + (if i < |subs'| && subs'[i].Handed? then 1 else 0)
    ensures TasksOk(workers[w := p], done', subs')
  {
    forall i: Task
      ensures Sum(workers[w := p], RunningOf(i)) + done'[i] == if i < |subs'| && subs'[i].Handed? then 1 else 0
    {
      SumUpdate(workers, w, p, RunningOf(i));
    }
  }

  lemma TasksSubs(workers: seq<Worker>, done: multiset<Task>, subs: seq<Submitter>, subs': seq<Submitter>)
    requires TasksOk(workers, done, subs) && |subs| <= |subs'|
    requires forall i :: 0 <= i < |subs'| ==> (subs'[i].Handed? <==> i < |subs| && subs[i].Handed?)
    ensures TasksOk(workers, done, subs')
  {
  }

  lemma TasksWorld(s: State, e: Event)
    requires Enabled(s, e) && TasksOk(s.workers, s.done, s.subs) && World(e)
    ensures TasksOk(Step(s, e).workers, Step(s, e).done, Step(s, e).subs)
  {
  }

  lemma TasksSub(s: State, e: Event)
    requires Enabled(s, e) && TasksOk(s.workers, s.done, s.subs) && SubEvent(e)
    ensures TasksOk(Step(s, e).workers, Step(s, e).done, Step(s, e).subs)
  {
    TasksSubs(s.workers, s.done, s.subs, Step(s, e).subs);
  }

  lemma TasksHand(s: State, i: Task, w: nat)
    requires Enabled(s, Hand(i, w)) && TasksOk(s.workers, s.done, s.subs)
    ensures TasksOk(Step(s, Hand(i, w)).workers, Step(s, Hand(i, w)).done, Step(s, Hand(i, w)).subs)
  {
    TasksMove(s.workers, s.done, s.subs, w, Running(i), s.done, s.subs[i := Handed]);
  }

  lemma TasksFinish(s: State, w: nat)
    requires Enabled(s, Finish(w)) && TasksOk(s.workers, s.done, s.subs)
    ensures TasksOk(Step(s, Finish(w)).workers, Step(s, Finish(w)).done, Step(s, Finish(w)).subs)
  {
    TasksMove(s.workers, s.done, s.subs, w, Selecting, s.done + multiset{s.workers[w].task}, s.subs);
  }

  // A worker that is not running moves on without a task.
  lemma OtherWithoutTask(s: State, e: Event)
    requires Enabled(s, e)
    requires !SubEvent(e) && !World(e) && !e.SubSpawn? && !e.Hand? && !e.Finish?
    ensures e.w < |s.workers| == |Step(s, e).workers|
    ensures !s.workers[e.w].Running? && !Step(s, e).workers[e.w].Running?
    ensures Step(s, e).workers == s.workers[e.w := Step(s, e).workers[e.w]]
    ensures Step(s, e).done == s.done && Step(s, e).subs == s.subs
  {
  }

  lemma TasksOther(s: State, e: Event)
    requires Enabled(s, e) && TasksOk(s.workers, s.done, s.subs)
    requires !SubEvent(e) && !World(e) && !e.SubSpawn? && !e.Hand? && !e.Finish?
    ensures TasksOk(Step(s, e).workers, Step(s, e).done, Step(s, e).subs)
  {
    OtherWithoutTask(s, e);
    TasksMove(s.workers, s.done, s.subs, e.w, Step(s, e).workers[e.w], s.done, s.subs);
  }

  lemma TasksStep(s: State, e: Event)
    requires Enabled(s, e) && TasksOk(s.workers, s.done, s.subs)
    ensures TasksOk(Step(s, e).workers, Step(s, e).done, Step(s, e).subs)
  {
    if SubEvent(e) {
      TasksSub(s, e);
    } else if World(e) {
      TasksWorld(s, e);
    } else if e.SubSpawn? {
      TasksSpawn(s.workers, s.done, s.subs, Step(s, e).subs);
    } else if e.Hand? {
      TasksHand(s, e.i, e.w);
    } else if e.Finish? {
      TasksFinish(s, e.w);
    } else {
      TasksOther(s, e);
    }
  }

  // ------------------------------------------------------------------------------------------
  // Starts and closes.

  predicate Alive(s: State) { !s.ctxDone }

  /** Every close follows its own start; while the context is alive the difference is exactly whether
      workers are live. */
  ghost predicate ClosesOk(s: State) {
    var live := if s.counter > 0 then 1 else 0;
    && s.closes + CloseDue(s) + live <= s.starts
    && (Alive(s) ==> s.closes + CloseDue(s) + live == s.starts)
    && (Alive(s) ==> forall w :: 0 <= w < |s.workers| ==> !s.workers[w].Cancelling?)
  }

  lemma ClosesAdd(s: State, i: Task)
    requires Enabled(s, SubAdd(i)) && ClosesOk(s) && BoundOk(s) && NoWrap(s) && LockOk(s.lock, s.workers, s.subs)
    ensures ClosesOk(Step(s, SubAdd(i)))
  {
    WrapInRange(s.counter + 1);
  }

  // These leave the counter, the starts and the closes alone.
  lemma ClosesSub(s: State, e: Event)
    requires Enabled(s, e) && ((SubEvent(e) && !e.SubAdd?) || e.SubSpawn?)
    requires ClosesOk(s) && LockOk(s.lock, s.workers, s.subs)
    ensures ClosesOk(Step(s, e))
  {
  }

  lemma ClosesWorld(s: State, e: Event)
    requires Enabled(s, e) && (World(e) || e.Hand?)
    requires ClosesOk(s) && LockOk(s.lock, s.workers, s.subs)
    ensures ClosesOk(Step(s, e))
  {
  }

  lemma ClosesRetire(s: State, e: Event)
    requires Enabled(s, e) && (e.GcRetire? || e.CancelRetire?)
    requires ClosesOk(s) && BoundOk(s) && NoWrap(s) && LockOk(s.lock, s.workers, s.subs) && CountOk(s)
    ensures ClosesOk(Step(s, e))
  {
    SumAtLeast(s.workers, e.w, COUNTED);
    WrapInRange(s.counter - 1);
  }

  lemma ClosesWorker(s: State, e: Event)
    requires Enabled(s, e) && !(SubEvent(e) || e.SubSpawn? || World(e) || e.Hand? || e.GcRetire? || e.CancelRetire?)
    requires ClosesOk(s) && LockOk(s.lock, s.workers, s.subs)
    ensures ClosesOk(Step(s, e))
  {
  }

  // ------------------------------------------------------------------------------------------
  // A pool with a positive minimum that nobody closes or cancels.

  predicate Open(s: State) { s.min >= 1 && s.max >= 1 && !s.closing && !s.ctxDone }

  ghost predicate MinOk(s: State) {
    s.min >= 1 && !s.closing && !s.ctxDone ==>
      && s.closes == 0
      && (forall w :: 0 <= w < |s.workers| && s.workers[w].Retiring? ==> s.counter > s.min)
      && (forall w :: 0 <= w < |s.workers| ==> !s.workers[w].Closing?)
  }

  // Live, and not told to go.
  const STAYS: Worker -> nat := (w: Worker) => if w.Counted() && !w.Retiring? && !w.Cancelling? then 1 else 0

  // Past the look at the counter, without having been served.
  predicate Waits(p: Submitter) { p.Unlocking? || p.Sending? }

  // A submitter that waits has a live worker to wait for.
  ghost predicate StayOk(workers: seq<Worker>, subs: seq<Submitter>) {
    forall i :: 0 <= i < |subs| && Waits(subs[i]) ==> Sum(workers, STAYS) >= 1
  }

  lemma MinRetire(s: State, w: nat)
    requires Enabled(s, GcRetire(w)) && MinOk(s) && LockOk(s.lock, s.workers, s.subs)
    requires BoundOk(s) && NoWrap(s)
    ensures MinOk(Step(s, GcRetire(w)))
  {
    WrapInRange(s.counter - 1);
  }

  // A live pool has nobody cancelling, and an open one nobody closing.
  lemma MinWorker(s: State, e: Event)
    requires Enabled(s, e) && MinOk(s) && (e.GcLock? || e.GcCheck? || e.GcUnlock? || e.GcClose? || e.CancelRetire?)
    requires ClosesOk(s)
    ensures MinOk(Step(s, e))
  {
  }

  lemma OthersCollectNothing(s: State, e: Event)
    requires Enabled(s, e) && !GcEvent(e) && !e.CancelRetire? && BoundOk(s) && NoWrap(s)
    ensures var s' := Step(s, e);
            && s'.closes == s.closes && s'.counter >= s.counter && s'.min == s.min
            && (s.closing ==> s'.closing) && (s.ctxDone ==> s'.ctxDone)
            && forall w :: 0 <= w < |s'.workers| && (s'.workers[w].Retiring? || s'.workers[w].Closing?) ==>
                             w < |s.workers| && s.workers[w] == s'.workers[w]
  {
    WrapInRange(s.counter + 1);
  }

  lemma MinOther(s: State, e: Event)
    requires Enabled(s, e) && MinOk(s) && !GcEvent(e) && !e.CancelRetire? && BoundOk(s) && NoWrap(s)
    ensures MinOk(Step(s, e))
  {
    OthersCollectNothing(s, e);
  }

  lemma MinStep(s: State, e: Event)
    requires Enabled(s, e) && MinOk(s)
    requires BoundOk(s) && NoWrap(s) && LockOk(s.lock, s.workers, s.subs) && ClosesOk(s)
    ensures MinOk(Step(s, e))
  {
    if e.GcRetire? {
      MinRetire(s, e.w);
    } else if GcEvent(e) || e.CancelRetire? {
      MinWorker(s, e);
    } else {
      MinOther(s, e);
    }
  }

  // ------------------------------------------------------------------------------------------
  // Somebody stays for those who wait.

  // When nobody is leaving and nobody is being started, all the counter counts are there to stay.
  lemma {:induction false} AllStay(s: State)
    requires CountOk(s)
    requires forall w :: 0 <= w < |s.workers| ==> !s.workers[w].Retiring? && !s.workers[w].Cancelling?
    requires forall i :: 0 <= i < |s.subs| ==> !s.subs[i].Spawning?
    ensures Sum(s.workers, STAYS) >= s.counter
  {
    SumMonotone(s.workers, COUNTED, STAYS);
    if BeingBorn(s) > 0 {
      var i := SumWitness(s.subs, SPAWNING);
      assert false;
    }
  }

  lemma StayLook(s: State, i: Task)
    requires Enabled(s, SubLook(i)) && Open(s) && StayOk(s.workers, s.subs)
    requires LockOk(s.lock, s.workers, s.subs) && CountOk(s) && BoundOk(s) && NoWrap(s) && ClosesOk(s)
    ensures StayOk(s.workers, Step(s, SubLook(i)).subs)
  {
    WrapInRange(s.counter + 1);
    if s.counter >= 1 {
      AllStay(s);
    }
  }

  lemma StayCheck(s: State, w: nat)
    requires Enabled(s, GcCheck(w)) && Open(s) && StayOk(s.workers, s.subs)
    requires LockOk(s.lock, s.workers, s.subs) && CountOk(s) && ClosesOk(s)
    ensures StayOk(Step(s, GcCheck(w)).workers, s.subs)
  {
    AllStay(s);
    SumUpdate(s.workers, w, Step(s, GcCheck(w)).workers[w], STAYS);
  }

  lemma StaySub(s: State, e: Event)
    requires Enabled(s, e) && SubEvent(e) && !e.SubLook? && StayOk(s.workers, s.subs)
    ensures StayOk(Step(s, e).workers, Step(s, e).subs)
  {
    if e.SubUnlock? {
      assert Waits(s.subs[e.i]);
    }
  }

  lemma StayHand(s: State, i: Task, w: nat)
    requires Enabled(s, Hand(i, w)) && StayOk(s.workers, s.subs)
    ensures StayOk(Step(s, Hand(i, w)).workers, Step(s, Hand(i, w)).subs)
  {
    SumUpdate(s.workers, w, Running(i), STAYS);
  }

  // The other steps of a worker take nobody away from those who stay.
  lemma StayWorker(s: State, e: Event)
    requires Enabled(s, e) && Open(s) && StayOk(s.workers, s.subs) && ClosesOk(s)
    requires !SubEvent(e) && !World(e) && !e.SubSpawn? && !e.Hand? && !e.GcCheck?
    ensures StayOk(Step(s, e).workers, Step(s, e).subs)
  {
    SumUpdate(s.workers, e.w, Step(s, e).workers[e.w], STAYS);
  }

  lemma StayStep(s: State, e: Event)
    requires Enabled(s, e) && Open(s) && StayOk(s.workers, s.subs)
    requires LockOk(s.lock, s.workers, s.subs) && CountOk(s) && BoundOk(s) && NoWrap(s) && ClosesOk(s)
    ensures StayOk(Step(s, e).workers, Step(s, e).subs)
  {
    if e.SubLook? {
      StayLook(s, e.i);
    } else if SubEvent(e) {
      StaySub(s, e);
    } else if e.SubSpawn? {
      SumAppend(s.workers, Selecting, STAYS);
    } else if e.Hand? {
      StayHand(s, e.i, e.w);
    } else if e.GcCheck? {
      StayCheck(s, e.w);
    } else if !World(e) {
      StayWorker(s, e);
    }
  }

  lemma NothingReopens(s: State, e: Event)
    requires Enabled(s, e)
    ensures Open(Step(s, e)) ==> Open(s)
  {
  }

  ghost predicate MonitorOk(s: State) { !s.monitor ==> s.ctxDone || s.closes > 0 }

  // What rests on a counter that does not wrap around.
  ghost predicate Counts(s: State) {
    && CountOk(s)
    && BoundOk(s)
    && ClosesOk(s)
    && MinOk(s)
    && (Open(s) ==> StayOk(s.workers, s.subs))
  }

  ghost predicate Inv(s: State) {
    && LockOk(s.lock, s.workers, s.subs)
    && GroupOk(s)
    && TasksOk(s.workers, s.done, s.subs)
    && MonitorOk(s)
    && (NoWrap(s) ==> Counts(s))
  }

  lemma CountStep(s: State, e: Event)
    requires Enabled(s, e) && CountOk(s) && BoundOk(s) && NoWrap(s)
    ensures CountOk(Step(s, e))
  {
    if SubEvent(e) {
      CountSub(s, e);
    } else if e.Hand? {
      CountHand(s, e.i, e.w);
    } else if e.SubSpawn? {
      CountSpawn(s, e.i);
    } else if !World(e) {
      CountWorker(s, e);
    }
  }

  lemma ClosesStep(s: State, e: Event)
    requires Enabled(s, e)
    requires ClosesOk(s) && BoundOk(s) && NoWrap(s) && LockOk(s.lock, s.workers, s.subs) && CountOk(s)
    ensures ClosesOk(Step(s, e))
  {
    if e.SubAdd? {
      ClosesAdd(s, e.i);
    } else if SubEvent(e) || e.SubSpawn? {
      ClosesSub(s, e);
    } else if World(e) || e.Hand? {
      ClosesWorld(s, e);
    } else if e.GcRetire? || e.CancelRetire? {
      ClosesRetire(s, e);
    } else {
      ClosesWorker(s, e);
    }
  }

  lemma MonitorStep(s: State, e: Event)
    requires Enabled(s, e) && MonitorOk(s)
    ensures MonitorOk(Step(s, e)) && Step(s, e).min == s.min && Step(s, e).max == s.max
  {
  }

  lemma CountsStep(s: State, e: Event)
    requires Enabled(s, e) && NoWrap(s) && Counts(s) && LockOk(s.lock, s.workers, s.subs)
    ensures Counts(Step(s, e))
  {
    CountStep(s, e);
    BoundStep(s, e);
    ClosesStep(s, e);
    MinStep(s, e);
    NothingReopens(s, e);
    if Open(s) {
      StayStep(s, e);
    }
  }

  lemma InvStep(s: State, e: Event)
    requires Enabled(s, e) && Inv(s)
    ensures Inv(Step(s, e)) && Step(s, e).min == s.min && Step(s, e).max == s.max
  {
    LockStep(s, e);
    GroupStep(s, e);
    TasksStep(s, e);
    MonitorStep(s, e);
    if NoWrap(s) {
      CountsStep(s, e);
    }
  }

  lemma {:induction false} InvFrom(s: State, es: seq<Event>)
    requires Inv(s) && RunFrom(s, es).Some?
    ensures Inv(RunFrom(s, es).value)
    ensures RunFrom(s, es).value.min == s.min && RunFrom(s, es).value.max == s.max
  {
    if es != [] {
      var n := |es| - 1;
      InvFrom(s, es[..n]);
      InvStep(RunFrom(s, es[..n]).value, es[n]);
    }
  }

  lemma InvRun(min: int, max: int, es: seq<Event>)
    requires Run(min, max, es).Some?
    ensures Inv(Run(min, max, es).value)
    ensures Run(min, max, es).value.min == min && Run(min, max, es).value.max == max
  {
    InvFrom(New(min, max), es);
  }
}
