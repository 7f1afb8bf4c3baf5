/** The elastic worker pool of funcs.go as a state machine over its atomic steps: submitters in Apply,
    workers in spawn's loop, the monitor started by NewAsyncRunner, and whoever cancels the context or
    asks for the pool to close. */
module AsyncRunner {
  import opened Counting

  // The wait group and the counter live outside Go's type system here; the counter is an int32.
  const MAX_INT32: int := 0x7fff_ffff

  // What an int32 holds after it was moved by one to `n`.
  function Wrap32(n: int): int {
    if n > MAX_INT32 then n - 0x1_0000_0000 else if n < -0x8000_0000 then n + 0x1_0000_0000 else n
  }

  /** A submitted task is known by the number of the Apply call that submitted it. */
  type Task = nat

  datatype Worker =
    | Selecting              // in the select, or about to enter it
    | Running(task: Task)
    | Ticked                 // the timer fired; before a.Lock
    | Checking               // in the collection function, with the lock; before the test
    | Retiring               // the test said to go; before the decrement
    | Closing                // the decrement reached zero; before close(closeCh)
    | Releasing(exit: bool)  // before the deferred a.Unlock
    | Cancelling             // saw the context done; before the decrement
    | Exiting                // returned; before the deferred wg.Done
    | Gone
  {
    predicate HasLock() { Checking? || Retiring? || Closing? || Releasing? }

    // Still counted: has not taken itself out of the counter.
    predicate Counted() {
      Selecting? || Running? || Ticked? || Checking? || Retiring? || Cancelling? || this == Releasing(false)
    }
  }

  datatype Submitter =
    | Trying                 // in Apply's select
    | WantLock               // took the default case
    | Looking                // with the lock; before the counter is loaded
    | Adding                 // found room; before the increment
    | Spawning               // before wg.Add and go
    | Unlocking              // before a.Unlock
    | Sending                // in the blocking send
    | Handed                 // a worker took the task
  {
    predicate HasLock() { Looking? || Adding? || Spawning? || Unlocking? }
  }

  datatype Owner = Nobody | ByWorker(w: nat) | BySubmitter(i: Task)

  datatype State = State(
    min: int,
    max: int,
    counter: int,
    lock: Owner,
    wg: int,
    monitor: bool,          // the monitor goroutine has not called wg.Done
    ctxDone: bool,
    closing: bool,          // the field `close`, set by WaitClose
    workers: seq<Worker>,
    subs: seq<Submitter>,
    done: multiset<Task>,   // tasks whose function has returned
    closes: nat,            // executions of close(closeCh)
    starts: nat)            // increments of the counter from zero to one

  /** closeCh was closed twice: the second close panics, and nothing recovers it. */
  predicate Crashed(s: State) { s.closes >= 2 }

  function New(min: int, max: int): State {
    State(min, max, 0, Nobody, 1, true, false, false, [], [], multiset{}, 0, 0)
  }

  datatype Event =
    | Submit
    | Hand(i: Task, w: nat)
    | Default(i: Task)
    | SubLock(i: Task)
    | SubLook(i: Task)
    | SubAdd(i: Task)
    | SubSpawn(i: Task)
    | SubUnlock(i: Task)
    | Finish(w: nat)
    | Tick(w: nat)
    | GcLock(w: nat)
    | GcCheck(w: nat)
    | GcRetire(w: nat)
    | GcClose(w: nat)
    | GcUnlock(w: nat)
    | SeeCancel(w: nat)
    | CancelRetire(w: nat)
    | WorkerDone(w: nat)
    | MonitorDone
    | WaitClose
    | Cancel

  predicate Sub(s: State, i: Task, p: Submitter) { i < |s.subs| && s.subs[i] == p }

  predicate Wrk(s: State, w: nat, p: Worker) { w < |s.workers| && s.workers[w] == p }

  /** A step the program can take; no step follows a crash. */
  predicate Enabled(s: State, e: Event) {
    !Crashed(s) &&
    match e
    case Submit => true
    case Hand(i, w) => (Sub(s, i, Trying) || Sub(s, i, Sending)) && Wrk(s, w, Selecting)
    case Default(i) => Sub(s, i, Trying)
    case SubLock(i) => Sub(s, i, WantLock) && s.lock.Nobody?
    case SubLook(i) => Sub(s, i, Looking)
    case SubAdd(i) => Sub(s, i, Adding)
    case SubSpawn(i) => Sub(s, i, Spawning)
    case SubUnlock(i) => Sub(s, i, Unlocking)
    case Finish(w) => w < |s.workers| && s.workers[w].Running?
    case Tick(w) => Wrk(s, w, Selecting)
    case GcLock(w) => Wrk(s, w, Ticked) && s.lock.Nobody?
    case GcCheck(w) => Wrk(s, w, Checking)
    case GcRetire(w) => Wrk(s, w, Retiring)
    case GcClose(w) => Wrk(s, w, Closing)
    case GcUnlock(w) => w < |s.workers| && s.workers[w].Releasing?
    case SeeCancel(w) => Wrk(s, w, Selecting) && s.ctxDone
    case CancelRetire(w) => Wrk(s, w, Cancelling)
    case WorkerDone(w) => Wrk(s, w, Exiting)
    case MonitorDone => s.monitor && (s.ctxDone || s.closes > 0)
    case WaitClose => true
    case Cancel => true
  }

  function SetSub(s: State, i: Task, p: Submitter): State
    requires i < |s.subs|
  {
    s.(subs := s.subs[i := p])
  }

  function SetWrk(s: State, w: nat, p: Worker): State
    requires w < |s.workers|
  {
    s.(workers := s.workers[w := p])
  }

  function Step(s: State, e: Event): State
    requires Enabled(s, e)
  {
    match e
    case Submit => s.(subs := s.subs + [Trying])
    case Hand(i, w) => SetWrk(SetSub(s, i, Handed), w, Running(i))
    case Default(i) => SetSub(s, i, WantLock)
    case SubLock(i) => SetSub(s, i, Looking).(lock := BySubmitter(i))
    case SubLook(i) => SetSub(s, i, if Wrap32(s.counter + 1) <= s.max then Adding else Unlocking)
    case SubAdd(i) =>
      SetSub(s, i, Spawning).(
        counter := Wrap32(s.counter + 1),
        starts := if s.counter == 0 then s.starts + 1 else s.starts)
    case SubSpawn(i) => SetSub(s, i, Unlocking).(wg := s.wg + 1, workers := s.workers + [Selecting])
    case SubUnlock(i) => SetSub(s, i, Sending).(lock := Nobody)
    case Finish(w) => SetWrk(s, w, Selecting).(done := s.done + multiset{s.workers[w].task})
    case Tick(w) => SetWrk(s, w, Ticked)
    case GcLock(w) => SetWrk(s, w, Checking).(lock := ByWorker(w))
    case GcCheck(w) => SetWrk(s, w, if s.counter > s.min || s.closing then Retiring else Releasing(false))
    case GcRetire(w) =>
      SetWrk(s, w, if Wrap32(s.counter - 1) == 0 then Closing else Releasing(true)).(counter := Wrap32(s.counter - 1))
    case GcClose(w) => SetWrk(s, w, Releasing(true)).(closes := s.closes + 1)
    case GcUnlock(w) => SetWrk(s, w, if s.workers[w].exit then Exiting else Selecting).(lock := Nobody)
    case SeeCancel(w) => SetWrk(s, w, Cancelling)
    case CancelRetire(w) => SetWrk(s, w, Exiting).(counter := Wrap32(s.counter - 1))
    case WorkerDone(w) => SetWrk(s, w, Gone).(wg := s.wg - 1)
    case MonitorDone => s.(monitor := false, wg := s.wg - 1)
    case WaitClose => s.(closing := true)
    case Cancel => s.(ctxDone := true)
  }

  /** The state after an interleaving, from any starting state; `None` if a step was not enabled. */
  function RunFrom(s: State, es: seq<Event>): Option<State> {
    if es == [] then Some(s)
    else
      match RunFrom(s, es[..|es| - 1])
      case None => None
      case Some(r) => if Enabled(r, es[|es| - 1]) then Some(Step(r, es[|es| - 1])) else None
  }

  function Run(min: int, max: int, es: seq<Event>): Option<State> { RunFrom(New(min, max), es) }

  // ------------------------------------------------------------------------------------------
  // What is counted.

  const COUNTED: Worker -> nat := (w: Worker) => if w.Counted() then 1 else 0
  const UNFINISHED: Worker -> nat := (w: Worker) => if w.Gone? then 0 else 1
  const SPAWNING: Submitter -> nat := (p: Submitter) => if p.Spawning? then 1 else 0

  function RunningOf(i: Task): Worker -> nat { (w: Worker) => if w == Running(i) then 1 else 0 }

  // Workers that have not taken themselves out of the counter.
  function Unretired(s: State): nat { Sum(s.workers, COUNTED) }

  // 1 while a submitter has incremented the counter and not yet started the goroutine.
  function BeingBorn(s: State): nat { Sum(s.subs, SPAWNING) }

  function Goroutines(s: State): nat { Sum(s.workers, UNFINISHED) }

  function RunningCount(s: State, i: Task): nat { Sum(s.workers, RunningOf(i)) }

  predicate Pending(s: State, i: Task) { i < |s.subs| && !s.subs[i].Handed? }

  // 1 between the decrement to zero and the close it leads to.
  function CloseDue(s: State): nat {
    if s.lock.ByWorker? && Wrk(s, s.lock.w, Closing) then 1 else 0
  }
}
