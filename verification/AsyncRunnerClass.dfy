/** The worker pool as funcs.go writes it: an object whose counter, lock, wait group and flag the
    goroutines change, with the other goroutines moving between any two of those actions. A panic of
    one goroutine ends them all. */
module AsyncRunnerClass {
  import opened Counting
  import opened AR = AsyncRunner
  import opened AsyncRunnerProofs
  import opened AsyncRunnerTheorems

  function WorkerOf(e: Event): Option<nat> {
    match e
    case Hand(_, w) => Some(w)
    case Finish(w) => Some(w)
    case Tick(w) => Some(w)
    case GcLock(w) => Some(w)
    case GcCheck(w) => Some(w)
    case GcRetire(w) => Some(w)
    case GcClose(w) => Some(w)
    case GcUnlock(w) => Some(w)
    case SeeCancel(w) => Some(w)
    case CancelRetire(w) => Some(w)
    case WorkerDone(w) => Some(w)
    case _ => None
  }

  function SubmitterOf(e: Event): Option<nat> {
    match e
    case Hand(i, _) => Some(i)
    case Default(i) => Some(i)
    case SubLock(i) => Some(i)
    case SubLook(i) => Some(i)
    case SubAdd(i) => Some(i)
    case SubSpawn(i) => Some(i)
    case SubUnlock(i) => Some(i)
    case _ => None
  }

  // An action of goroutine `who`; a hand-off is an action of two.
  predicate By(e: Event, who: Owner) {
    match who
    case Nobody => false
    case ByWorker(w) => WorkerOf(e) == Some(w)
    case BySubmitter(i) => SubmitterOf(e) == Some(i)
  }

  predicate Stays(s: State, t: State, who: Owner) {
    match who
    case Nobody => true
    case ByWorker(w) => w < |s.workers| ==> Wrk(t, w, s.workers[w])
    case BySubmitter(i) => i < |s.subs| ==> Sub(t, i, s.subs[i])
  }

  /** The actions of goroutine `who`, in order. */
  function Mine(es: seq<Event>, who: Owner): seq<Event> {
    if es == [] then [] else Mine(es[..|es| - 1], who) + if By(es[|es| - 1], who) then [es[|es| - 1]] else []
  }

  lemma MineAppend(es: seq<Event>, e: Event, who: Owner)
    ensures Mine(es + [e], who) == Mine(es, who) + if By(e, who) then [e] else []
  {
    assert (es + [e])[..|es|] == es;
  }

  predicate IsSending(p: Submitter) { p.Trying? || p.Sending? }

  predicate NobodySends(subs: seq<Submitter>) { forall i :: 0 <= i < |subs| ==> !IsSending(subs[i]) }

  predicate NobodySelects(workers: seq<Worker>) { forall w :: 0 <= w < |workers| ==> workers[w] != Selecting }

  // At point `k` submitter `i` leaves Apply's select: by its send, or by the default if no worker was seen.
  predicate LeftAt(min: int, max: int, trace: seq<Event>, i: nat, ready: bool, k: nat) {
    && k < |trace|
    && var s := Run(min, max, trace[..k]);
    && s.Some? && Sub(s.value, i, Trying)
    && ((trace[k].Hand? && trace[k].i == i) || (trace[k] == Default(i) && (!ready || NobodySelects(s.value.workers))))
  }

  ghost predicate LeftSelect(min: int, max: int, trace: seq<Event>, i: nat, ready: bool) {
    exists k :: LeftAt(min, max, trace, i, ready, k)
  }

  lemma LeftSelectStays(min: int, max: int, trace0: seq<Event>, trace: seq<Event>, i: nat, ready: bool)
    requires trace0 <= trace && LeftSelect(min, max, trace0, i, ready)
    ensures LeftSelect(min, max, trace, i, ready)
  {
    var k: nat :| LeftAt(min, max, trace0, i, ready, k);
    assert trace[..k] == trace0[..k];
    assert LeftAt(min, max, trace, i, ready, k);
  }

  // At point `k` a worker's collection read the counter and the flag.
  predicate ReadAt(min: int, max: int, trace: seq<Event>, w: nat, counter: int, closing: bool, k: nat) {
    && k < |trace| && trace[k] == GcCheck(w)
    && var s := Run(min, max, trace[..k]);
    s.Some? && s.value.counter == counter && s.value.closing == closing
  }

  // Since `from` worker `w` has read this counter and this flag in its collection.
  ghost predicate HasRead(min: int, max: int, from: seq<Event>, trace: seq<Event>, w: nat, counter: int,
                          closing: bool) {
    exists k :: |from| <= k && ReadAt(min, max, trace, w, counter, closing, k)
  }

  lemma HasReadStays(min: int, max: int, from0: seq<Event>, from: seq<Event>, trace0: seq<Event>, trace: seq<Event>,
                     w: nat, counter: int, closing: bool)
    requires trace0 <= trace && from0 <= from && HasRead(min, max, from, trace0, w, counter, closing)
    ensures HasRead(min, max, from0, trace, w, counter, closing)
  {
    var k: nat :| |from| <= k && ReadAt(min, max, trace0, w, counter, closing, k);
    assert trace[..k] == trace0[..k];
    assert ReadAt(min, max, trace, w, counter, closing, k);
  }

  // ------------------------------------------------------------------------------------------
  // What a worker does in one pass through its select.

  predicate ServePass(p: seq<Event>, w: nat) { |p| == 2 && p[0].Hand? && p[0].w == w && p[1] == Finish(w) }

  function LeaveSteps(w: nat, zero: bool): seq<Event> { if zero then [GcRetire(w), GcClose(w)] else [GcRetire(w)] }

  // Inside the lock: the test, the rest, the deferred Unlock.
  function CollectSteps(w: nat, rest: seq<Event>): seq<Event> { [GcCheck(w)] + rest + [GcUnlock(w)] }

  function CollectPass(w: nat, rest: seq<Event>): seq<Event> { [Tick(w), GcLock(w)] + CollectSteps(w, rest) }

  // A pass after which the worker goes on: a task from start to end, a collection that kept it, or
  // none of the select's cases yet.
  predicate StayPass(p: seq<Event>, w: nat) { p == [] || ServePass(p, w) || p == CollectPass(w, []) }

  // A pass after which it returns: the cancelled context, or a collection that told it to go and
  // closed closeCh if it was the last.
  predicate ExitPass(p: seq<Event>, w: nat) {
    || p == [SeeCancel(w), CancelRetire(w)]
    || p == CollectPass(w, LeaveSteps(w, false))
    || p == CollectPass(w, LeaveSteps(w, true))
  }

  function Flat(passes: seq<seq<Event>>): seq<Event> {
    if passes == [] then [] else Flat(passes[..|passes| - 1]) + passes[|passes| - 1]
  }

  /** A whole worker: any number of passes that stay, one that exits, and the deferred Done. */
  predicate WholeWorker(passes: seq<seq<Event>>, w: nat) {
    passes != [] && Staying(passes[..|passes| - 1], w) && ExitPass(passes[|passes| - 1], w)
  }

  predicate Staying(passes: seq<seq<Event>>, w: nat) {
    forall k :: 0 <= k < |passes| ==> StayPass(passes[k], w)
  }

  // A worker that had done `before` has since done these passes, the last of them its exit if `exit`,
  // which makes `mine`.
  ghost predicate Passed(w: nat, exit: bool, passes: seq<seq<Event>>, before: seq<Event>, mine: seq<Event>) {
    && (if exit then WholeWorker(passes, w) else Staying(passes, w))
    && mine == before + Flat(passes)
  }

  lemma OneMorePass(w: nat, exit: bool, passes: seq<seq<Event>>, pass: seq<Event>,
                    before: seq<Event>, mine: seq<Event>)
    requires Passed(w, false, passes, before, mine)
    requires if exit then ExitPass(pass, w) else StayPass(pass, w)
    ensures Passed(w, exit, passes + [pass], before, mine + pass)
  {
    assert (passes + [pass])[..|passes|] == passes;
  }

  // Actions of others leave a goroutine where it is.
  lemma OthersLeave(s: State, e: Event, who: Owner)
    requires Enabled(s, e) && !By(e, who)
    ensures Stays(s, Step(s, e), who)
  {
    match who {
      case Nobody =>
      case ByWorker(w) =>
        if w < |s.workers| {
          OthersLeaveWorker(s, e, w);
        }
      case BySubmitter(i) =>
        if i < |s.subs| {
          OthersLeaveSubmitter(s, e, i);
        }
    }
  }

  lemma OthersLeaveWorker(s: State, e: Event, w: nat)
    requires Enabled(s, e) && WorkerOf(e) != Some(w) && w < |s.workers|
    ensures Wrk(Step(s, e), w, s.workers[w])
  {
  }

  lemma OthersLeaveSubmitter(s: State, e: Event, i: nat)
    requires Enabled(s, e) && SubmitterOf(e) != Some(i) && i < |s.subs|
    ensures Sub(Step(s, e), i, s.subs[i])
  {
  }

  /** Where the goroutines are, and what happened so far; the source's object does not hold these. */
  datatype Book = Book(
    monitor: bool,
    ctxDone: bool,
    workers: seq<Worker>,
    subs: seq<Submitter>,
    done: multiset<Task>,
    closes: nat,
    starts: nat)

  class AsyncRunner {
    const min: int
    const max: int
    var counter: int
    var lock: Owner
    var wg: int
    var close: bool
    var book: Book
    ghost var trace: seq<Event>

    function View(): State
      reads this
    {
      State(min, max, counter, lock, wg, book.monitor, book.ctxDone, close, book.workers, book.subs, book.done,
            book.closes, book.starts)
    }

    ghost predicate Valid()
      reads this
    {
      Run(min, max, trace) == Some(View())
    }

    // The process runs, and submitter `i` or worker `w` is at this place.
    ghost predicate SubAt(i: nat, p: Submitter)
      reads this
    {
      Valid() && book.closes < 2 && i < |book.subs| && book.subs[i] == p
    }

    ghost predicate WrkAt(w: nat, p: Worker)
      reads this
    {
      Valid() && book.closes < 2 && w < |book.workers| && book.workers[w] == p
    }

    constructor (min: int, max: int)
      ensures Valid() && trace == [] && this.min == min && this.max == max
    {
      this.min, this.max := min, max;
      counter, lock, wg, close := 0, Nobody, 1, false;
      book := Book(true, false, [], [], multiset{}, 0, 0);
      trace := [];
    }

    ghost method Record(e: Event, s: State)
      requires Run(min, max, trace) == Some(s) && Enabled(s, e) && Step(s, e) == View()
      modifies this`trace
      ensures Valid() && trace == old(trace) + [e]
    {
      RunFromAppend(New(min, max), trace, e);
      trace := trace + [e];
    }

    method Become(s: State)
      requires s.min == min && s.max == max
      modifies this
      ensures View() == s && trace == old(trace)
    {
      counter, lock, wg, close := s.counter, s.lock, s.wg, s.closing;
      book := Book(s.monitor, s.ctxDone, s.workers, s.subs, s.done, s.closes, s.starts);
    }

    method Take(e: Event)
      requires Valid() && Enabled(View(), e)
      modifies this
      ensures Valid() && trace == old(trace) + [e] && View() == Step(old(View()), e)
    {
      ghost var before := View();
      var after := Step(View(), e);
      MonitorKeepsLimits(View(), e);
      Become(after);
      Record(e, before);
    }

    /** The others: any number of actions, none of goroutine `who`; one of them may crash the process. */
    method Others(who: Owner) returns (alive: bool)
      requires Valid()
      modifies this
      ensures Valid() && old(trace) <= trace && Stays(old(View()), View(), who)
      ensures Mine(trace, who) == Mine(old(trace), who)
      ensures alive <==> !Crashed(View())
    {
      var n: nat := *;
      while n > 0
        invariant Valid() && old(trace) <= trace && Stays(old(View()), View(), who)
        invariant Mine(trace, who) == Mine(old(trace), who)
      {
        var e: Event := *;
        if Enabled(View(), e) && !By(e, who) {
          OthersLeave(View(), e, who);
          MineAppend(trace, e, who);
          Take(e);
        }
        n := n - 1;
      }
      alive := book.closes < 2;
    }

    // ----------------------------------------------------------------------------------------
    // The atomic actions of a submitter.

    method Begin() returns (i: nat)
      requires Valid() && !Crashed(View())
      modifies this
      ensures SubAt(i, Trying) && trace == old(trace) + [Submit] && i == old(|book.subs|)
    {
      ghost var s := View();
      i := |book.subs|;
      book := book.(subs := book.subs + [Trying]);
      Record(Submit, s);
    }

    // The unbuffered channel: a worker in its select takes the task of a submitter in its send.
    method Deliver(i: nat, w: nat)
      requires WrkAt(w, Selecting) && (SubAt(i, Trying) || SubAt(i, Sending))
      modifies this
      ensures WrkAt(w, Running(i)) && SubAt(i, Handed) && trace == old(trace) + [Hand(i, w)]
    {
      ghost var s := View();
      book := book.(subs := book.subs[i := Handed], workers := book.workers[w := Running(i)]);
      Record(Hand(i, w), s);
    }

    // The select's default case, when no worker takes the task at once.
    method FallThrough(i: nat)
      requires SubAt(i, Trying)
      modifies this
      ensures SubAt(i, WantLock) && trace == old(trace) + [Default(i)]
    {
      ghost var s := View();
      book := book.(subs := book.subs[i := WantLock]);
      Record(Default(i), s);
    }

    method SubmitterLocks(i: nat)
      requires SubAt(i, WantLock) && lock.Nobody?
      modifies this
      ensures SubAt(i, Looking) && trace == old(trace) + [SubLock(i)]
    {
      ghost var s := View();
      lock := BySubmitter(i);
      book := book.(subs := book.subs[i := Looking]);
      Record(SubLock(i), s);
    }

    method LoadCounter(i: nat) returns (room: bool)
      requires SubAt(i, Looking)
      modifies this
      ensures SubAt(i, if room then Adding else Unlocking) && trace == old(trace) + [SubLook(i)]
    {
      ghost var s := View();
      var tn := Wrap32(counter + 1);
      room := tn <= max;
      book := book.(subs := book.subs[i := if room then Adding else Unlocking]);
      Record(SubLook(i), s);
    }

    method AddCounter(i: nat)
      requires SubAt(i, Adding)
      modifies this
      ensures SubAt(i, AR.Submitter.Spawning) && trace == old(trace) + [SubAdd(i)]
    {
      ghost var s := View();
      book := book.(subs := book.subs[i := AR.Submitter.Spawning],
                    starts := book.starts + if counter == 0 then 1 else 0);
      counter := Wrap32(counter + 1);
      AddEffect(s, i);
      Record(SubAdd(i), s);
    }

    method Spawn(i: nat) returns (w: nat)
      requires SubAt(i, AR.Submitter.Spawning)
      modifies this
      ensures SubAt(i, Unlocking) && WrkAt(w, Selecting) && trace == old(trace) + [SubSpawn(i)]
    {
      ghost var s := View();
      wg := wg + 1;
      w := |book.workers|;
      book := book.(workers := book.workers + [Selecting], subs := book.subs[i := Unlocking]);
      Record(SubSpawn(i), s);
    }

    method SubmitterUnlocks(i: nat)
      requires SubAt(i, Unlocking)
      modifies this
      ensures SubAt(i, Sending) && lock.Nobody? && trace == old(trace) + [SubUnlock(i)]
    {
      ghost var s := View();
      lock := Nobody;
      book := book.(subs := book.subs[i := Sending]);
      Record(SubUnlock(i), s);
    }

    // ----------------------------------------------------------------------------------------
    // The atomic actions of a worker.

    // The task's function returns.
    method Return(w: nat, i: nat)
      requires WrkAt(w, Running(i))
      modifies this
      ensures WrkAt(w, Selecting) && trace == old(trace) + [Finish(w)] && book.done == old(book.done) + multiset{i}
    {
      ghost var s := View();
      book := book.(workers := book.workers[w := Selecting], done := book.done + multiset{i});
      Record(Finish(w), s);
    }

    method TimerFires(w: nat)
      requires WrkAt(w, Selecting)
      modifies this
      ensures WrkAt(w, Ticked) && trace == old(trace) + [Tick(w)]
    {
      ghost var s := View();
      book := book.(workers := book.workers[w := Ticked]);
      Record(Tick(w), s);
    }

    method WorkerLocks(w: nat)
      requires WrkAt(w, Ticked) && lock.Nobody?
      modifies this
      ensures WrkAt(w, Checking) && trace == old(trace) + [GcLock(w)]
    {
      ghost var s := View();
      lock := ByWorker(w);
      book := book.(workers := book.workers[w := Checking]);
      Record(GcLock(w), s);
    }

    method CheckCounter(w: nat) returns (go: bool)
      requires WrkAt(w, Checking)
      modifies this
      ensures WrkAt(w, if go then Retiring else Releasing(false)) && trace == old(trace) + [GcCheck(w)]
      ensures go <==> old(counter) > min || old(close)
    {
      ghost var s := View();
      go := counter > min || close;
      book := book.(workers := book.workers[w := if go then Retiring else Releasing(false)]);
      Record(GcCheck(w), s);
    }

    method SubCounter(w: nat) returns (c: int)
      requires WrkAt(w, Retiring)
      modifies this
      ensures WrkAt(w, if c == 0 then Closing else Releasing(true)) && trace == old(trace) + [GcRetire(w)]
      ensures c == counter == Wrap32(old(counter) - 1)
    {
      ghost var s := View();
      counter := Wrap32(counter - 1);
      c := counter;
      book := book.(workers := book.workers[w := if c == 0 then Closing else Releasing(true)]);
      Record(GcRetire(w), s);
    }

    // close(closeCh); a second close panics.
    method CloseChannel(w: nat) returns (alive: bool)
      requires WrkAt(w, Closing)
      modifies this
      ensures Valid() && trace == old(trace) + [GcClose(w)] && book.closes == old(book.closes) + 1
      ensures alive <==> book.closes == 1
      ensures w < |book.workers| && book.workers[w] == Releasing(true)
    {
      ghost var s := View();
      book := book.(closes := book.closes + 1, workers := book.workers[w := Releasing(true)]);
      Record(GcClose(w), s);
      alive := book.closes < 2;
    }

    method WorkerUnlocks(w: nat, exit: bool)
      requires WrkAt(w, Releasing(exit))
      modifies this
      ensures WrkAt(w, if exit then Exiting else Selecting) && lock.Nobody? && trace == old(trace) + [GcUnlock(w)]
    {
      ghost var s := View();
      lock := Nobody;
      book := book.(workers := book.workers[w := if exit then Exiting else Selecting]);
      Record(GcUnlock(w), s);
    }

    method ContextDone(w: nat)
      requires WrkAt(w, Selecting) && book.ctxDone
      modifies this
      ensures WrkAt(w, Cancelling) && trace == old(trace) + [SeeCancel(w)]
    {
      ghost var s := View();
      book := book.(workers := book.workers[w := Cancelling]);
      Record(SeeCancel(w), s);
    }

    method SubCounterUnlocked(w: nat)
      requires WrkAt(w, Cancelling)
      modifies this
      ensures WrkAt(w, Exiting) && trace == old(trace) + [CancelRetire(w)]
    {
      ghost var s := View();
      counter := Wrap32(counter - 1);
      book := book.(workers := book.workers[w := Exiting]);
      Record(CancelRetire(w), s);
    }

    method GroupDone(w: nat)
      requires WrkAt(w, Exiting)
      modifies this
      ensures WrkAt(w, Gone) && trace == old(trace) + [WorkerDone(w)]
    {
      ghost var s := View();
      wg := wg - 1;
      book := book.(workers := book.workers[w := Gone]);
      Record(WorkerDone(w), s);
    }

    // ----------------------------------------------------------------------------------------
    // The methods of the source. Returning early stands for a call that still waits, or for a process
    // that has crashed.

    method Size() returns (n: int)
      requires Valid()
      ensures n == counter
      ensures max < MAX_INT32 ==>
                n == Unretired(View()) + BeingBorn(View()) && 0 <= n <= if max > 0 then max else 0
    {
      if max < MAX_INT32 {
        CounterIsWorkers(min, max, trace);
      }
      n := counter;
    }

    /** Apply returns when a worker took the task, and the task is then running or done, exactly once, and
        until then neither. `ready` says whether the select sees a worker in its select, should there be
        one. A call that has not returned waits for the lock, or in its send with no worker in its select,
        or the process has crashed. */
    method Apply(ready: bool) returns (i: nat, served: bool)
      requires Valid() && !Crashed(View())
      modifies this
      ensures Valid() && old(trace) + [Submit] <= trace && i == old(|book.subs|) && i < |book.subs|
      ensures RunningCount(View(), i) + book.done[i] == One(book.subs[i].Handed?)
      ensures served <==> book.subs[i].Handed?
      ensures !served ==> Crashed(View()) || CallWaits(i)
      ensures book.subs[i] != Trying ==> LeftSelect(min, max, trace, i, ready)
    {
      i := Begin();
      served := Submitted(i, ready);
      TasksExactlyOnce(min, max, trace, i);
    }

    // The call is blocked: at the mutex, or in its send.
    ghost predicate CallWaits(i: nat)
      requires i < |book.subs|
      reads this
    {
      || (book.subs[i] == WantLock && !lock.Nobody?)
      || (book.subs[i] == Sending && NobodySelects(book.workers))
    }

    method Submitted(i: nat, ready: bool) returns (served: bool)
      requires SubAt(i, Trying)
      modifies this
      ensures Valid() && old(trace) <= trace && i < |book.subs|
      ensures served <==> book.subs[i].Handed?
      ensures !served ==> Crashed(View()) || CallWaits(i)
      ensures book.subs[i] != Trying ==> LeftSelect(min, max, trace, i, ready)
    {
      var alive := Others(BySubmitter(i));
      if !alive {
        return false;
      }
      served := SelectSend(i, ready);
      ghost var left := trace;
      if !served {
        alive := Others(BySubmitter(i));
        if alive && lock.Nobody? {
          SubmitterLocks(i);
          served := GrowAndSend(i);
        }
      }
      LeftSelectStays(min, max, left, trace, i, ready);
    }

    // The select with a default case.
    method SelectSend(i: nat, ready: bool) returns (served: bool)
      requires SubAt(i, Trying)
      modifies this
      ensures old(trace) <= trace && SubAt(i, if served then Handed else WantLock)
      ensures LeftSelect(min, max, trace, i, ready)
    {
      ghost var before := trace;
      served := ready && exists w :: 0 <= w < |book.workers| && book.workers[w] == Selecting;
      if served {
        var w :| 0 <= w < |book.workers| && book.workers[w] == Selecting;
        Deliver(i, w);
      } else {
        FallThrough(i);
      }
      assert trace[..|before|] == before;
      assert LeftAt(min, max, trace, i, ready, |before|);
    }

    // The blocking send succeeds when a worker is in its select.
    method Send(i: nat) returns (served: bool)
      requires SubAt(i, Sending)
      modifies this
      ensures old(trace) <= trace && SubAt(i, if served then Handed else Sending)
      ensures !served ==> NobodySelects(book.workers)
    {
      served := exists w :: 0 <= w < |book.workers| && book.workers[w] == Selecting;
      if served {
        var w :| 0 <= w < |book.workers| && book.workers[w] == Selecting;
        Deliver(i, w);
      }
    }

    method GrowAndSend(i: nat) returns (served: bool)
      requires SubAt(i, Looking)
      modifies this
      ensures Valid() && old(trace) <= trace && i < |book.subs|
      ensures served <==> book.subs[i].Handed?
      ensures !served ==> Crashed(View()) || CallWaits(i)
      ensures book.subs[i] != Trying
    {
      served := false;
      var alive := Grow(i);
      if alive {
        alive := Others(BySubmitter(i));
        if alive {
          served := Send(i);
        }
      }
    }

    /** The critical section of Apply: it never waits, starts a worker if there is room, and unlocks. */
    method Grow(i: nat) returns (alive: bool)
      requires SubAt(i, Looking)
      modifies this
      ensures Valid() && old(trace) <= trace && i < |book.subs|
      ensures if alive then SubAt(i, Sending) && lock.Nobody? else Crashed(View())
      ensures book.subs[i] != Trying && book.subs[i] != Handed
    {
      var room;
      alive, room := LookForRoom(i);
      if alive && room {
        alive := AddWorker(i);
      }
      if alive {
        SubmitterUnlocks(i);
      }
    }

    method LookForRoom(i: nat) returns (alive: bool, room: bool)
      requires SubAt(i, Looking)
      modifies this
      ensures Valid() && old(trace) <= trace && i < |book.subs|
      ensures if alive then SubAt(i, if room then Adding else Unlocking) else Crashed(View())
      ensures book.subs[i] != Trying && book.subs[i] != Handed
    {
      room := false;
      alive := Others(BySubmitter(i));
      if alive {
        room := LoadCounter(i);
        alive := Others(BySubmitter(i));
      }
    }

    method AddWorker(i: nat) returns (alive: bool)
      requires SubAt(i, Adding)
      modifies this
      ensures Valid() && old(trace) <= trace && i < |book.subs|
      ensures if alive then SubAt(i, Unlocking) else Crashed(View())
      ensures book.subs[i] != Trying && book.subs[i] != Handed
    {
      AddCounter(i);
      alive := Others(BySubmitter(i));
      if alive {
        var _ := Spawn(i);
        alive := Others(BySubmitter(i));
      }
    }

    /** A worker's goroutine, for as many passes as `timers` has entries, each saying whether the timer has
        fired by then: it serves tasks, each from start to end, until the context is done or a collection
        tells it to go, and then leaves the wait group. If it has not exited, the process has crashed, or it
        waits for the lock, or all its passes stayed. */
    method Work(w: nat, timers: seq<bool>) returns (exited: bool, ghost passes: seq<seq<Event>>)
      requires WrkAt(w, Selecting)
      modifies this
      ensures Valid() && old(trace) <= trace && w < |book.workers|
      ensures exited ==>
                && book.workers[w].Gone? && WholeWorker(passes, w)
                && Mine(trace, ByWorker(w)) == Mine(old(trace), ByWorker(w)) + Flat(passes) + [WorkerDone(w)]
      ensures !exited ==> Crashed(View()) || AtMutex(w) || StillServing(w, passes, |timers|, old(trace))
    {
      exited, passes := Serve(w, timers);
      if exited {
        exited := Leaves(w);
      }
    }

    ghost predicate StillServing(w: nat, passes: seq<seq<Event>>, n: nat, before: seq<Event>)
      reads this
    {
      && WrkAt(w, Selecting)
      && |passes| == n
      && Passed(w, false, passes, Mine(before, ByWorker(w)), Mine(trace, ByWorker(w)))
    }

    // The loop around the select.
    method Serve(w: nat, timers: seq<bool>) returns (exit: bool, ghost passes: seq<seq<Event>>)
      requires WrkAt(w, Selecting)
      modifies this
      ensures Valid() && old(trace) <= trace && w < |book.workers|
      ensures exit ==> WrkAt(w, Exiting)
      ensures exit ==> Passed(w, true, passes, Mine(old(trace), ByWorker(w)), Mine(trace, ByWorker(w)))
      ensures !exit ==> Crashed(View()) || AtMutex(w) || StillServing(w, passes, |timers|, old(trace))
    {
      ghost var before := Mine(trace, ByWorker(w));
      passes, exit := [], false;
      var n := 0;
      while n < |timers| && !exit
        invariant n <= |timers| && |passes| == n
        invariant old(trace) <= trace && WrkAt(w, if exit then Exiting else Selecting)
        invariant Passed(w, exit, passes, before, Mine(trace, ByWorker(w)))
      {
        var on;
        ghost var pass, upto := [], Mine(trace, ByWorker(w));
        on, exit, pass := Select(w, timers[n]);
        if !on {
          return false, passes;
        }
        OneMorePass(w, exit, passes, pass, before, upto);
        passes := passes + [pass];
        n := n + 1;
      }
    }

    // The deferred Done.
    method Leaves(w: nat) returns (exited: bool)
      requires WrkAt(w, Exiting)
      modifies this
      ensures Valid() && old(trace) <= trace && w < |book.workers|
      ensures exited ==> book.workers[w].Gone?
      ensures exited ==> Mine(trace, ByWorker(w)) == Mine(old(trace), ByWorker(w)) + [WorkerDone(w)]
      ensures !exited ==> Crashed(View())
    {
      exited := Others(ByWorker(w));
      if exited {
        MineAppend(trace, WorkerDone(w), ByWorker(w));
        GroupDone(w);
      }
    }

    /** One pass through the select: one of its ready cases, if there is any. It ends early if the process has
        crashed, or while the lock is taken. `timer` says whether the timer has fired. */
    method Select(w: nat, timer: bool) returns (on: bool, exit: bool, ghost pass: seq<Event>)
      requires WrkAt(w, Selecting)
      modifies this
      ensures Valid() && old(trace) <= trace && w < |book.workers|
      ensures on ==> WrkAt(w, if exit then Exiting else Selecting)
      ensures on ==> Mine(trace, ByWorker(w)) == Mine(old(trace), ByWorker(w)) + pass
      ensures on ==> if exit then ExitPass(pass, w) else StayPass(pass, w)
      ensures on && pass == [] ==> !timer && !book.ctxDone && NobodySends(book.subs)
      ensures !on ==> Crashed(View()) || AtMutex(w)
    {
      exit, pass := false, [];
      on := Others(ByWorker(w));
      if !on {
        return;
      }
      var task := exists i :: 0 <= i < |book.subs| && IsSending(book.subs[i]);
      var ready := (if task then {0} else {}) + (if book.ctxDone then {1} else {}) + (if timer then {2} else {});
      if ready != {} {
        var c :| c in ready;
        if c == 0 {
          on, pass := ServeOne(w);
        } else if c == 1 {
          on, pass := Cancelled(w);
          exit := true;
        } else {
          on, exit, pass := Expired(w);
        }
      }
    }

    // A worker whose timer fired waits for the lock.
    ghost predicate AtMutex(w: nat)
      reads this
    {
      w < |book.workers| && book.workers[w] == Ticked && !lock.Nobody?
    }

    // A task arrives and is run.
    method ServeOne(w: nat) returns (on: bool, ghost pass: seq<Event>)
      requires WrkAt(w, Selecting) && exists i :: 0 <= i < |book.subs| && IsSending(book.subs[i])
      modifies this
      ensures Valid() && old(trace) <= trace && w < |book.workers|
      ensures on ==> WrkAt(w, Selecting) && ServePass(pass, w)
      ensures on ==> Mine(trace, ByWorker(w)) == Mine(old(trace), ByWorker(w)) + pass
      ensures !on ==> Crashed(View())
    {
      var i :| 0 <= i < |book.subs| && IsSending(book.subs[i]);
      pass := [Hand(i, w), Finish(w)];
      MineAppend(trace, Hand(i, w), ByWorker(w));
      Deliver(i, w);
      on := RunTask(w, i);
    }

    method RunTask(w: nat, i: nat) returns (on: bool)
      requires WrkAt(w, Running(i))
      modifies this
      ensures Valid() && old(trace) <= trace && w < |book.workers|
      ensures on ==> WrkAt(w, Selecting)
      ensures on ==> Mine(trace, ByWorker(w)) == Mine(old(trace), ByWorker(w)) + [Finish(w)]
      ensures !on ==> Crashed(View())
    {
      on := Others(ByWorker(w));
      if on {
        MineAppend(trace, Finish(w), ByWorker(w));
        Return(w, i);
      }
    }

    method Cancelled(w: nat) returns (on: bool, ghost pass: seq<Event>)
      requires WrkAt(w, Selecting) && book.ctxDone
      modifies this
      ensures Valid() && old(trace) <= trace && w < |book.workers|
      ensures on ==> WrkAt(w, Exiting) && pass == [SeeCancel(w), CancelRetire(w)]
      ensures on ==> Mine(trace, ByWorker(w)) == Mine(old(trace), ByWorker(w)) + pass
      ensures !on ==> Crashed(View())
    {
      pass := [SeeCancel(w), CancelRetire(w)];
      MineAppend(trace, SeeCancel(w), ByWorker(w));
      ContextDone(w);
      on := Others(ByWorker(w));
      if on {
        MineAppend(trace, CancelRetire(w), ByWorker(w));
        SubCounterUnlocked(w);
      }
    }

    method Expired(w: nat) returns (on: bool, exit: bool, ghost pass: seq<Event>)
      requires WrkAt(w, Selecting)
      modifies this
      ensures Valid() && old(trace) <= trace && w < |book.workers|
      ensures on ==> WrkAt(w, if exit then Exiting else Selecting)
      ensures on ==> Mine(trace, ByWorker(w)) == Mine(old(trace), ByWorker(w)) + pass
      ensures on ==> if exit then ExitPass(pass, w) else StayPass(pass, w)
      ensures !on ==> Crashed(View()) || AtMutex(w)
      ensures on ==> pass != []
    {
      exit, pass := false, [];
      on := AskForLock(w);
      if on {
        ghost var read, closing;
        on, exit, pass, read, closing := Collect(w);
        pass := CollectPass(w, pass);
      }
    }

    method AskForLock(w: nat) returns (on: bool)
      requires WrkAt(w, Selecting)
      modifies this
      ensures Valid() && old(trace) <= trace && w < |book.workers|
      ensures on ==> WrkAt(w, Checking)
      ensures on ==> Mine(trace, ByWorker(w)) == Mine(old(trace), ByWorker(w)) + [Tick(w), GcLock(w)]
      ensures !on ==> Crashed(View()) || AtMutex(w)
    {
      MineAppend(trace, Tick(w), ByWorker(w));
      TimerFires(w);
      on := Others(ByWorker(w));
      on := on && lock.Nobody?;
      if on {
        MineAppend(trace, GcLock(w), ByWorker(w));
        WorkerLocks(w);
      }
    }

    /** Idle collection: it never waits. It keeps the worker exactly if the counter it read was no more than
        the minimum and the pool was not closing; else it retires it, and closes closeCh exactly if the
        decrement reached zero. */
    method Collect(w: nat)
      returns (alive: bool, exit: bool, ghost rest: seq<Event>, ghost read: int, ghost closing: bool)
      requires WrkAt(w, Checking)
      modifies this
      ensures Valid() && old(trace) <= trace && w < |book.workers|
      ensures if alive then WrkAt(w, if exit then Exiting else Selecting) && lock.Nobody? else Crashed(View())
      ensures if exit then rest == LeaveSteps(w, false) || rest == LeaveSteps(w, true) else rest == []
      ensures alive ==> Mine(trace, ByWorker(w)) == Mine(old(trace), ByWorker(w)) + CollectSteps(w, rest)
      ensures alive ==> HasRead(min, max, old(trace), trace, w, read, closing) && (exit <==> read > min || closing)
    {
      alive, exit, rest, read, closing := DecideAndLeave(w);
      if alive {
        ghost var before := trace;
        MineAppend(trace, GcUnlock(w), ByWorker(w));
        WorkerUnlocks(w, exit);
        HasReadStays(min, max, old(trace), old(trace), before, trace, w, read, closing);
      }
    }

    method DecideAndLeave(w: nat)
      returns (alive: bool, exit: bool, ghost rest: seq<Event>, ghost read: int, ghost closing: bool)
      requires WrkAt(w, Checking)
      modifies this
      ensures Valid() && old(trace) <= trace && w < |book.workers|
      ensures if alive then WrkAt(w, Releasing(exit)) else Crashed(View())
      ensures if exit then rest == LeaveSteps(w, false) || rest == LeaveSteps(w, true) else rest == []
      ensures alive ==> Mine(trace, ByWorker(w)) == Mine(old(trace), ByWorker(w)) + ([GcCheck(w)] + rest)
      ensures alive ==> HasRead(min, max, old(trace), trace, w, read, closing) && (exit <==> read > min || closing)
    {
      alive, exit, read, closing := Decide(w);
      rest := if exit then LeaveSteps(w, false) else [];
      if alive && exit {
        ghost var before := trace;
        var zero: bool;
        alive, zero := Leave(w);
        rest := LeaveSteps(w, zero);
        HasReadStays(min, max, old(trace), old(trace), before, trace, w, read, closing);
      }
    }

    method Decide(w: nat) returns (alive: bool, exit: bool, ghost read: int, ghost closing: bool)
      requires WrkAt(w, Checking)
      modifies this
      ensures Valid() && old(trace) <= trace && w < |book.workers|
      ensures if alive then WrkAt(w, if exit then Retiring else Releasing(false)) else Crashed(View())
      ensures alive ==> Mine(trace, ByWorker(w)) == Mine(old(trace), ByWorker(w)) + [GcCheck(w)]
      ensures alive ==> HasRead(min, max, old(trace), trace, w, read, closing) && (exit <==> read > min || closing)
    {
      exit, read, closing := false, 0, false;
      alive := Others(ByWorker(w));
      if alive {
        alive, exit, read, closing := Test(w);
      }
    }

    method Test(w: nat) returns (alive: bool, exit: bool, ghost read: int, ghost closing: bool)
      requires WrkAt(w, Checking)
      modifies this
      ensures Valid() && old(trace) <= trace && w < |book.workers|
      ensures if alive then WrkAt(w, if exit then Retiring else Releasing(false)) else Crashed(View())
      ensures Mine(trace, ByWorker(w)) == Mine(old(trace), ByWorker(w)) + [GcCheck(w)]
      ensures HasRead(min, max, old(trace), trace, w, read, closing) && (exit <==> read > min || closing)
    {
      MineAppend(trace, GcCheck(w), ByWorker(w));
      read, closing := counter, close;
      exit := CheckCounter(w);
      ghost var checked := trace;
      assert trace[..|old(trace)|] == old(trace);
      assert ReadAt(min, max, checked, w, read, closing, |old(trace)|);
      alive := Others(ByWorker(w));
      HasReadStays(min, max, old(trace), old(trace), checked, trace, w, read, closing);
    }

    /** The decrement, and the close exactly if it reached zero. */
    method Leave(w: nat) returns (alive: bool, zero: bool)
      requires WrkAt(w, Retiring)
      modifies this
      ensures Valid() && old(trace) + [GcRetire(w)] <= trace && w < |book.workers|
      ensures zero <==> Wrap32(old(counter) - 1) == 0
      ensures if alive then WrkAt(w, Releasing(true)) else Crashed(View())
      ensures alive ==> Mine(trace, ByWorker(w)) == Mine(old(trace), ByWorker(w)) + LeaveSteps(w, zero)
    {
      MineAppend(trace, GcRetire(w), ByWorker(w));
      var c := SubCounter(w);
      zero := c == 0;
      alive := Others(ByWorker(w));
      if alive && zero {
        alive := CloseAsLast(w);
      }
    }

    method CloseAsLast(w: nat) returns (alive: bool)
      requires WrkAt(w, Closing)
      modifies this
      ensures Valid() && old(trace) <= trace && w < |book.workers|
      ensures if alive then WrkAt(w, Releasing(true)) else Crashed(View())
      ensures Mine(trace, ByWorker(w)) == Mine(old(trace), ByWorker(w)) + [GcClose(w)]
    {
      MineAppend(trace, GcClose(w), ByWorker(w));
      alive := CloseChannel(w);
      if alive {
        alive := Others(ByWorker(w));
      }
    }

    /** WaitClose returns only when the monitor and every worker goroutine are gone. */
    method WaitClose() returns (returned: bool)
      requires Valid() && !Crashed(View())
      modifies this
      ensures Valid() && old(trace) + [Event.WaitClose] <= trace
      ensures returned <==> !Crashed(View()) && wg == 0
      ensures returned ==> book.ctxDone || book.closes > 0
      ensures returned ==> forall w :: 0 <= w < |book.workers| ==> book.workers[w].Gone?
    {
      ghost var s := View();
      close := true;
      Record(Event.WaitClose, s);
      returned := Wait();
    }

    method Wait() returns (returned: bool)
      requires Valid()
      modifies this
      ensures Valid() && old(trace) <= trace
      ensures returned <==> !Crashed(View()) && wg == 0
      ensures returned ==> book.ctxDone || book.closes > 0
      ensures returned ==> forall w :: 0 <= w < |book.workers| ==> book.workers[w].Gone?
    {
      var alive := Others(Nobody);
      returned := alive && wg == 0;
      if returned {
        WaitMeansDrained(min, max, trace);
      }
    }
  }

  lemma AddEffect(s: State, i: nat)
    requires !Crashed(s) && Sub(s, i, Adding)
    ensures Enabled(s, SubAdd(i))
    ensures Step(s, SubAdd(i)) ==
            s.(subs := s.subs[i := AR.Submitter.Spawning], counter := Wrap32(s.counter + 1),
               starts := s.starts + if s.counter == 0 then 1 else 0)
  {
  }

  lemma MonitorKeepsLimits(s: State, e: Event)
    requires Enabled(s, e)
    ensures Step(s, e).min == s.min && Step(s, e).max == s.max
  {
  }
}
