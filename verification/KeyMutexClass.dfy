/** KeyMutex as funcs.go writes it: a map of channels that goroutines load, store, delete, fill, drain
    and close, with the other goroutines moving between any two of those actions. */
module KeyMutexClass {
  import opened Counting
  import opened StreamKey
  import opened KM = KeyMutex
  import opened KeyMutexProofs

  datatype LockError = NoError | NamespaceNotFound | LostStream | Timeout

  // The goroutine an event belongs to, among those that lock.
  function Owner(e: Event): Option<nat> {
    match e
    case LockSend(t) => Some(t)
    case LockPanic(t) => Some(t)
    case LockTimeout(t) => Some(t)
    case UnlockLoad(t) => Some(t)
    case UnlockRecv(t) => Some(t)
    case UnlockTimeout(t) => Some(t)
    case _ => None
  }

  // Steps by others leave a goroutine where it is.
  lemma OthersLeave(s: State, e: Event, t: nat)
    requires Step(s, e).Some? && t < |s.callers| && Owner(e) != Some(t)
    ensures |Step(s, e).value.callers| >= |s.callers| && Step(s, e).value.callers[t] == s.callers[t]
  {
  }

  /** Where the goroutines are, and what happened so far; the source's object does not hold these. */
  datatype Book = Book(
    callers: seq<Caller>,
    cleaners: map<nat, Cleaner>,
    deletes: multiset<string>,
    leaked: multiset<string>,
    late: set<ChanId>,
    stolen: set<string>,
    cleansOverlapped: bool)

  class KeyMutex {
    var spaces: set<string>
    var reglock: map<string, ChanId>
    var chans: seq<Chan>
    var book: Book
    ghost var trace: seq<Event>

    function View(): State
      reads this
    {
      State(spaces, reglock, chans, book.callers, book.cleaners, book.deletes, book.leaked, book.late, book.stolen,
            book.cleansOverlapped)
    }

    ghost predicate Valid()
      reads this
    {
      Run(trace) == Some(View())
    }

    ghost predicate At(t: nat, c: Caller)
      reads this
    {
      Valid() && t < |book.callers| && book.callers[t] == c
    }

    constructor ()
      ensures Valid() && trace == []
    {
      spaces, reglock, chans := {}, map[], [];
      book := Book([], map[], multiset{}, multiset{}, {}, {}, false);
      trace := [];
    }

    ghost method Record(e: Event, s: State)
      requires Run(trace) == Some(s) && Step(s, e) == Some(View())
      modifies this`trace
      ensures Valid() && trace == old(trace) + [e]
    {
      RunExtend(trace, e);
      trace := trace + [e];
    }

    method Regist(namespace: string)
      requires Valid()
      modifies this
      ensures Valid() && trace == old(trace) + [Event.Regist(namespace)]
      ensures spaces == old(spaces) + {namespace}
      ensures reglock == old(reglock) && chans == old(chans) && book == old(book)
    {
      ghost var s := View();
      spaces := spaces + {namespace};
      Record(Event.Regist(namespace), s);
    }

    // ----------------------------------------------------------------------------------------
    // The map and channel operations, each one atomic action of one goroutine.

    method LoadOrStore(namespace: string, key: string) returns (t: nat, c: ChanId)
      requires Valid() && namespace in spaces
      modifies this
      ensures At(t, Waiting(LockKey(namespace, key), c)) && trace == old(trace) + [LockLoad(namespace, key)]
      ensures t == old(|book.callers|) && View() == DoLockLoad(old(View()), namespace, key)
      ensures var k := LockKey(namespace, key);
              c == if k in old(reglock) then old(reglock)[k] else |old(chans)|
    {
      ghost var s := View();
      var k := LockKey(namespace, key);
      t := |book.callers|;
      if k in reglock {
        c := reglock[k];
      } else {
        c := |chans|;
        reglock := reglock[k := c];
        chans := chans + [Chan(k, false, 0)];
      }
      book := book.(callers := book.callers + [Waiting(k, c)]);
      Record(LockLoad(namespace, key), s);
    }

    method Send(t: nat, k: string, c: ChanId)
      requires At(t, Waiting(k, c)) && c < |chans| && chans[c].closes == 0 && !chans[c].full
      modifies this
      ensures At(t, Holding(k, c)) && trace == old(trace) + [LockSend(t)]
      ensures Some(View()) == DoLockSend(old(View()), t)
    {
      ghost var s := View();
      chans := chans[c := chans[c].(full := true)];
      book := book.(callers := book.callers[t := Holding(k, c)]);
      Record(LockSend(t), s);
    }

    // A send that panics on the closed channel, or loses to the timer.
    method GiveUp(t: nat, k: string, c: ChanId, timeout: bool)
      requires At(t, Waiting(k, c)) && c < |chans| && (timeout || chans[c].closes > 0)
      modifies this
      ensures At(t, Refused) && trace == old(trace) + [if timeout then LockTimeout(t) else LockPanic(t)]
      ensures chans == old(chans) && reglock == old(reglock)
    {
      ghost var s := View();
      book := book.(callers := book.callers[t := Refused]);
      Record(if timeout then LockTimeout(t) else LockPanic(t), s);
    }

    method LoadForUnlock(t: nat, k: string, c: ChanId, hash: string) returns (u: Option<ChanId>)
      requires At(t, Holding(k, c)) && hash == k
      modifies this
      ensures u == if hash in reglock then Some(reglock[hash]) else None
      ensures At(t, if u.Some? then Releasing(k, c, u.value) else Finished) && trace == old(trace) + [UnlockLoad(t)]
      ensures chans == old(chans) && reglock == old(reglock)
    {
      ghost var s := View();
      if hash in reglock {
        u := Some(reglock[hash]);
        book := book.(callers := book.callers[t := Releasing(k, c, u.value)]);
      } else {
        u := None;
        book := book.(callers := book.callers[t := Finished]);
        book := book.(leaked := book.leaked + multiset{k});
      }
      Record(UnlockLoad(t), s);
    }

    method Receive(t: nat, k: string, c: ChanId, u: ChanId)
      requires At(t, Releasing(k, c, u)) && u < |chans| && (chans[u].full || chans[u].closes > 0)
      modifies this
      ensures At(t, Finished) && trace == old(trace) + [UnlockRecv(t)]
      ensures |chans| == old(|chans|) && chans == old(chans)[u := old(chans)[u].(full := false)]
    {
      ghost var s := View();
      if chans[u].full {
        chans := chans[u := chans[u].(full := false)];
        book := book.(late := book.late - {u});
        if u != c {
          book := book.(stolen := book.stolen + {k});
        }
      } else {
        book := book.(leaked := book.leaked + multiset{k});
        assert chans[u := chans[u].(full := false)] == chans;
      }
      book := book.(callers := book.callers[t := Finished]);
      Record(UnlockRecv(t), s);
    }

    method UnlockExpires(t: nat, k: string, c: ChanId, u: ChanId)
      requires At(t, Releasing(k, c, u)) && u < |chans|
      modifies this
      ensures At(t, Finished) && trace == old(trace) + [UnlockTimeout(t)]
      ensures chans == old(chans)
    {
      ghost var s := View();
      if chans[u].full && u == c {
        book := book.(late := book.late + {u});
      }
      book := book.(leaked := book.leaked + multiset{k});
      book := book.(callers := book.callers[t := Finished]);
      Record(UnlockTimeout(t), s);
    }

    method Become(s: State)
      modifies this
      ensures View() == s && trace == old(trace)
    {
      spaces, reglock, chans := s.spaces, s.slots, s.chans;
      book := Book(s.callers, s.cleaners, s.deletes, s.leaked, s.late, s.stolen, s.cleansOverlapped);
    }

    method Take(e: Event)
      requires Valid() && Step(View(), e).Some?
      modifies this
      ensures Valid() && trace == old(trace) + [e] && Some(View()) == Step(old(View()), e)
    {
      ghost var before := View();
      var after := Step(View(), e);
      Become(after.value);
      Record(e, before);
    }

    /** The others: any number of actions, none by goroutine `me`. */
    method Others(me: nat)
      requires Valid() && me < |book.callers|
      modifies this
      ensures Valid() && old(trace) <= trace
      ensures me < |book.callers| && book.callers[me] == old(book.callers[me])
    {
      var n: nat := *;
      while n > 0
        invariant Valid() && old(trace) <= trace
        invariant me < |book.callers| && book.callers[me] == old(book.callers[me])
      {
        var e: Event := *;
        if Step(View(), e).Some? && Owner(e) != Some(me) {
          OthersLeave(View(), e, me);
          Take(e);
        }
        n := n - 1;
      }
    }

    // ----------------------------------------------------------------------------------------
    // Lock and Unlock, with the others running before and between their actions.

    // Goroutine `t`, being at `was`, has just done `e`.
    ghost predicate JustDid(t: nat, was: Caller, e: Event)
      reads this
    {
      && trace != [] && trace[|trace| - 1] == e
      && var before := Run(trace[..|trace| - 1]);
      before.Some? && t < |before.value.callers| && before.value.callers[t] == was
    }

    /** A successful Lock holds the key; as long as the key was never cleaned nobody else does. `timer` says
        that the select takes the timer's case. Without it Lock fails only on a channel that is not ready:
        a closed one, or one still full when the timer fires after all. */
    method Lock(namespace: string, key: string, timer: bool) returns (t: nat, c: ChanId, err: LockError)
      requires Valid()
      modifies this
      ensures Valid() && old(trace) <= trace
      ensures err == NamespaceNotFound <==> namespace !in old(spaces)
      ensures err == NamespaceNotFound ==> View() == old(View())
      ensures err != NamespaceNotFound ==>
                && old(trace) + [LockLoad(namespace, key)] <= trace && c < |chans|
                && var k := LockKey(namespace, key);
                c == if k in old(reglock) then old(reglock)[k] else |old(chans)|
      ensures err == NoError ==> At(t, Holding(LockKey(namespace, key), c)) && chans[c].full && !timer
      ensures err == NoError && book.deletes[LockKey(namespace, key)] == 0 ==>
              Holders(View(), LockKey(namespace, key)) == 1
      ensures err == LostStream ==> At(t, Refused) && chans[c].closes > 0 && !timer
      ensures err == Timeout ==> At(t, Refused) && (timer || (chans[c].full && chans[c].closes == 0))
    {
      if namespace !in spaces {
        return 0, 0, NamespaceNotFound;
      }
      var k := LockKey(namespace, key);
      t, c := LoadOrStore(namespace, key);
      Others(t);
      ChannelInRange(trace, View(), t);
      if !timer && chans[c].closes == 0 && !chans[c].full {
        Send(t, k, c);
        HolderCounts(trace, View(), t);
        err := NoError;
      } else if !timer && chans[c].closes > 0 {
        GiveUp(t, k, c, false);
        err := LostStream;
      } else {
        GiveUp(t, k, c, true);
        err := Timeout;
      }
    }

    /** Unlock by a goroutine whose Lock succeeded always ends. It returns nil when it received from the
        channel it found, which is then not full, or when the key has no channel; and a timeout only if the
        select takes the timer's case, or if there is nothing to receive. */
    method Unlock(t: nat, namespace: string, key: string, c: ChanId, timer: bool)
      returns (err: LockError, ghost found: Option<ChanId>)
      requires At(t, Holding(LockKey(namespace, key), c))
      modifies this
      ensures err == NamespaceNotFound <==> namespace !in old(spaces)
      ensures err == NamespaceNotFound ==> Valid() && View() == old(View())
      ensures err != NamespaceNotFound ==> old(trace) < trace && At(t, Finished) && (err == NoError || err == Timeout)
      ensures var k := LockKey(namespace, key);
              match err
              case NoError =>
                (match found
                 case None => JustDid(t, Holding(k, c), UnlockLoad(t)) && k !in reglock
                 case Some(u) =>
                   JustDid(t, Releasing(k, c, u), UnlockRecv(t)) && !timer && u < |chans| && !chans[u].full)
              case Timeout =>
                && found.Some? && JustDid(t, Releasing(k, c, found.value), UnlockTimeout(t))
                && found.value < |chans|
                && (timer || (!chans[found.value].full && chans[found.value].closes == 0))
              case _ => true
    {
      found := None;
      if namespace !in spaces {
        return NamespaceNotFound, found;
      }
      var k := LockKey(namespace, key);
      Others(t);
      ghost var before := trace;
      var u := LoadForUnlock(t, k, c, k);
      assert trace[..|trace| - 1] == before;
      if u.None? {
        return NoError, found;
      }
      err := Release(t, k, c, u.value, timer);
      found := u;
    }

    // The select of Unlock.
    method Release(t: nat, k: string, c: ChanId, u: ChanId, timer: bool) returns (err: LockError)
      requires At(t, Releasing(k, c, u))
      modifies this
      ensures old(trace) < trace && At(t, Finished) && u < |chans|
      ensures err == NoError ==> JustDid(t, Releasing(k, c, u), UnlockRecv(t)) && !timer && !chans[u].full
      ensures err != NoError ==> err == Timeout && JustDid(t, Releasing(k, c, u), UnlockTimeout(t))
      ensures err == Timeout ==> timer || (!chans[u].full && chans[u].closes == 0)
    {
      Others(t);
      ChannelInRange(trace, View(), t);
      ghost var before := trace;
      if timer || !(chans[u].full || chans[u].closes > 0) {
        UnlockExpires(t, k, c, u);
        err := Timeout;
      } else {
        Receive(t, k, c, u);
        err := NoError;
      }
      assert trace[..|trace| - 1] == before;
    }

    /** Clean by cleaner `me`: load, delete, close; the recovered second close is just another close.
        Afterwards the loaded channel is closed and not in the map. */
    method Clean(me: nat, namespace: string, key: string) returns (gone: Option<ChanId>)
      requires Valid() && me !in book.cleaners
      modifies this
      ensures Valid() && old(trace) <= trace
      ensures old(spaces) <= spaces
      ensures namespace == "" || key == "" ==> View() == old(View()) && gone == None
      ensures namespace != "" && key != "" ==>
                && old(trace) + [CleanLoad(me, namespace, key)] <= trace
                && var k := LockKey(namespace, key);
                gone == if k in old(reglock) then Some(old(reglock)[k]) else None
      ensures gone.Some? ==> gone.value < |chans| && chans[gone.value].closes > 0
                             && !Current(reglock, LockKey(namespace, key), gone.value)
    {
      if key == "" || namespace == "" {
        return None;
      }
      var k := LockKey(namespace, key);
      Take(CleanLoad(me, namespace, key));
      if me !in book.cleaners {
        return None;
      }
      gone := Some(book.cleaners[me].ch);
      DeleteAndClose(me);
    }

    method DeleteAndClose(me: nat)
      requires Valid() && me in book.cleaners && book.cleaners[me].Loaded?
      modifies this
      ensures Valid() && old(trace) <= trace && old(spaces) <= spaces
      ensures var k, c := old(book.cleaners[me].key), old(book.cleaners[me].ch);
              c < |chans| && chans[c].closes > 0 && !Current(reglock, k, c)
    {
      ghost var k, c := book.cleaners[me].key, book.cleaners[me].ch;
      CleanOthers(me);
      Take(CleanDelete(me));
      CleanOthers(me);
      CleanerInRange(trace, View(), me);
      Take(CleanClose(me));
      ClosedIsGone(trace, View(), c, k);
    }

    // The others, while `me` is in the middle of Clean.
    method CleanOthers(me: nat)
      requires Valid() && me in book.cleaners
      modifies this
      ensures Valid() && old(trace) <= trace && old(spaces) <= spaces
      ensures me in book.cleaners && book.cleaners[me] == old(book.cleaners[me])
    {
      var n: nat := *;
      while n > 0
        invariant Valid() && old(trace) <= trace && old(spaces) <= spaces
        invariant me in book.cleaners && book.cleaners[me] == old(book.cleaners[me])
      {
        var e: Event := *;
        if Step(View(), e).Some? && !(e.CleanDelete? && e.c == me) && !(e.CleanClose? && e.c == me) {
          CleanersLeave(View(), e, me);
          SpacesStay(View(), e);
          Take(e);
        }
        n := n - 1;
      }
    }
  }

  lemma SpacesStay(s: State, e: Event)
    requires Step(s, e).Some?
    ensures s.spaces <= Step(s, e).value.spaces
  {
  }

  lemma CleanersLeave(s: State, e: Event, c: nat)
    requires Step(s, e).Some? && c in s.cleaners && !(e.CleanDelete? && e.c == c) && !(e.CleanClose? && e.c == c)
    ensures c in Step(s, e).value.cleaners && Step(s, e).value.cleaners[c] == s.cleaners[c]
  {
  }

  lemma ChannelInRange(trace: seq<Event>, s: State, t: nat)
    requires Run(trace) == Some(s) && t < |s.callers|
    ensures CallerOk(s.chans, s.callers[t])
  {
    InvRun(trace);
  }

  lemma CleanerInRange(trace: seq<Event>, s: State, c: nat)
    requires Run(trace) == Some(s) && c in s.cleaners
    ensures s.cleaners[c].ch < |s.chans| && s.chans[s.cleaners[c].ch].key == s.cleaners[c].key
  {
    InvRun(trace);
  }

  lemma ClosedIsGone(trace: seq<Event>, s: State, c: ChanId, k: string)
    requires Run(trace) == Some(s) && c < |s.chans| && s.chans[c].closes > 0
    ensures !Current(s.slots, k, c)
  {
    InvRun(trace);
  }

  lemma HolderCounts(trace: seq<Event>, s: State, t: nat)
    requires Run(trace) == Some(s) && t < |s.callers| && s.callers[t].Holding?
    ensures s.deletes[s.callers[t].key] == 0 ==> Holders(s, s.callers[t].key) == 1
  {
    if s.deletes[s.callers[t].key] == 0 {
      MutualExclusionWithoutClean(trace, s.callers[t].key);
      SumAtLeast(s.callers, t, HolderOf(s.callers[t].key));
    }
  }
}
