/** What every interleaving of Lock, Unlock and Clean keeps. */
module KeyMutexProofs {
  import opened Counting
  import opened StreamKey
  import opened KeyMutex

  predicate ChanOk(chans: seq<Chan>, k: string, c: ChanId) { c < |chans| && chans[c].key == k }

  predicate CallerOk(chans: seq<Chan>, c: Caller) {
    match c
    case Waiting(k, ch) => ChanOk(chans, k, ch)
    case Holding(k, ch) => ChanOk(chans, k, ch)
    case Releasing(k, ch, u) => ChanOk(chans, k, ch) && ChanOk(chans, k, u)
    case _ => true
  }

  // The channel now stored for key `k`.
  predicate Current(slots: map<string, ChanId>, k: string, c: ChanId) { k in slots && slots[k] == c }

  // Ids are in range and agree on the key they belong to.
  ghost predicate SlotsOk(slots: map<string, ChanId>, chans: seq<Chan>) {
    forall k :: k in slots ==> ChanOk(chans, k, slots[k])
  }

  ghost predicate CallersOk(chans: seq<Chan>, callers: seq<Caller>) {
    forall t :: 0 <= t < |callers| ==> CallerOk(chans, callers[t])
  }

  // A Clean that has deleted its channel has left it out of the map.
  ghost predicate CleanersOk(slots: map<string, ChanId>, chans: seq<Chan>, cleaners: map<nat, Cleaner>) {
    forall c :: c in cleaners ==>
      && ChanOk(chans, cleaners[c].key, cleaners[c].ch)
      && (cleaners[c].Deleted? ==> !Current(slots, cleaners[c].key, cleaners[c].ch))
  }

  // A closed channel is never in the map.
  ghost predicate ClosedOk(slots: map<string, ChanId>, chans: seq<Chan>) {
    forall c :: 0 <= c < |chans| && chans[c].closes > 0 ==> !Current(slots, chans[c].key, c)
  }

  ghost predicate Shape(s: State) {
    && SlotsOk(s.slots, s.chans)
    && CallersOk(s.chans, s.callers)
    && CleanersOk(s.slots, s.chans, s.cleaners)
    && ClosedOk(s.slots, s.chans)
    && (forall c :: c in s.late ==> c < |s.chans|)
  }

  // ------------------------------------------------------------------------------------------
  // Accounts.

  // Tokens are what the holders put in, plus what Unlocks that took nothing left behind.
  ghost predicate TokensOk(chans: seq<Chan>, callers: seq<Caller>, leaked: multiset<string>) {
    forall k :: Sum(chans, TokenOf(k)) == Sum(callers, HolderOf(k)) + leaked[k]
  }

  // A channel is stored again for a key only after a deletion.
  ghost predicate ChannelsOk(slots: map<string, ChanId>, chans: seq<Chan>, deletes: multiset<string>) {
    forall k :: Sum(chans, ChannelOf(k)) == deletes[k] + if k in slots then 1 else 0
  }

  // ------------------------------------------------------------------------------------------
  // Owners.

  // While the locked channel is still stored, Unlock works on that channel.
  ghost predicate ReleasesOk(slots: map<string, ChanId>, callers: seq<Caller>) {
    forall t :: 0 <= t < |callers| && callers[t].Releasing? && Current(slots, callers[t].key, callers[t].ch) ==>
                  callers[t].from == callers[t].ch
  }

  predicate LockedOn(callers: seq<Caller>, t: nat, c: ChanId) {
    t < |callers| && callers[t].Locked() && callers[t].ch == c
  }

  // A stored channel that is full belongs to a caller still on its way out.
  ghost predicate OwnersOk(slots: map<string, ChanId>, chans: seq<Chan>, callers: seq<Caller>, late: set<ChanId>) {
    forall c :: 0 <= c < |chans| && chans[c].full && Current(slots, chans[c].key, c) && c !in late ==>
                  exists t :: LockedOn(callers, t, c)
  }

  // ------------------------------------------------------------------------------------------
  // Closing, as long as Cleans do not overlap.

  ghost predicate PendingClose(cleaners: map<nat, Cleaner>, ch: ChanId) {
    exists c :: c in cleaners && cleaners[c].Deleted? && cleaners[c].ch == ch
  }

  ghost predicate SoleCleaner(slots: map<string, ChanId>, cleaners: map<nat, Cleaner>) {
    && (forall c, d :: c in cleaners && d in cleaners ==> c == d)
    && (forall c :: c in cleaners && cleaners[c].Loaded? ==> Current(slots, cleaners[c].key, cleaners[c].ch))
    && (forall c :: c in cleaners && cleaners[c].Deleted? ==> cleaners[c].gone == Some(cleaners[c].ch))
  }

  ghost predicate ClosesOk(slots: map<string, ChanId>, chans: seq<Chan>, cleaners: map<nat, Cleaner>) {
    forall c :: 0 <= c < |chans| ==>
                  chans[c].closes == if Current(slots, chans[c].key, c) || PendingClose(cleaners, c) then 0 else 1
  }

  // Extending the channel list, or changing the contents of one channel, keeps all ids valid.
  predicate SameKeys(chans: seq<Chan>, chans': seq<Chan>) {
    && |chans| <= |chans'|
    && forall c :: 0 <= c < |chans| ==> chans'[c].key == chans[c].key
  }

  lemma IdsStayOk(s: State, chans': seq<Chan>)
    requires Shape(s) && SameKeys(s.chans, chans')
    ensures SlotsOk(s.slots, chans')
    ensures CallersOk(chans', s.callers)
    ensures CleanersOk(s.slots, chans', s.cleaners)
  {
    forall t | 0 <= t < |s.callers|
      ensures CallerOk(chans', s.callers[t])
    {
      assert CallerOk(s.chans, s.callers[t]);
    }
  }

  lemma ShapeStore(s: State, k: string)
    requires Shape(s) && k !in s.slots
    ensures Shape(s.(slots := s.slots[k := |s.chans|], chans := s.chans + [Chan(k, false, 0)]))
  {
    var chans' := s.chans + [Chan(k, false, 0)];
    IdsStayOk(s, chans');
  }

  // ------------------------------------------------------------------------------------------
  // Shape, one step at a time.

  lemma ShapeLockLoad(s: State, ns: string, key: string)
    requires Shape(s)
    ensures Shape(DoLockLoad(s, ns, key))
  {
    if ns in s.spaces && LockKey(ns, key) !in s.slots {
      ShapeStore(s, LockKey(ns, key));
    }
  }

  lemma ShapeChan(s: State, e: Event)
    requires Shape(s) && Step(s, e).Some? && (e.LockSend? || e.CleanClose?)
    ensures Shape(Step(s, e).value)
  {
    IdsStayOk(s, Step(s, e).value.chans);
  }

  lemma ShapeUnlockRecv(s: State, t: nat)
    requires Shape(s) && DoUnlockRecv(s, t).Some?
    ensures Shape(DoUnlockRecv(s, t).value)
  {
    IdsStayOk(s, DoUnlockRecv(s, t).value.chans);
  }

  lemma ShapeCaller(s: State, e: Event)
    requires Shape(s) && Step(s, e).Some?
    requires e.LockPanic? || e.LockTimeout? || e.UnlockLoad? || e.UnlockTimeout?
    ensures Shape(Step(s, e).value)
  {
  }

  lemma ShapeCleanDelete(s: State, c: nat)
    requires Shape(s) && DoCleanDelete(s, c).Some?
    ensures Shape(DoCleanDelete(s, c).value)
  {
  }

  lemma ShapeStep(s: State, e: Event)
    requires Shape(s) && Step(s, e).Some?
    ensures Shape(Step(s, e).value)
  {
    match e {
      case Regist(_) =>
      case CleanLoad(_, _, _) =>
      case LockLoad(ns, key) => ShapeLockLoad(s, ns, key);
      case UnlockRecv(t) => ShapeUnlockRecv(s, t);
      case CleanDelete(c) => ShapeCleanDelete(s, c);
      case LockSend(_) => ShapeChan(s, e);
      case CleanClose(_) => ShapeChan(s, e);
      case _ => ShapeCaller(s, e);
    }
  }

  // ------------------------------------------------------------------------------------------
  // Accounts, one step at a time.

  lemma TokensAdd(chans: seq<Chan>, callers: seq<Caller>, leaked: multiset<string>, x: Caller)
    requires TokensOk(chans, callers, leaked) && !x.Locked()
    ensures TokensOk(chans, callers + [x], leaked)
  {
    forall k
      ensures Sum(chans, TokenOf(k)) == Sum(callers + [x], HolderOf(k)) + leaked[k]
    {
      SumAppend(callers, x, HolderOf(k));
    }
  }

  // A caller moves without taking or leaving the lock.
  lemma TokensMove(chans: seq<Chan>, callers: seq<Caller>, leaked: multiset<string>, t: nat, x: Caller)
    requires TokensOk(chans, callers, leaked) && t < |callers|
    requires forall k :: HolderOf(k)(callers[t]) == HolderOf(k)(x)
    ensures TokensOk(chans, callers[t := x], leaked)
  {
    forall k
      ensures Sum(chans, TokenOf(k)) == Sum(callers[t := x], HolderOf(k)) + leaked[k]
    {
      SumUpdate(callers, t, x, HolderOf(k));
    }
  }

  // A holder leaves without its token.
  lemma TokensLeak(chans: seq<Chan>, callers: seq<Caller>, leaked: multiset<string>, t: nat)
    requires TokensOk(chans, callers, leaked) && t < |callers| && callers[t].Locked()
    ensures TokensOk(chans, callers[t := Finished], leaked + multiset{callers[t].key})
  {
    forall k
      ensures Sum(chans, TokenOf(k)) ==
              Sum(callers[t := Finished], HolderOf(k)) + (leaked + multiset{callers[t].key})[k]
    {
      SumUpdate(callers, t, Finished, HolderOf(k));
    }
  }

  // A token is put into channel `c`, or taken out of it, while caller `t` takes or leaves the lock.
  lemma TokensSwap(chans: seq<Chan>, callers: seq<Caller>, leaked: multiset<string>, c: ChanId, t: nat, x: Caller)
    requires TokensOk(chans, callers, leaked) && c < |chans| && t < |callers|
    requires callers[t].Locked() == chans[c].full && x.Locked() == !chans[c].full
    requires callers[t].Locked() ==> callers[t].key == chans[c].key
    requires x.Locked() ==> x.key == chans[c].key
    ensures TokensOk(chans[c := chans[c].(full := !chans[c].full)], callers[t := x], leaked)
  {
    var ch := chans[c].(full := !chans[c].full);
    forall k
      ensures Sum(chans[c := ch], TokenOf(k)) == Sum(callers[t := x], HolderOf(k)) + leaked[k]
    {
      SumUpdate(callers, t, x, HolderOf(k));
      SumUpdate(chans, c, ch, TokenOf(k));
    }
  }

  lemma AccountsStore(slots: map<string, ChanId>, chans: seq<Chan>, callers: seq<Caller>,
                      leaked: multiset<string>, deletes: multiset<string>, j: string)
    requires TokensOk(chans, callers, leaked) && ChannelsOk(slots, chans, deletes) && j !in slots
    ensures TokensOk(chans + [Chan(j, false, 0)], callers, leaked)
    ensures ChannelsOk(slots[j := |chans|], chans + [Chan(j, false, 0)], deletes)
  {
    var x := Chan(j, false, 0);
    forall k
      ensures Sum(chans + [x], TokenOf(k)) == Sum(callers, HolderOf(k)) + leaked[k]
      ensures Sum(chans + [x], ChannelOf(k)) == deletes[k] + if k in slots[j := |chans|] then 1 else 0
    {
      SumAppend(chans, x, TokenOf(k));
      SumAppend(chans, x, ChannelOf(k));
    }
  }

  // Changing what is in a channel does not change how many there are.
  lemma ChannelsSetChan(slots: map<string, ChanId>, chans: seq<Chan>, deletes: multiset<string>, c: ChanId, x: Chan)
    requires ChannelsOk(slots, chans, deletes) && c < |chans| && x.key == chans[c].key
    ensures ChannelsOk(slots, chans[c := x], deletes)
  {
    forall k
      ensures Sum(chans[c := x], ChannelOf(k)) == deletes[k] + if k in slots then 1 else 0
    {
      SumUpdate(chans, c, x, ChannelOf(k));
    }
  }

  lemma TokensClose(chans: seq<Chan>, callers: seq<Caller>, leaked: multiset<string>, c: ChanId, n: nat)
    requires TokensOk(chans, callers, leaked) && c < |chans|
    ensures TokensOk(chans[c := chans[c].(closes := n)], callers, leaked)
  {
    forall k
      ensures Sum(chans[c := chans[c].(closes := n)], TokenOf(k)) == Sum(callers, HolderOf(k)) + leaked[k]
    {
      SumUpdate(chans, c, chans[c].(closes := n), TokenOf(k));
    }
  }

  ghost predicate Accounts(s: State) {
    TokensOk(s.chans, s.callers, s.leaked) && ChannelsOk(s.slots, s.chans, s.deletes)
  }

  lemma AccountsLock(s: State, e: Event)
    requires Step(s, e).Some? && Shape(s) && Accounts(s)
    requires e.LockLoad? || e.LockSend? || e.LockPanic? || e.LockTimeout?
    ensures Accounts(Step(s, e).value)
  {
    var s' := Step(s, e).value;
    if e.LockLoad? {
      var k := LockKey(e.ns, e.key);
      if e.ns in s.spaces && k !in s.slots {
        AccountsStore(s.slots, s.chans, s.callers, s.leaked, s.deletes, k);
      }
      TokensAdd(s'.chans, s.callers, s.leaked, s'.callers[|s.callers|]);
    } else if e.LockSend? {
      var c := s.callers[e.t].ch;
      TokensSwap(s.chans, s.callers, s.leaked, c, e.t, s'.callers[e.t]);
      ChannelsSetChan(s.slots, s.chans, s.deletes, c, s'.chans[c]);
    } else {
      TokensMove(s.chans, s.callers, s.leaked, e.t, Refused);
    }
  }

  lemma AccountsUnlockLoad(s: State, t: nat)
    requires DoUnlockLoad(s, t).Some? && Accounts(s)
    ensures Accounts(DoUnlockLoad(s, t).value)
  {
    if s.callers[t].key in s.slots {
      TokensMove(s.chans, s.callers, s.leaked, t, DoUnlockLoad(s, t).value.callers[t]);
    } else {
      TokensLeak(s.chans, s.callers, s.leaked, t);
    }
  }

  lemma AccountsUnlockRecv(s: State, t: nat)
    requires DoUnlockRecv(s, t).Some? && Shape(s) && Accounts(s)
    ensures Accounts(DoUnlockRecv(s, t).value)
  {
    var u := s.callers[t].from;
    if s.chans[u].full {
      TokensSwap(s.chans, s.callers, s.leaked, u, t, Finished);
      ChannelsSetChan(s.slots, s.chans, s.deletes, u, s.chans[u].(full := false));
    } else {
      TokensLeak(s.chans, s.callers, s.leaked, t);
    }
  }

  lemma AccountsUnlock(s: State, e: Event)
    requires Step(s, e).Some? && Shape(s) && Accounts(s)
    requires e.UnlockLoad? || e.UnlockRecv? || e.UnlockTimeout?
    ensures Accounts(Step(s, e).value)
  {
    if e.UnlockLoad? {
      AccountsUnlockLoad(s, e.t);
    } else if e.UnlockRecv? {
      AccountsUnlockRecv(s, e.t);
    } else {
      TokensLeak(s.chans, s.callers, s.leaked, e.t);
    }
  }

  lemma AccountsClean(s: State, e: Event)
    requires Step(s, e).Some? && Shape(s) && Accounts(s)
    requires e.CleanLoad? || e.CleanDelete? || e.CleanClose? || e.Regist?
    ensures Accounts(Step(s, e).value)
  {
    if e.CleanClose? {
      var c, s' := s.cleaners[e.c].ch, Step(s, e).value;
      TokensClose(s.chans, s.callers, s.leaked, c, s'.chans[c].closes);
      ChannelsSetChan(s.slots, s.chans, s.deletes, c, s'.chans[c]);
    }
  }

  // ------------------------------------------------------------------------------------------
  // Owners, one step at a time.

  ghost predicate Owners(s: State) {
    ReleasesOk(s.slots, s.callers) && OwnersOk(s.slots, s.chans, s.callers, s.late)
  }

  lemma OwnersLoad(s: State, ns: string, key: string)
    requires Shape(s) && Owners(s)
    ensures Owners(DoLockLoad(s, ns, key))
  {
    OwnersCarry(s, DoLockLoad(s, ns, key));
  }

  lemma OwnersSend(s: State, t: nat)
    requires DoLockSend(s, t).Some? && Shape(s) && Owners(s)
    ensures Owners(DoLockSend(s, t).value)
  {
    var s' := DoLockSend(s, t).value;
    assert LockedOn(s'.callers, t, s.callers[t].ch);
    OwnersCarry(s, s');
  }

  lemma OwnersRefused(s: State, e: Event)
    requires Step(s, e).Some? && Owners(s) && (e.LockPanic? || e.LockTimeout?)
    ensures Owners(Step(s, e).value)
  {
    OwnersCarry(s, Step(s, e).value);
  }

  lemma OwnersLock(s: State, e: Event)
    requires Step(s, e).Some? && Shape(s) && Owners(s)
    requires e.LockLoad? || e.LockSend? || e.LockPanic? || e.LockTimeout?
    ensures Owners(Step(s, e).value)
  {
    if e.LockLoad? {
      OwnersLoad(s, e.ns, e.key);
    } else if e.LockSend? {
      OwnersSend(s, e.t);
    } else {
      OwnersRefused(s, e);
    }
  }

  lemma OwnersUnlock(s: State, e: Event)
    requires Step(s, e).Some? && Shape(s) && Owners(s)
    requires e.UnlockLoad? || e.UnlockTimeout?
    ensures Owners(Step(s, e).value)
  {
    OwnersCarry(s, Step(s, e).value);
  }

  lemma OwnersRecv(s: State, t: nat)
    requires DoUnlockRecv(s, t).Some? && Shape(s) && Owners(s)
    ensures Owners(DoUnlockRecv(s, t).value)
  {
    OwnersCarry(s, DoUnlockRecv(s, t).value);
  }

  lemma OwnersClean(s: State, e: Event)
    requires Step(s, e).Some? && Shape(s) && Owners(s)
    requires e.CleanLoad? || e.CleanDelete? || e.CleanClose? || e.Regist?
    ensures Owners(Step(s, e).value)
  {
    OwnersCarry(s, Step(s, e).value);
  }

  // Owners survive a step that keeps every owner of a channel that stays stored and full.
  lemma OwnersCarry(s: State, s': State)
    requires OwnersOk(s.slots, s.chans, s.callers, s.late)
    requires forall c :: 0 <= c < |s'.chans| && s'.chans[c].full && c !in s'.late &&
                         Current(s'.slots, s'.chans[c].key, c) ==>
               || (exists t :: LockedOn(s'.callers, t, c))
               || (c < |s.chans| && s.chans[c].full && Current(s.slots, s.chans[c].key, c) && c !in s.late &&
                   forall t :: LockedOn(s.callers, t, c) ==> LockedOn(s'.callers, t, c))
    ensures OwnersOk(s'.slots, s'.chans, s'.callers, s'.late)
  {
  }

  // ------------------------------------------------------------------------------------------
  // Closing, one step at a time.

  ghost predicate Closes(s: State) {
    SoleCleaner(s.slots, s.cleaners) && ClosesOk(s.slots, s.chans, s.cleaners)
  }

  lemma ClosesLoad(s: State, ns: string, key: string)
    requires Shape(s) && Closes(s)
    ensures Closes(DoLockLoad(s, ns, key))
  {
  }

  lemma ClosesCallers(s: State, e: Event)
    requires Step(s, e).Some? && Shape(s) && Closes(s)
    requires !e.CleanLoad? && !e.CleanDelete? && !e.CleanClose?
    ensures Closes(Step(s, e).value)
  {
    if e.LockLoad? {
      ClosesLoad(s, e.ns, e.key);
    } else {
      ChansKeepCloses(s, e);
    }
  }

  // Filling and draining leave keys and closes alone.
  lemma ChansKeepCloses(s: State, e: Event)
    requires Step(s, e).Some? && !e.LockLoad? && !e.CleanLoad? && !e.CleanDelete? && !e.CleanClose?
    ensures var s' := Step(s, e).value;
            && s'.slots == s.slots && s'.cleaners == s.cleaners && |s'.chans| == |s.chans|
            && forall c :: 0 <= c < |s.chans| ==>
                 s'.chans[c].key == s.chans[c].key && s'.chans[c].closes == s.chans[c].closes
  {
    if e.LockSend? {
      SendKeepsCloses(s, e.t);
    } else if e.UnlockRecv? {
      RecvKeepsCloses(s, e.t);
    }
  }

  lemma SendKeepsCloses(s: State, t: nat)
    requires DoLockSend(s, t).Some?
    ensures var s' := DoLockSend(s, t).value;
            && |s'.chans| == |s.chans|
            && forall c :: 0 <= c < |s.chans| ==>
                 s'.chans[c].key == s.chans[c].key && s'.chans[c].closes == s.chans[c].closes
  {
  }

  lemma RecvKeepsCloses(s: State, t: nat)
    requires DoUnlockRecv(s, t).Some?
    ensures var s' := DoUnlockRecv(s, t).value;
            && |s'.chans| == |s.chans|
            && forall c :: 0 <= c < |s.chans| ==>
                 s'.chans[c].key == s.chans[c].key && s'.chans[c].closes == s.chans[c].closes
  {
  }

  lemma ClosesCleanLoad(s: State, c: nat, ns: string, key: string)
    requires DoCleanLoad(s, c, ns, key).Some? && Shape(s) && Closes(s)
    requires !DoCleanLoad(s, c, ns, key).value.cleansOverlapped
    ensures Closes(DoCleanLoad(s, c, ns, key).value)
  {
    var s' := DoCleanLoad(s, c, ns, key).value;
    assert forall ch :: PendingClose(s.cleaners, ch) <==> PendingClose(s'.cleaners, ch);
  }

  lemma ClosesCleanDelete(s: State, c: nat)
    requires DoCleanDelete(s, c).Some? && Shape(s) && Closes(s)
    ensures Closes(DoCleanDelete(s, c).value)
  {
    var s' := DoCleanDelete(s, c).value;
    var ch := s.cleaners[c].ch;
    assert s'.cleaners[c].Deleted? && s'.cleaners[c].ch == ch;
    assert forall d :: PendingClose(s'.cleaners, d) <==> d == ch;
    assert forall d :: !PendingClose(s.cleaners, d);
  }

  lemma ClosesCleanClose(s: State, c: nat)
    requires DoCleanClose(s, c).Some? && Shape(s) && Closes(s)
    ensures Closes(DoCleanClose(s, c).value)
  {
    var s' := DoCleanClose(s, c).value;
    assert forall d :: PendingClose(s.cleaners, d) <==> d == s.cleaners[c].ch;
    assert forall d :: !PendingClose(s'.cleaners, d);
  }

  lemma ClosesStep(s: State, e: Event)
    requires Step(s, e).Some? && Shape(s) && Closes(s) && !Step(s, e).value.cleansOverlapped
    ensures Closes(Step(s, e).value)
  {
    match e {
      case CleanLoad(c, ns, key) => ClosesCleanLoad(s, c, ns, key);
      case CleanDelete(c) => ClosesCleanDelete(s, c);
      case CleanClose(c) => ClosesCleanClose(s, c);
      case _ => ClosesCallers(s, e);
    }
  }

  // ------------------------------------------------------------------------------------------
  // A key on which no Unlock ever took another channel's token.

  ghost predicate SoleLockers(chans: seq<Chan>, callers: seq<Caller>, stolen: set<string>) {
    && (forall t :: 0 <= t < |callers| && callers[t].Locked() && callers[t].key !in stolen ==>
                      callers[t].ch < |chans| && chans[callers[t].ch].full)
    && (forall t, u :: 0 <= t < u < |callers| && SameLock(callers[t], callers[u]) ==> callers[t].key in stolen)
  }

  predicate SameLock(a: Caller, b: Caller) { a.Locked() && b.Locked() && a.ch == b.ch }

  // A caller moves without taking the lock.
  lemma SoleLockersMove(chans: seq<Chan>, callers: seq<Caller>, stolen: set<string>, t: nat, x: Caller)
    requires SoleLockers(chans, callers, stolen) && t < |callers|
    requires x.Locked() ==> callers[t].Locked() && x.ch == callers[t].ch && x.key == callers[t].key
    ensures SoleLockers(chans, callers[t := x], stolen)
  {
  }

  lemma SoleLockersSend(s: State, t: nat)
    requires DoLockSend(s, t).Some? && Shape(s) && SoleLockers(s.chans, s.callers, s.stolen)
    ensures var s' := DoLockSend(s, t).value;
            SoleLockers(s'.chans, s'.callers, s'.stolen)
  {
  }

  lemma SoleLockersRecv(s: State, t: nat)
    requires DoUnlockRecv(s, t).Some? && Shape(s) && SoleLockers(s.chans, s.callers, s.stolen)
    ensures var s' := DoUnlockRecv(s, t).value;
            SoleLockers(s'.chans, s'.callers, s'.stolen)
  {
    var u := s.callers[t].from;
    SoleLockersMove(s.chans, s.callers, s.stolen, t, Finished);
    if s.chans[u].full && u == s.callers[t].ch {
      assert forall v :: 0 <= v < |s.callers| && v != t && s.callers[v].Locked() && s.callers[v].ch == u ==>
               s.callers[v].key in s.stolen;
    }
  }

  lemma SoleLockersLoad(s: State, ns: string, key: string)
    requires SoleLockers(s.chans, s.callers, s.stolen)
    ensures var s' := DoLockLoad(s, ns, key);
            SoleLockers(s'.chans, s'.callers, s'.stolen)
  {
  }

  // Regist and Clean.
  lemma SoleLockersOther(s: State, e: Event)
    requires Step(s, e).Some? && SoleLockers(s.chans, s.callers, s.stolen)
    requires e.Regist? || e.CleanLoad? || e.CleanDelete? || e.CleanClose?
    ensures var s' := Step(s, e).value;
            SoleLockers(s'.chans, s'.callers, s'.stolen)
  {
  }

  lemma SoleLockersStep(s: State, e: Event)
    requires Step(s, e).Some? && Shape(s) && SoleLockers(s.chans, s.callers, s.stolen)
    ensures var s' := Step(s, e).value;
            SoleLockers(s'.chans, s'.callers, s'.stolen)
  {
    match e {
      case LockSend(t) => SoleLockersSend(s, t);
      case UnlockRecv(t) => SoleLockersRecv(s, t);
      case UnlockLoad(t) => SoleLockersLeave(s, e);
      case UnlockTimeout(t) => SoleLockersLeave(s, e);
      case LockPanic(t) => SoleLockersLeave(s, e);
      case LockTimeout(t) => SoleLockersLeave(s, e);
      case LockLoad(ns, key) => SoleLockersLoad(s, ns, key);
      case _ => SoleLockersOther(s, e);
    }
  }

  lemma SoleLockersLeave(s: State, e: Event)
    requires Step(s, e).Some? && SoleLockers(s.chans, s.callers, s.stolen)
    requires e.LockPanic? || e.LockTimeout? || e.UnlockLoad? || e.UnlockTimeout?
    ensures var s' := Step(s, e).value;
            SoleLockers(s'.chans, s'.callers, s'.stolen)
  {
    SoleLockersMove(s.chans, s.callers, s.stolen, e.t, Step(s, e).value.callers[e.t]);
  }

  // ------------------------------------------------------------------------------------------
  // A key that was never cleaned.

  ghost predicate HistoryOk(s: State) {
    && (forall k :: k in s.stolen ==> s.deletes[k] > 0)
    && (forall k :: s.leaked[k] > 0 && s.deletes[k] == 0 ==> LateOn(s, k))
  }

  ghost predicate LateOn(s: State, k: string) {
    exists c :: c in s.late && c < |s.chans| && s.chans[c].key == k
  }

  // A second channel for a key, or one that is no longer stored, means the key was cleaned.
  lemma OldChannelMeansCleaned(s: State, k: string, c: ChanId)
    requires Shape(s) && Accounts(s) && ChanOk(s.chans, k, c) && !Current(s.slots, k, c)
    ensures s.deletes[k] > 0
  {
    SumAtLeast(s.chans, c, ChannelOf(k));
    if k in s.slots {
      var d := s.slots[k];
      SumAtLeastTwo(s.chans, if c < d then c else d, if c < d then d else c, ChannelOf(k));
    }
  }

  lemma HistoryUnlock(s: State, e: Event)
    requires Step(s, e).Some? && Shape(s) && Accounts(s) && HistoryOk(s)
    requires e.UnlockLoad? || e.UnlockRecv? || e.UnlockTimeout?
    ensures HistoryOk(Step(s, e).value)
  {
    var s' := Step(s, e).value;
    var k := s.callers[e.t].key;
    UnlockChanges(s, e);
    forall j | j != k && LateOn(s, j)
      ensures LateOn(s', j)
    {
      LateStays(s, s', j);
    }
    if s.deletes[k] == 0 {
      UnlockOfUncleaned(s, e);
    }
  }

  lemma UnlockChanges(s: State, e: Event)
    requires Step(s, e).Some? && Shape(s)
    requires e.UnlockLoad? || e.UnlockRecv? || e.UnlockTimeout?
    ensures var s', k := Step(s, e).value, s.callers[e.t].key;
            && s'.deletes == s.deletes && SameKeys(s.chans, s'.chans)
            && s'.stolen <= s.stolen + {k}
            && (forall j :: j != k ==> s'.leaked[j] == s.leaked[j])
            && (forall c :: c in s.late && s.chans[c].key != k ==> c in s'.late)
  {
  }

  lemma LateStays(s: State, s': State, j: string)
    requires LateOn(s, j) && SameKeys(s.chans, s'.chans)
    requires forall c :: c in s.late && c < |s.chans| && s.chans[c].key == j ==> c in s'.late
    ensures LateOn(s', j)
  {
    var c :| c in s.late && c < |s.chans| && s.chans[c].key == j;
    assert c in s'.late && c < |s'.chans| && s'.chans[c].key == j;
  }

  // On a key that was never cleaned there is one channel, and every caller works on it.
  lemma UncleanedIsCurrent(s: State, k: string, c: ChanId)
    requires Shape(s) && Accounts(s) && s.deletes[k] == 0 && ChanOk(s.chans, k, c)
    ensures Current(s.slots, k, c)
  {
    if !Current(s.slots, k, c) {
      OldChannelMeansCleaned(s, k, c);
    }
  }

  // While somebody holds such a key the token is there and is the holder's.
  lemma UncleanedHolder(s: State, k: string, t: nat)
    requires Shape(s) && Accounts(s) && s.deletes[k] == 0
    requires t < |s.callers| && s.callers[t].Locked() && s.callers[t].key == k
    ensures s.leaked[k] == 0 && s.chans[s.callers[t].ch].full
  {
    SumMonotone(s.chans, TokenOf(k), ChannelOf(k));
    SumAtLeast(s.callers, t, HolderOf(k));
    var d := SumWitness(s.chans, TokenOf(k));
    assert CallerOk(s.chans, s.callers[t]);
    UncleanedIsCurrent(s, k, s.callers[t].ch);
    UncleanedIsCurrent(s, k, d);
  }

  lemma UnlockOfUncleaned(s: State, e: Event)
    requires Step(s, e).Some? && Shape(s) && Accounts(s)
    requires e.UnlockLoad? || e.UnlockRecv? || e.UnlockTimeout?
    requires s.deletes[s.callers[e.t].key] == 0
    ensures Step(s, e).value.stolen == s.stolen
    ensures var k := s.callers[e.t].key;
            Step(s, e).value.leaked[k] == 0 || LateOn(Step(s, e).value, k)
  {
    var t, k := e.t, s.callers[e.t].key;
    UncleanedHolder(s, k, t);
    UncleanedIsCurrent(s, k, s.callers[t].ch);
    if !e.UnlockLoad? {
      UncleanedIsCurrent(s, k, s.callers[t].from);
      if e.UnlockTimeout? {
        assert s.callers[t].ch in Step(s, e).value.late;
      }
    }
  }

  lemma OtherStepsKeepHistory(s: State, e: Event)
    requires Step(s, e).Some? && !e.UnlockLoad? && !e.UnlockRecv? && !e.UnlockTimeout?
    ensures var s' := Step(s, e).value;
            && s'.stolen == s.stolen && s'.leaked == s.leaked && s'.late == s.late
            && (forall k :: s.deletes[k] <= s'.deletes[k]) && SameKeys(s.chans, s'.chans)
  {
  }

  lemma HistoryOther(s: State, e: Event)
    requires Step(s, e).Some? && HistoryOk(s)
    requires !e.UnlockLoad? && !e.UnlockRecv? && !e.UnlockTimeout?
    ensures HistoryOk(Step(s, e).value)
  {
    var s' := Step(s, e).value;
    OtherStepsKeepHistory(s, e);
    forall j | LateOn(s, j)
      ensures LateOn(s', j)
    {
      LateStays(s, s', j);
    }
  }

  // ------------------------------------------------------------------------------------------
  // A token left behind has no owner, on the keys where no Unlock took another channel's token.

  ghost predicate LateOk(chans: seq<Chan>, callers: seq<Caller>, stolen: set<string>, late: set<ChanId>) {
    forall c :: c in late && c < |chans| && chans[c].key !in stolen ==>
                  chans[c].full && forall t :: !LockedOn(callers, t, c)
  }

  lemma LateLock(s: State, e: Event)
    requires Step(s, e).Some? && LateOk(s.chans, s.callers, s.stolen, s.late)
    requires forall c :: c in s.late ==> c < |s.chans|
    requires e.LockLoad? || e.LockSend? || e.LockPanic? || e.LockTimeout? || e.UnlockLoad?
    ensures var s' := Step(s, e).value;
            LateOk(s'.chans, s'.callers, s'.stolen, s'.late)
  {
    var s' := Step(s, e).value;
    assert forall t, c :: LockedOn(s'.callers, t, c) && !(e.LockSend? && c == s.callers[e.t].ch) ==>
                            LockedOn(s.callers, t, c);
  }

  lemma LateRecv(s: State, t: nat)
    requires DoUnlockRecv(s, t).Some? && LateOk(s.chans, s.callers, s.stolen, s.late)
    ensures var s' := DoUnlockRecv(s, t).value;
            LateOk(s'.chans, s'.callers, s'.stolen, s'.late)
  {
    var s' := DoUnlockRecv(s, t).value;
    assert forall v, c :: LockedOn(s'.callers, v, c) ==> LockedOn(s.callers, v, c);
  }

  lemma LateTimeout(s: State, t: nat)
    requires DoUnlockTimeout(s, t).Some? && Shape(s) && LateOk(s.chans, s.callers, s.stolen, s.late)
    requires SoleLockers(s.chans, s.callers, s.stolen)
    ensures var s' := DoUnlockTimeout(s, t).value;
            LateOk(s'.chans, s'.callers, s'.stolen, s'.late)
  {
    var s', u := DoUnlockTimeout(s, t).value, s.callers[t].ch;
    assert CallerOk(s.chans, s.callers[t]);
    assert forall v, c :: LockedOn(s'.callers, v, c) ==> LockedOn(s.callers, v, c) && v != t;
    forall v: nat | LockedOn(s'.callers, v, u)
      ensures s.chans[u].key in s.stolen
    {
      assert SameLock(s.callers[v], s.callers[t]) && CallerOk(s.chans, s.callers[v]);
    }
  }

  lemma LateClean(s: State, e: Event)
    requires Step(s, e).Some? && LateOk(s.chans, s.callers, s.stolen, s.late)
    requires e.CleanLoad? || e.CleanDelete? || e.CleanClose? || e.Regist?
    ensures var s' := Step(s, e).value;
            LateOk(s'.chans, s'.callers, s'.stolen, s'.late)
  {
  }

  lemma LateStep(s: State, e: Event)
    requires Step(s, e).Some? && Shape(s) && LateOk(s.chans, s.callers, s.stolen, s.late)
    requires SoleLockers(s.chans, s.callers, s.stolen)
    ensures var s' := Step(s, e).value;
            LateOk(s'.chans, s'.callers, s'.stolen, s'.late)
  {
    if e.UnlockRecv? {
      LateRecv(s, e.t);
    } else if e.UnlockTimeout? {
      LateTimeout(s, e.t);
    } else if e.CleanLoad? || e.CleanDelete? || e.CleanClose? || e.Regist? {
      LateClean(s, e);
    } else {
      LateLock(s, e);
    }
  }

  // ------------------------------------------------------------------------------------------
  // Every interleaving.

  ghost predicate Inv(s: State) {
    && Shape(s)
    && Accounts(s)
    && Owners(s)
    && HistoryOk(s)
    && SoleLockers(s.chans, s.callers, s.stolen)
    && LateOk(s.chans, s.callers, s.stolen, s.late)
    && (!s.cleansOverlapped ==> Closes(s))
  }

  lemma AccountsStep(s: State, e: Event)
    requires Step(s, e).Some? && Shape(s) && Accounts(s)
    ensures Accounts(Step(s, e).value)
  {
    if e.LockLoad? || e.LockSend? || e.LockPanic? || e.LockTimeout? {
      AccountsLock(s, e);
    } else if e.UnlockLoad? || e.UnlockRecv? || e.UnlockTimeout? {
      AccountsUnlock(s, e);
    } else {
      AccountsClean(s, e);
    }
  }

  lemma OwnersStep(s: State, e: Event)
    requires Step(s, e).Some? && Shape(s) && Owners(s)
    ensures Owners(Step(s, e).value)
  {
    if e.LockLoad? || e.LockSend? || e.LockPanic? || e.LockTimeout? {
      OwnersLock(s, e);
    } else if e.UnlockRecv? {
      OwnersRecv(s, e.t);
    } else if e.UnlockLoad? || e.UnlockTimeout? {
      OwnersUnlock(s, e);
    } else {
      OwnersClean(s, e);
    }
  }

  lemma HistoryStep(s: State, e: Event)
    requires Step(s, e).Some? && Shape(s) && Accounts(s) && HistoryOk(s)
    ensures HistoryOk(Step(s, e).value)
  {
    if e.UnlockLoad? || e.UnlockRecv? || e.UnlockTimeout? {
      HistoryUnlock(s, e);
    } else {
      HistoryOther(s, e);
    }
  }

  lemma OverlapStays(s: State, e: Event)
    requires Step(s, e).Some? && s.cleansOverlapped
    ensures Step(s, e).value.cleansOverlapped
  {
  }

  lemma InvStep(s: State, e: Event)
    requires Inv(s) && Step(s, e).Some?
    ensures Inv(Step(s, e).value)
  {
    ShapeStep(s, e);
    AccountsStep(s, e);
    OwnersStep(s, e);
    HistoryStep(s, e);
    SoleLockersStep(s, e);
    LateStep(s, e);
    if s.cleansOverlapped {
      OverlapStays(s, e);
    } else if !Step(s, e).value.cleansOverlapped {
      ClosesStep(s, e);
    }
  }

  lemma {:induction false} InvRun(es: seq<Event>)
    requires Run(es).Some?
    ensures Inv(Run(es).value)
  {
    if es != [] {
      InvRun(es[..|es| - 1]);
      InvStep(Run(es[..|es| - 1]).value, es[|es| - 1]);
    }
  }

  // ------------------------------------------------------------------------------------------
  // Main results.

  /** In every interleaving the callers holding a key are at most the tokens in all channels ever
      made for it, the difference being the Unlocks that took nothing; and the tokens are at most the
      channels, of which all but the one in the map, if there is one, were deleted by Clean. */
  lemma LockCountingBound(es: seq<Event>, k: string)
    requires Run(es).Some?
    ensures var s := Run(es).value;
            && Tokens(s, k) == Holders(s, k) + s.leaked[k]
            && Holders(s, k) <= Tokens(s, k) <= Channels(s, k) <= 1 + s.deletes[k]
            && Channels(s, k) == s.deletes[k] + if k in s.slots then 1 else 0
  {
    InvRun(es);
    var s := Run(es).value;
    assert Tokens(s, k) == Holders(s, k) + s.leaked[k];
    SumMonotone(s.chans, TokenOf(k), ChannelOf(k));
  }

  lemma UncleanedHolderIsOn(s: State, k: string, t: nat, c: ChanId)
    requires Shape(s) && Accounts(s) && s.deletes[k] == 0 && ChanOk(s.chans, k, c)
    requires t < |s.callers| && s.callers[t].Locked() && s.callers[t].key == k
    ensures LockedOn(s.callers, t, c)
  {
    assert CallerOk(s.chans, s.callers[t]);
    UncleanedIsCurrent(s, k, c);
    UncleanedIsCurrent(s, k, s.callers[t].ch);
  }

  // A token left behind on a key that was never cleaned leaves nobody holding the key.
  lemma LateMeansNoHolder(s: State, k: string)
    requires Shape(s) && Accounts(s) && LateOk(s.chans, s.callers, s.stolen, s.late)
    requires s.deletes[k] == 0 && k !in s.stolen && LateOn(s, k)
    ensures Holders(s, k) == 0 && Tokens(s, k) >= 1
  {
    var c :| c in s.late && c < |s.chans| && s.chans[c].key == k;
    SumAtLeast(s.chans, c, TokenOf(k));
    if Holders(s, k) > 0 {
      var t := SumWitness(s.callers, HolderOf(k));
      UncleanedHolderIsOn(s, k, t, c);
      assert false;
    }
  }

  // An Unlock on key `k` takes the token of a channel other than the one its caller locked.
  predicate StealsNow(s: State, e: Event, k: string) {
    && e.UnlockRecv? && e.t < |s.callers| && s.callers[e.t].Releasing? && s.callers[e.t].key == k
    && var u := s.callers[e.t].from;
    u != s.callers[e.t].ch && u < |s.chans| && s.chans[u].full
  }

  predicate StealsAt(es: seq<Event>, n: nat, k: string) {
    n < |es| && Run(es[..n]).Some? && StealsNow(Run(es[..n]).value, es[n], k)
  }

  lemma StolenStep(s: State, e: Event, k: string)
    requires Step(s, e).Some?
    ensures k in Step(s, e).value.stolen <==> k in s.stolen || StealsNow(s, e, k)
  {
  }

  /** The record of stale Unlocks is exact: a key is in it if and only if at some point of the run an Unlock
      on it took another channel's token. */
  lemma {:induction false} StolenExact(es: seq<Event>, k: string)
    requires Run(es).Some?
    ensures k in Run(es).value.stolen <==> exists n :: StealsAt(es, n, k)
  {
    if es != [] {
      var front, e := es[..|es| - 1], es[|es| - 1];
      StolenExact(front, k);
      StolenStep(Run(front).value, e, k);
      StealsAtGrows(es, front, k);
    }
  }

  lemma StealsAtGrows(es: seq<Event>, front: seq<Event>, k: string)
    requires es != [] && front == es[..|es| - 1] && Run(front).Some?
    ensures (exists n :: StealsAt(es, n, k)) <==>
            (exists n :: StealsAt(front, n, k)) || StealsNow(Run(front).value, es[|es| - 1], k)
  {
    if n: nat :| StealsAt(es, n, k) {
      StealsAtFront(es, front, n, k);
    }
    if n: nat :| StealsAt(front, n, k) {
      StealsAtFront(es, front, n, k);
    }
    StealsAtFront(es, front, |front|, k);
  }

  lemma StealsAtFront(es: seq<Event>, front: seq<Event>, n: nat, k: string)
    requires es != [] && front == es[..|es| - 1] && Run(front).Some?
    ensures StealsAt(es, n, k) <==>
            StealsAt(front, n, k) || (n == |front| && StealsNow(Run(front).value, es[|front|], k))
  {
    if n < |front| {
      assert es[..n] == front[..n];
    }
  }

  /** A key that was never cleaned has at most one holder, and holders equal tokens if and only if no
      Unlock on it has lost to its timer with its token ready and left it there. */
  lemma MutualExclusionWithoutClean(es: seq<Event>, k: string)
    requires Run(es).Some? && Run(es).value.deletes[k] == 0
    ensures var s := Run(es).value;
            && Holders(s, k) <= 1
            && (Holders(s, k) == Tokens(s, k) <==> !LateOn(s, k))
            && k !in s.stolen
  {
    LockCountingBound(es, k);
    InvRun(es);
    if LateOn(Run(es).value, k) {
      LateMeansNoHolder(Run(es).value, k);
    }
  }

  /** No stuck key: a full channel in the map belongs to a caller that locked that very channel and has
      not finished Unlock, whatever stale Unlocks and Cleans happened, unless its own holder's Unlock
      lost to its timer with the token ready. On keys without a stale Unlock, cleaned or not, that
      exception is exact. */
  lemma NoStuckKey(es: seq<Event>, k: string)
    requires Run(es).Some? && k in Run(es).value.slots
    ensures var s := Run(es).value;
            var c := s.slots[k];
            && c < |s.chans|
            && (s.chans[c].full && c !in s.late ==> exists t :: LockedOn(s.callers, t, c))
            && (s.chans[c].full && k !in s.stolen ==> ((exists t :: LockedOn(s.callers, t, c)) <==> c !in s.late))
  {
    InvRun(es);
    StoredIsOwned(Run(es).value, k);
  }

  lemma StoredIsOwned(s: State, k: string)
    requires SlotsOk(s.slots, s.chans) && k in s.slots
    requires OwnersOk(s.slots, s.chans, s.callers, s.late) && LateOk(s.chans, s.callers, s.stolen, s.late)
    ensures var c := s.slots[k];
            && c < |s.chans|
            && (s.chans[c].full && c !in s.late ==> exists t :: LockedOn(s.callers, t, c))
            && (s.chans[c].full && k !in s.stolen ==> ((exists t :: LockedOn(s.callers, t, c)) <==> c !in s.late))
  {
    assert ChanOk(s.chans, k, s.slots[k]);
  }

  /** Generations: the map never holds a closed channel. If Cleans do not overlap, as under the cache
      lock, a channel is closed exactly once if it was deleted and that Clean is over, and never
      otherwise; so the channel closed is the one deleted. */
  lemma GenerationsSound(es: seq<Event>, c: ChanId)
    requires Run(es).Some? && c < |Run(es).value.chans|
    ensures var s := Run(es).value;
            && (Current(s.slots, s.chans[c].key, c) ==> s.chans[c].closes == 0)
            && (!s.cleansOverlapped ==>
                  s.chans[c].closes ==
                  if Current(s.slots, s.chans[c].key, c) || PendingClose(s.cleaners, c) then 0 else 1)
            && (!s.cleansOverlapped ==>
                  forall d :: d in s.cleaners && s.cleaners[d].Deleted? ==>
                                s.cleaners[d].gone == Some(s.cleaners[d].ch))
  {
    InvRun(es);
  }

  predicate WaitsOnClosed(s: State, t: nat) {
    && t < |s.callers| && s.callers[t].Waiting?
    && s.callers[t].ch < |s.chans| && s.chans[s.callers[t].ch].closes > 0
  }

  lemma ClosedChannelRefuses(s: State, e: Event, t: nat)
    requires WaitsOnClosed(s, t) && Step(s, e).Some?
    ensures t < |Step(s, e).value.callers|
    ensures WaitsOnClosed(Step(s, e).value, t) || Step(s, e).value.callers[t] == Refused
  {
    if e.LockLoad? || e.CleanLoad? || e.CleanDelete? || e.CleanClose? {
      ClosedStaysClosed(s, e, t);
    } else {
      ChansKeepCloses(s, e);
    }
  }

  lemma ClosedStaysClosed(s: State, e: Event, t: nat)
    requires WaitsOnClosed(s, t) && Step(s, e).Some?
    requires e.LockLoad? || e.CleanLoad? || e.CleanDelete? || e.CleanClose?
    ensures WaitsOnClosed(Step(s, e).value, t)
  {
  }

  lemma RefusedStays(s: State, e: Event, t: nat)
    requires Step(s, e).Some? && t < |s.callers| && s.callers[t] == Refused
    ensures t < |Step(s, e).value.callers| && Step(s, e).value.callers[t] == Refused
  {
  }

  /** A Lock that finds itself waiting on a closed channel never succeeds: in whatever way the run goes
      on, it waits or has been refused. */
  lemma {:induction false} NoLockOnClosed(es: seq<Event>, more: seq<Event>, t: nat)
    requires Run(es).Some? && WaitsOnClosed(Run(es).value, t) && Run(es + more).Some?
    ensures var s := Run(es + more).value;
            t < |s.callers| && (WaitsOnClosed(s, t) || s.callers[t] == Refused)
  {
    if more == [] {
      assert es + more == es;
    } else {
      var front, e := more[..|more| - 1], more[|more| - 1];
      assert es + more == (es + front) + [e];
      RunExtend(es + front, e);
      NoLockOnClosed(es, front, t);
      var s := Run(es + front).value;
      if WaitsOnClosed(s, t) {
        ClosedChannelRefuses(s, e, t);
      } else {
        RefusedStays(s, e, t);
      }
    }
  }

  // ------------------------------------------------------------------------------------------
  // The limits of the results above.

  lemma RunExtend(es: seq<Event>, e: Event)
    ensures Run(es + [e]) == match Run(es) case None => None case Some(s) => Step(s, e)
  {
    assert (es + [e])[..|es|] == es;
  }

  // After `n` rounds of Lock and Clean there are `n` holders and no channel is stored.
  lemma {:induction false} LockAndCleanRounds(ns: string, key: string, n: nat) returns (es: seq<Event>)
    requires ns != "" && key != ""
    ensures Run(es).Some?
    ensures var s, k := Run(es).value, LockKey(ns, key);
            && ns in s.spaces && s.cleaners == map[] && k !in s.slots
            && Holders(s, k) == n && s.deletes[k] == n && !s.cleansOverlapped
  {
    if n == 0 {
      es := [Regist(ns)];
      assert es[..0] == [];
    } else {
      es := LockAndCleanRounds(ns, key, n - 1);
      es := LockOnce(es, ns, key);
      es := CleanOnce(es, ns, key);
    }
  }

  // A Clean that nobody interrupts.
  lemma CleanOnce(es0: seq<Event>, ns: string, key: string) returns (es: seq<Event>)
    requires ns != "" && key != "" && Run(es0).Some?
    requires var s, k := Run(es0).value, LockKey(ns, key);
             s.cleaners == map[] && !s.cleansOverlapped && k in s.slots && s.slots[k] < |s.chans|
    ensures Run(es).Some?
    ensures var s, s', k := Run(es0).value, Run(es).value, LockKey(ns, key);
            && s'.spaces == s.spaces && s'.cleaners == map[] && !s'.cleansOverlapped && k !in s'.slots
            && s'.callers == s.callers && s'.deletes == s.deletes + multiset{k}
  {
    var s;
    es, s := Then(es0, Run(es0).value, CleanLoad(0, ns, key));
    es, s := Then(es, s, CleanDelete(0));
    es, s := Then(es, s, CleanClose(0));
    assert s.cleaners == map[];
  }

  // A Lock on a key without channel succeeds.
  lemma LockOnce(es0: seq<Event>, ns: string, key: string) returns (es: seq<Event>)
    requires Run(es0).Some?
    requires ns in Run(es0).value.spaces && LockKey(ns, key) !in Run(es0).value.slots
    ensures Run(es).Some?
    ensures var s, s', k := Run(es0).value, Run(es).value, LockKey(ns, key);
            && s'.spaces == s.spaces && s'.cleaners == s.cleaners && s'.deletes == s.deletes
            && s'.cleansOverlapped == s.cleansOverlapped
            && s'.slots == s.slots[k := |s.chans|] && |s'.chans| == |s.chans| + 1
            && Holders(s', k) == Holders(s, k) + 1
  {
    var s, k := Run(es0).value, LockKey(ns, key);
    var t := |s.callers|;
    RunExtend(es0, LockLoad(ns, key));
    es := es0 + [LockLoad(ns, key)];
    var s1 := Run(es).value;
    SumAppend(s.callers, Waiting(k, |s.chans|), HolderOf(k));
    RunExtend(es, LockSend(t));
    es := es + [LockSend(t)];
    SumUpdate(s1.callers, t, Holding(k, |s.chans|), HolderOf(k));
  }

  /** The counting bound is attained for every number of deletions: after `n` Cleans there can be
      `n + 1` callers holding the key at once. */
  lemma CountingBoundTight(ns: string, key: string, n: nat)
    requires ns != "" && key != ""
    ensures exists es :: Run(es).Some? && Run(es).value.deletes[LockKey(ns, key)] == n
                         && Holders(Run(es).value, LockKey(ns, key)) == n + 1
  {
    var es := LockAndCleanRounds(ns, key, n);
    es := LockOnce(es, ns, key);
  }

  // A channel, and nobody cleaning it yet.
  lemma FirstChannel() returns (es: seq<Event>, s: State)
    ensures Run(es) == Some(s) && s.spaces == {"p"} && s.slots == map["pa" := 0] && s.chans == [Chan("pa", false, 0)]
    ensures s.cleaners == map[]
  {
    assert LockKey("p", "a") == "pa";
    es, s := Then([], INIT, Regist("p"));
    es, s := Then(es, s, LockLoad("p", "a"));
  }

  // Two Cleans have both loaded channel 0.
  lemma TwoCleansLoad() returns (es: seq<Event>, s: State)
    ensures Run(es) == Some(s) && s.spaces == {"p"} && s.slots == map["pa" := 0] && s.chans == [Chan("pa", false, 0)]
    ensures s.cleaners == map[1 := Loaded("pa", 0), 2 := Loaded("pa", 0)]
  {
    assert LockKey("p", "a") == "pa";
    es, s := FirstChannel();
    es, s := Then(es, s, CleanLoad(1, "p", "a"));
    es, s := Then(es, s, CleanLoad(2, "p", "a"));
  }

  // And the first one has deleted it.
  lemma OverlappingCleansStart() returns (es: seq<Event>, s: State)
    ensures Run(es) == Some(s) && s.spaces == {"p"} && s.slots == map[] && s.chans == [Chan("pa", false, 0)]
    ensures s.cleaners == map[1 := Deleted("pa", 0, Some(0)), 2 := Loaded("pa", 0)]
  {
    es, s := TwoCleansLoad();
    es, s := Then(es, s, CleanDelete(1));
  }

  // The key is locked again between the two deletions.
  lemma SecondCleanFindsNewChannel() returns (es: seq<Event>, s: State)
    ensures Run(es) == Some(s) && s.slots == map["pa" := 1] && s.chans == [Chan("pa", false, 0), Chan("pa", false, 0)]
    ensures s.cleaners == map[1 := Deleted("pa", 0, Some(0)), 2 := Loaded("pa", 0)]
  {
    es, s := OverlappingCleansStart();
    assert LockKey("p", "a") == "pa";
    es, s := Then(es, s, LockLoad("p", "a"));
  }

  /** Overlapping Cleans break the generations: the second one can delete a channel of the next
      generation without closing it, and close the old one again. */
  lemma OverlappingCleansMisclose()
    ensures exists es :: Run(es).Some? &&
              var s := Run(es).value;
              && |s.chans| == 2 && s.chans[0].closes == 2 && s.chans[1].closes == 0
              && s.slots == map[] && s.cleaners == map[]
  {
    var es, s := SecondCleanFindsNewChannel();
    es, s := Then(es, s, CleanDelete(2));
    assert s.slots == map[];
    es, s := Then(es, s, CleanClose(1));
    es, s := Then(es, s, CleanClose(2));
    assert s.cleaners.Keys == {};
  }

  // One caller has the lock of a key nobody used before.
  lemma FirstLock(ns: string, key: string) returns (es: seq<Event>, s: State)
    ensures Run(es) == Some(s)
    ensures var k := LockKey(ns, key);
            s.slots == map[k := 0] && s.chans == [Chan(k, true, 0)] && s.callers == [Holding(k, 0)] && s.deletes[k] == 0
  {
    es, s := Then([], INIT, Regist(ns));
    es, s := Then(es, s, LockLoad(ns, key));
    es, s := Then(es, s, LockSend(0));
  }

  lemma NobodyHolds(s: State, k: string)
    requires s.callers == [Finished]
    ensures Holders(s, k) == 0 && forall t, c :: !LockedOn(s.callers, t, c)
  {
    assert s.callers[..0] == [];
    if Holders(s, k) > 0 {
      var t := SumWitness(s.callers, HolderOf(k));
      assert false;
    }
  }

  /** The exception in NoStuckKey is real: when both cases of Unlock's select are ready the timer may
      win, and then the channel stays full with nobody to empty it. */
  lemma TimedOutUnlockSticks(ns: string, key: string)
    ensures exists es :: Run(es).Some? &&
              var s, k := Run(es).value, LockKey(ns, key);
              && k in s.slots && s.slots[k] < |s.chans| && s.chans[s.slots[k]].full
              && s.deletes[k] == 0 && Holders(s, k) == 0 && (forall t :: !LockedOn(s.callers, t, s.slots[k]))
  {
    var k := LockKey(ns, key);
    var es, s := FirstLock(ns, key);
    es, s := Then(es, s, UnlockLoad(0));
    es, s := Then(es, s, UnlockTimeout(0));
    NobodyHolds(s, k);
    assert Run(es) == Some(s) && s.slots[k] == 0 && s.chans[0].full;
  }

  lemma Then(es: seq<Event>, s: State, e: Event) returns (es': seq<Event>, s': State)
    requires Run(es) == Some(s) && Step(s, e).Some?
    ensures es' == es + [e] && Some(s') == Step(s, e) == Run(es')
  {
    RunExtend(es, e);
    es', s' := es + [e], Step(s, e).value;
  }
}
