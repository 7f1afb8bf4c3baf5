/** The per-key lock of funcs.go as a state machine over its atomic steps. A lock is a channel of
    capacity one stored in a concurrent map; sending takes it, receiving gives it back, and Clean
    deletes the channel from the map and closes it, so that the next Lock starts a new generation. */
module KeyMutex {
  import opened Counting
  import opened StreamKey

  type ChanId = nat

  /** `closes` counts executed close() calls; every one after the first panics and is recovered. */
  datatype Chan = Chan(key: string, full: bool, closes: nat)

  /** Where one goroutine that called Lock (and, if it succeeded, later Unlock) is. */
  datatype Caller =
    | Waiting(key: string, ch: ChanId)                    // in Lock's select
    | Holding(key: string, ch: ChanId)                    // Lock returned nil
    | Releasing(key: string, ch: ChanId, from: ChanId)    // in Unlock's select, on channel `from`
    | Refused                                             // Lock returned an error
    | Finished                                            // Unlock returned
  {
    // The caller has the lock and has not finished giving it back.
    predicate Locked() { Holding? || Releasing? }
  }

  /** Where one goroutine inside Clean is. `gone` is the channel its Delete removed from the map. */
  datatype Cleaner =
    | Loaded(key: string, ch: ChanId)
    | Deleted(key: string, ch: ChanId, gone: Option<ChanId>)

  datatype State = State(
    spaces: set<string>,               // registered namespaces
    slots: map<string, ChanId>,        // the concurrent map, by lock key
    chans: seq<Chan>,                  // every channel ever stored, oldest first
    callers: seq<Caller>,
    cleaners: map<nat, Cleaner>,
    // What happened so far; no step depends on it.
    deletes: multiset<string>,         // deletions by Clean, by key
    leaked: multiset<string>,          // Unlocks that finished without taking a token, by key
    late: set<ChanId>,                 // full channels whose own holder's Unlock lost to its timer
    stolen: set<string>,               // keys on which an Unlock took a token of another channel
    cleansOverlapped: bool)            // two Cleans were in progress at once

  const INIT := State({}, map[], [], [], map[], multiset{}, multiset{}, {}, {}, false)

  datatype Event =
    | Regist(ns: string)
    | LockLoad(ns: string, key: string)
    | LockSend(t: nat)
    | LockPanic(t: nat)
    | LockTimeout(t: nat)
    | UnlockLoad(t: nat)
    | UnlockRecv(t: nat)
    | UnlockTimeout(t: nat)
    | CleanLoad(c: nat, ns: string, key: string)
    | CleanDelete(c: nat)
    | CleanClose(c: nat)

  // ------------------------------------------------------------------------------------------
  // The atomic steps. `None` means the step cannot be taken.

  /** Lock's first two map operations. Namespaces are never removed, so the namespace test and the
      LoadOrStore that follows it can be taken together. The new caller's id is |callers|. */
  function DoLockLoad(s: State, ns: string, key: string): State {
    var k := LockKey(ns, key);
    if ns !in s.spaces then s.(callers := s.callers + [Refused])
    else if k in s.slots then s.(callers := s.callers + [Waiting(k, s.slots[k])])
    else
      s.(slots := s.slots[k := |s.chans|],
         chans := s.chans + [Chan(k, false, 0)],
         callers := s.callers + [Waiting(k, |s.chans|)])
  }

  function DoLockSend(s: State, t: nat): Option<State> {
    if t < |s.callers| && s.callers[t].Waiting? && s.callers[t].ch < |s.chans| then
      var c := s.callers[t].ch;
      if s.chans[c].closes == 0 && !s.chans[c].full then
        Some(s.(chans := s.chans[c := s.chans[c].(full := true)],
                callers := s.callers[t := Holding(s.callers[t].key, c)]))
      else None
    else None
  }

  function DoLockPanic(s: State, t: nat): Option<State> {
    if t < |s.callers| && s.callers[t].Waiting? && s.callers[t].ch < |s.chans|
       && s.chans[s.callers[t].ch].closes > 0
    then Some(s.(callers := s.callers[t := Refused])) else None
  }

  /** The timer may win even when the channel is ready. */
  function DoLockTimeout(s: State, t: nat): Option<State> {
    if t < |s.callers| && s.callers[t].Waiting?
    then Some(s.(callers := s.callers[t := Refused])) else None
  }

  function DoUnlockLoad(s: State, t: nat): Option<State> {
    if t < |s.callers| && s.callers[t].Holding? then
      var k := s.callers[t].key;
      if k in s.slots then Some(s.(callers := s.callers[t := Releasing(k, s.callers[t].ch, s.slots[k])]))
      else Some(s.(callers := s.callers[t := Finished], leaked := s.leaked + multiset{k}))
    else None
  }

  /** Receiving from a closed channel that holds no token succeeds at once and takes nothing. */
  function DoUnlockRecv(s: State, t: nat): Option<State> {
    if t < |s.callers| && s.callers[t].Releasing? && s.callers[t].from < |s.chans| then
      var Releasing(k, c, u) := s.callers[t];
      if s.chans[u].full then
        Some(s.(chans := s.chans[u := s.chans[u].(full := false)],
                callers := s.callers[t := Finished],
                late := s.late - {u},
                stolen := if u != c then s.stolen + {k} else s.stolen))
      else if s.chans[u].closes > 0 then
        Some(s.(callers := s.callers[t := Finished], leaked := s.leaked + multiset{k}))
      else None
    else None
  }

  function DoUnlockTimeout(s: State, t: nat): Option<State> {
    if t < |s.callers| && s.callers[t].Releasing? && s.callers[t].from < |s.chans| then
      var Releasing(k, c, u) := s.callers[t];
      Some(s.(callers := s.callers[t := Finished],
              leaked := s.leaked + multiset{k},
              late := if s.chans[u].full && u == c then s.late + {u} else s.late))
    else None
  }

  /** Clean returns without effect for an empty namespace or key, and when nothing is stored. */
  function DoCleanLoad(s: State, c: nat, ns: string, key: string): Option<State> {
    if c in s.cleaners then None
    else
      var k := LockKey(ns, key);
      if key == "" || ns == "" || k !in s.slots then Some(s)
      else Some(s.(cleaners := s.cleaners[c := Loaded(k, s.slots[k])],
                   cleansOverlapped := s.cleansOverlapped || s.cleaners != map[]))
  }

  function DoCleanDelete(s: State, c: nat): Option<State> {
    if c in s.cleaners && s.cleaners[c].Loaded? then
      var Loaded(k, ch) := s.cleaners[c];
      if k in s.slots then
        Some(s.(slots := s.slots - {k},
                cleaners := s.cleaners[c := Deleted(k, ch, Some(s.slots[k]))],
                deletes := s.deletes + multiset{k}))
      else Some(s.(cleaners := s.cleaners[c := Deleted(k, ch, None)]))
    else None
  }

  function DoCleanClose(s: State, c: nat): Option<State> {
    if c in s.cleaners && s.cleaners[c].Deleted? && s.cleaners[c].ch < |s.chans| then
      var ch := s.cleaners[c].ch;
      Some(s.(chans := s.chans[ch := s.chans[ch].(closes := s.chans[ch].closes + 1)],
              cleaners := s.cleaners - {c}))
    else None
  }

  function Step(s: State, e: Event): Option<State> {
    match e
    case Regist(ns) => Some(s.(spaces := s.spaces + {ns}))
    case LockLoad(ns, key) => Some(DoLockLoad(s, ns, key))
    case LockSend(t) => DoLockSend(s, t)
    case LockPanic(t) => DoLockPanic(s, t)
    case LockTimeout(t) => DoLockTimeout(s, t)
    case UnlockLoad(t) => DoUnlockLoad(s, t)
    case UnlockRecv(t) => DoUnlockRecv(s, t)
    case UnlockTimeout(t) => DoUnlockTimeout(s, t)
    case CleanLoad(c, ns, key) => DoCleanLoad(s, c, ns, key)
    case CleanDelete(c) => DoCleanDelete(s, c)
    case CleanClose(c) => DoCleanClose(s, c)
  }

  /** The state after a whole interleaving; `None` when some step in it could not be taken. */
  function Run(es: seq<Event>): Option<State> {
    if es == [] then Some(INIT)
    else
      match Run(es[..|es| - 1])
      case None => None
      case Some(s) => Step(s, es[|es| - 1])
  }

  // ------------------------------------------------------------------------------------------
  // Counting.

  function HolderOf(k: string): Caller -> nat {
    (c: Caller) => if c.Locked() && c.key == k then 1 else 0
  }

  function TokenOf(k: string): Chan -> nat {
    (c: Chan) => if c.key == k && c.full then 1 else 0
  }

  function ChannelOf(k: string): Chan -> nat {
    (c: Chan) => if c.key == k then 1 else 0
  }

  function Holders(s: State, k: string): nat { Sum(s.callers, HolderOf(k)) }
  function Tokens(s: State, k: string): nat { Sum(s.chans, TokenOf(k)) }
  function Channels(s: State, k: string): nat { Sum(s.chans, ChannelOf(k)) }
}
