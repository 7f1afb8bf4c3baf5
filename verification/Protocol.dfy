/** The reuse-stream request protocol as a state machine: any number of clients calling
    RequestWithTimeout or SendMsgAfterClose (impl.go), sharing the key lock (funcs.go), the stream
    cache (pool.go) and FIFO streams whose far ends run the server loop (pool.go). */
module Protocol {
  import opened Counting
  import opened RawData
  import opened StreamKey
  import opened StreamCache
  import opened ServerLoop
  import KM = KeyMutex

  datatype Kind = RequestWithTimeout | SendMsgAfterClose

  /** How a call ends: with an error, or having taken the frame `reply` from stream `sid`. */
  datatype Result = Failed | Got(sid: nat, reply: RawData)

  datatype Phase =
    | Locking                 // takelock
    | Locked                  // before asc.get
    | Missed                  // get missed; before NewStream
    | Hit(sid: nat)           // get returned a pooled stream; before the write
    | Opened(sid: nat)        // fresh stream; before the write
    | Wrote(sid: nat)         // fresh stream written; before put
    | Awaiting(sid: nat)      // before FromReader
    | Dropping                // the exchange failed; before del2
    | DropLocked              // in del2 with the cache lock; before Clean
    | DropLoaded              // in Clean, channel loaded
    | DropDeleted             // in Clean, channel deleted
    | DropPool                // in del2, after Clean
    | Leaving(res: Result)    // before the deferred unlock
    | Unlocking(res: Result)  // in Unlock's select
    | Done(res: Result)
  {
    predicate HasStream() { Hit? || Opened? || Wrote? || Awaiting? }

    // Between taking the lock and, after a failure, deleting its channel.
    predicate Critical() { Locked? || Missed? || HasStream() || Dropping? || DropLocked? || DropLoaded? }

    predicate InDel2() { DropLocked? || DropLoaded? || DropDeleted? || DropPool? }

    predicate Holds() { Critical() || DropDeleted? || DropPool? || Leaving? }

    predicate Ended() { Leaving? || Unlocking? || Done? }
  }

  /** `to` is the canonical peer id, so it is also what the stream's connection reports. */
  datatype Call = Call(kind: Kind, to: string, proto: string, msg: seq<byte>, phase: Phase) {
    function Key(): string { LockKey(proto, to) }
  }

  datatype Request = Request(call: nat, frame: RawData)

  /** A stream with its whole history. `reqs` reached the far end in this order; its loop has served
      the first |acts| of them and written `replies`; this end has read the first `taken`. */
  datatype Stream = Stream(
    handle: Handle,
    reqs: seq<Request>,
    acts: seq<Act>,
    replies: seq<RawData>,
    taken: nat,
    server: Server,
    tainted: bool)  // an exchange on it failed

  datatype State = State(
    km: KM.State,
    cache: Cache,
    cacheLock: Option<nat>,    // the call inside del2
    streams: seq<Stream>,
    calls: seq<Call>,
    overlapped: set<string>)   // keys on which a call started while another had not returned

  const INIT := State(KM.INIT, Cache(map[], multiset{}), None, [], [], {})

  // ------------------------------------------------------------------------------------------
  // Small parts of the steps.

  predicate At(s: State, t: nat, p: Phase) { t < |s.calls| && s.calls[t].phase == p }

  function Go(calls: seq<Call>, t: nat, p: Phase): seq<Call>
    requires t < |calls|
  {
    calls[t := calls[t].(phase := p)]
  }

  // A call on key `k` that has not returned.
  predicate Active(calls: seq<Call>, t: nat, k: string) {
    t < |calls| && calls[t].Key() == k && !calls[t].phase.Done?
  }

  function Append(st: Stream, call: nat, uuid: seq<byte>, msg: seq<byte>): Stream {
    st.(reqs := st.reqs + [Request(call, NewRawData(None, uuid, msg))])
  }

  // ------------------------------------------------------------------------------------------
  // takelock

  function DoStart(s: State, kind: Kind, to: string, proto: string, msg: seq<byte>): Option<State> {
    if proto in s.km.spaces && '@' !in to then
      var c := Call(kind, to, proto, msg, Locking);
      Some(s.(km := KM.DoLockLoad(s.km, proto, to),
              calls := s.calls + [c],
              overlapped := if exists u :: 0 <= u < |s.calls| && Active(s.calls, u, c.Key())
                            then s.overlapped + {c.Key()} else s.overlapped))
    else None
  }

  function DoLockOk(s: State, t: nat): Option<State> {
    if At(s, t, Locking) && KM.DoLockSend(s.km, t).Some? then
      Some(s.(km := KM.DoLockSend(s.km, t).value, calls := Go(s.calls, t, Locked)))
    else None
  }

  // The closed channel's panic is recovered into an error; a timeout is an error too.
  function DoLockFail(s: State, t: nat, timeout: bool): Option<State> {
    var km := if timeout then KM.DoLockTimeout(s.km, t) else KM.DoLockPanic(s.km, t);
    if At(s, t, Locking) && km.Some? then Some(s.(km := km.value, calls := Go(s.calls, t, Done(Failed)))) else None
  }

  // ------------------------------------------------------------------------------------------
  // sendMsg

  function DoGetHit(s: State, t: nat, h: Handle): Option<State> {
    if At(s, t, Locked) && s.cacheLock.None? && h in Candidates(s.cache.pool, s.calls[t].to, s.calls[t].proto) then
      Some(s.(calls := Go(s.calls, t, Hit(h.id))))
    else None
  }

  function DoGetMiss(s: State, t: nat): Option<State> {
    if At(s, t, Locked) && s.cacheLock.None? && Candidates(s.cache.pool, s.calls[t].to, s.calls[t].proto) == {} then
      Some(s.(calls := Go(s.calls, t, Missed)))
    else None
  }

  function DoOpenFail(s: State, t: nat): Option<State> {
    if At(s, t, Missed) then Some(s.(calls := Go(s.calls, t, Leaving(Failed)))) else None
  }

  function DoOpen(s: State, t: nat, remote: string, local: string): Option<State> {
    if At(s, t, Missed) then
      var sid := |s.streams|;
      var h := Handle(sid, s.calls[t].to, s.calls[t].proto, remote, local);
      Some(s.(streams := s.streams + [Stream(h, [], [], [], 0, START, false)],
              calls := Go(s.calls, t, Opened(sid))))
    else None
  }

  predicate ToWrite(s: State, t: nat) {
    && t < |s.calls| && (s.calls[t].phase.Hit? || s.calls[t].phase.Opened?)
    && s.calls[t].phase.sid < |s.streams|
  }

  function DoWrite(s: State, t: nat, uuid: seq<byte>): Option<State> {
    if ToWrite(s, t) then
      var c := s.calls[t];
      var sid := c.phase.sid;
      Some(s.(streams := s.streams[sid := Append(s.streams[sid], t, uuid, c.msg)],
              calls := Go(s.calls, t, if c.phase.Hit? then Awaiting(sid) else Wrote(sid))))
    else None
  }

  /** A failed write may or may not have reached the far end. A pooled stream is dropped from the
      cache by del2; a fresh one was never put there. */
  function DoWriteFail(s: State, t: nat, uuid: seq<byte>, delivered: bool): Option<State> {
    if ToWrite(s, t) then
      var c := s.calls[t];
      var sid := c.phase.sid;
      var st := if delivered then Append(s.streams[sid], t, uuid, c.msg) else s.streams[sid];
      Some(s.(streams := s.streams[sid := st.(tainted := true)],
              calls := Go(s.calls, t, if c.phase.Hit? then Dropping else Leaving(Failed))))
    else None
  }

  function DoPut(s: State, t: nat): Option<State> {
    if t < |s.calls| && s.calls[t].phase.Wrote? && s.calls[t].phase.sid < |s.streams| && s.cacheLock.None? then
      var sid := s.calls[t].phase.sid;
      Some(s.(cache := Put(s.cache, s.streams[sid].handle), calls := Go(s.calls, t, Awaiting(sid))))
    else None
  }

  // ------------------------------------------------------------------------------------------
  // FromReader

  predicate ToRead(s: State, t: nat) {
    t < |s.calls| && s.calls[t].phase.Awaiting? && s.calls[t].phase.sid < |s.streams|
  }

  /** The next frame is taken as it comes; only its error text is looked at. */
  function DoRead(s: State, t: nat): Option<State> {
    if ToRead(s, t) && s.streams[s.calls[t].phase.sid].taken < |s.streams[s.calls[t].phase.sid].replies| then
      var sid := s.calls[t].phase.sid;
      var st := s.streams[sid];
      var rsp := st.replies[st.taken];
      Some(s.(streams := s.streams[sid := st.(taken := st.taken + 1, tainted := st.tainted || !ClientAccepts(rsp))],
              calls := Go(s.calls, t, if ClientAccepts(rsp) then Leaving(Got(sid, rsp)) else Dropping)))
    else None
  }

  // Deadline, reset or decode error; a late reply stays unread.
  function DoReadFail(s: State, t: nat): Option<State> {
    if ToRead(s, t) then
      var sid := s.calls[t].phase.sid;
      Some(s.(streams := s.streams[sid := s.streams[sid].(tainted := true)], calls := Go(s.calls, t, Dropping)))
    else None
  }

  // ------------------------------------------------------------------------------------------
  // del2(to, proto, "") after a failure: cleanlock, then the pool, all under the cache lock

  function DoDelLock(s: State, t: nat): Option<State> {
    if At(s, t, Dropping) && s.cacheLock.None? then
      Some(s.(cacheLock := Some(t), calls := Go(s.calls, t, DropLocked)))
    else None
  }

  function DoDelLoad(s: State, t: nat): Option<State> {
    if At(s, t, DropLocked) then
      var km := KM.DoCleanLoad(s.km, t, s.calls[t].proto, s.calls[t].to);
      if km.Some? then
        Some(s.(km := km.value,
                calls := Go(s.calls, t, if km.value.cleaners == s.km.cleaners then DropPool else DropLoaded)))
      else None
    else None
  }

  function DoDelDelete(s: State, t: nat): Option<State> {
    if At(s, t, DropLoaded) && KM.DoCleanDelete(s.km, t).Some? then
      Some(s.(km := KM.DoCleanDelete(s.km, t).value, calls := Go(s.calls, t, DropDeleted)))
    else None
  }

  function DoDelClose(s: State, t: nat): Option<State> {
    if At(s, t, DropDeleted) && KM.DoCleanClose(s.km, t).Some? then
      Some(s.(km := KM.DoCleanClose(s.km, t).value, calls := Go(s.calls, t, DropPool)))
    else None
  }

  function DoDelPool(s: State, t: nat): Option<State> {
    if At(s, t, DropPool) && Wf(s.cache.pool) then
      Some(s.(cache := Del2(s.cache, s.calls[t].to, s.calls[t].proto, ""),
              cacheLock := None,
              calls := Go(s.calls, t, Leaving(Failed))))
    else None
  }

  // ------------------------------------------------------------------------------------------
  // The deferred unlock

  function DoUnlockLoad(s: State, t: nat): Option<State> {
    if t < |s.calls| && s.calls[t].phase.Leaving? && KM.DoUnlockLoad(s.km, t).Some? then
      var km := KM.DoUnlockLoad(s.km, t).value;
      var res := s.calls[t].phase.res;
      Some(s.(km := km,
              calls := Go(s.calls, t, if s.calls[t].Key() in s.km.slots then Unlocking(res) else Done(res))))
    else None
  }

  function DoUnlockEnd(s: State, t: nat, timeout: bool): Option<State> {
    var km := if timeout then KM.DoUnlockTimeout(s.km, t) else KM.DoUnlockRecv(s.km, t);
    if t < |s.calls| && s.calls[t].phase.Unlocking? && km.Some? then
      Some(s.(km := km.value, calls := Go(s.calls, t, Done(s.calls[t].phase.res))))
    else None
  }

  // ------------------------------------------------------------------------------------------
  // The rest of the world

  /** The disconnect hook runs del2(id, "", ""). Its Clean has an empty namespace and does nothing,
      so the whole call is one step under the cache lock. */
  function DoDisconnect(s: State, id: string): Option<State> {
    if s.cacheLock.None? && Wf(s.cache.pool) then Some(s.(cache := Del2(s.cache, id, "", ""))) else None
  }

  /** The far end takes the next request. Handler error texts are not empty. */
  function DoServe(s: State, sid: nat, act: Act, write: Delivery): Option<State> {
    if sid < |s.streams| && s.streams[sid].server.up && |s.streams[sid].acts| < |s.streams[sid].reqs|
       && act.err != Some("") then
      var st := s.streams[sid];
      var inp := Incoming(st.reqs[|st.acts|].frame, None);
      var turn := Iterate(st.server, inp, act, write);
      Some(s.(streams := s.streams[sid :=
                st.(server := turn.server,
                    acts := if turn.out.Some? && ClientAccepts(turn.out.value) then st.acts + [act] else st.acts,
                    replies := st.replies + if turn.out.Some? then [turn.out.value] else [])]))
    else None
  }

  /** The far end's FromReader fails, at any time, possibly with part of a frame decoded. */
  function DoServeReadError(s: State, sid: nat, part: RawData, text: string, write: Delivery): Option<State> {
    if sid < |s.streams| && s.streams[sid].server.up && text != "" then
      var st := s.streams[sid];
      var turn := Iterate(st.server, Incoming(part, Some(text)), Act(0, [], None), write);
      Some(s.(streams := s.streams[sid :=
                st.(server := turn.server,
                    replies := st.replies + if turn.out.Some? then [turn.out.value] else [])]))
    else None
  }

  datatype Event =
    | Regist(pid: string)
    | Start(kind: Kind, to: string, proto: string, msg: seq<byte>)
    | LockOk(t: nat)
    | LockFail(t: nat, timeout: bool)
    | GetHit(t: nat, h: Handle)
    | GetMiss(t: nat)
    | OpenFail(t: nat)
    | Open(t: nat, remote: string, local: string)
    | Write(t: nat, uuid: seq<byte>)
    | WriteFail(t: nat, uuid: seq<byte>, delivered: bool)
    | PutStream(t: nat)
    | Read(t: nat)
    | ReadFail(t: nat)
    | DelLock(t: nat)
    | DelLoad(t: nat)
    | DelDelete(t: nat)
    | DelClose(t: nat)
    | DelPool(t: nat)
    | UnlockLoad(t: nat)
    | UnlockEnd(t: nat, timeout: bool)
    | Disconnect(id: string)
    | Serve(sid: nat, act: Act, write: Delivery)
    | ServeReadError(sid: nat, part: RawData, text: string, write: Delivery)

  function Step(s: State, e: Event): Option<State> {
    match e
    case Regist(pid) => Some(s.(km := s.km.(spaces := s.km.spaces + {pid})))
    case Start(kind, to, proto, msg) => DoStart(s, kind, to, proto, msg)
    case LockOk(t) => DoLockOk(s, t)
    case LockFail(t, timeout) => DoLockFail(s, t, timeout)
    case GetHit(t, h) => DoGetHit(s, t, h)
    case GetMiss(t) => DoGetMiss(s, t)
    case OpenFail(t) => DoOpenFail(s, t)
    case Open(t, remote, local) => DoOpen(s, t, remote, local)
    case Write(t, uuid) => DoWrite(s, t, uuid)
    case WriteFail(t, uuid, delivered) => DoWriteFail(s, t, uuid, delivered)
    case PutStream(t) => DoPut(s, t)
    case Read(t) => DoRead(s, t)
    case ReadFail(t) => DoReadFail(s, t)
    case DelLock(t) => DoDelLock(s, t)
    case DelLoad(t) => DoDelLoad(s, t)
    case DelDelete(t) => DoDelDelete(s, t)
    case DelClose(t) => DoDelClose(s, t)
    case DelPool(t) => DoDelPool(s, t)
    case UnlockLoad(t) => DoUnlockLoad(s, t)
    case UnlockEnd(t, timeout) => DoUnlockEnd(s, t, timeout)
    case Disconnect(id) => DoDisconnect(s, id)
    case Serve(sid, act, write) => DoServe(s, sid, act, write)
    case ServeReadError(sid, part, text, write) => DoServeReadError(s, sid, part, text, write)
  }

  function Run(es: seq<Event>): Option<State> {
    if es == [] then Some(INIT)
    else
      match Run(es[..|es| - 1])
      case None => None
      case Some(s) => Step(s, es[|es| - 1])
  }
}
