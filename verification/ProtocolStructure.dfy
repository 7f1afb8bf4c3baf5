/** Every protocol step keeps calls, key lock and cache lock in step with each other. */
module ProtocolStructure {
  import opened Counting
  import opened RawData
  import opened StreamKey
  import opened Protocol
  import opened ProtocolInv
  import KM = KeyMutex
  import KP = KeyMutexProofs

  // ------------------------------------------------------------------------------------------
  // On the key lock a protocol step is one of the lock's own steps, or nothing.

  function KmEvent(s: State, e: Event): Option<KM.Event> {
    match e
    case Regist(pid) => Some(KM.Regist(pid))
    case Start(_, to, proto, _) => Some(KM.LockLoad(proto, to))
    case LockOk(t) => Some(KM.LockSend(t))
    case LockFail(t, timeout) => Some(if timeout then KM.LockTimeout(t) else KM.LockPanic(t))
    case DelLoad(t) => if t < |s.calls| then Some(KM.CleanLoad(t, s.calls[t].proto, s.calls[t].to)) else None
    case DelDelete(t) => Some(KM.CleanDelete(t))
    case DelClose(t) => Some(KM.CleanClose(t))
    case UnlockLoad(t) => Some(KM.UnlockLoad(t))
    case UnlockEnd(t, timeout) => Some(if timeout then KM.UnlockTimeout(t) else KM.UnlockRecv(t))
    case _ => None
  }

  lemma KmMoves(s: State, e: Event)
    requires Step(s, e).Some?
    ensures match KmEvent(s, e)
            case None => Step(s, e).value.km == s.km
            case Some(f) => KM.Step(s.km, f) == Some(Step(s, e).value.km)
  {
  }

  lemma LockInvStep(s: State, e: Event)
    requires Step(s, e).Some? && KP.Inv(s.km)
    ensures KP.Inv(Step(s, e).value.km)
  {
    KmMoves(s, e);
    if KmEvent(s, e).Some? {
      KP.InvStep(s.km, KmEvent(s, e).value);
    }
  }

  // ------------------------------------------------------------------------------------------

  lemma SyncGo(calls: seq<Call>, callers: seq<KM.Caller>, t: nat, p: Phase, w: KM.Caller)
    requires SyncOk(calls, callers) && t < |calls| && Sync(calls[t].(phase := p), w)
    ensures SyncOk(Go(calls, t, p), callers[t := w])
  {
  }

  lemma SyncStart(s: State, kind: Kind, to: string, proto: string, msg: seq<byte>)
    requires DoStart(s, kind, to, proto, msg).Some? && Structure(s)
    ensures var s' := DoStart(s, kind, to, proto, msg).value;
            SyncOk(s'.calls, s'.km.callers)
  {
  }

  // The call whose phase a step changes.
  function Mover(e: Event): Option<nat> {
    match e
    case LockOk(t) => Some(t)
    case LockFail(t, _) => Some(t)
    case GetHit(t, _) => Some(t)
    case GetMiss(t) => Some(t)
    case OpenFail(t) => Some(t)
    case Open(t, _, _) => Some(t)
    case Write(t, _) => Some(t)
    case WriteFail(t, _, _) => Some(t)
    case PutStream(t) => Some(t)
    case Read(t) => Some(t)
    case ReadFail(t) => Some(t)
    case DelLock(t) => Some(t)
    case DelLoad(t) => Some(t)
    case DelDelete(t) => Some(t)
    case DelClose(t) => Some(t)
    case DelPool(t) => Some(t)
    case UnlockLoad(t) => Some(t)
    case UnlockEnd(t, _) => Some(t)
    case _ => None
  }

  // Steps of a call that also move its caller in the lock.
  predicate OnLock(e: Event) { e.LockOk? || e.LockFail? || e.UnlockLoad? || e.UnlockEnd? }

  /** A step by call `t` changes that call's phase and that caller's place in the lock, and nothing
      else about calls and callers; a step of the world changes neither. */
  lemma OnlyMoverMoves(s: State, e: Event)
    requires Step(s, e).Some? && !e.Start?
    ensures match Mover(e)
            case None => Step(s, e).value.calls == s.calls && Step(s, e).value.km.callers == s.km.callers
            case Some(t) =>
              var s' := Step(s, e).value;
              && t < |s.calls| == |s'.calls|
              && s'.calls == Go(s.calls, t, s'.calls[t].phase)
              && (|s.km.callers| == |s.calls| ==>
                    |s'.km.callers| == |s.km.callers| && s'.km.callers == s.km.callers[t := s'.km.callers[t]])
  {
    MovesCalls(s, e);
    MovesCallers(s, e);
  }

  lemma MovesCalls(s: State, e: Event)
    requires Step(s, e).Some? && !e.Start?
    ensures match Mover(e)
            case None => Step(s, e).value.calls == s.calls
            case Some(t) =>
              var s' := Step(s, e).value;
              t < |s.calls| == |s'.calls| && s'.calls == Go(s.calls, t, s'.calls[t].phase)
  {
  }

  lemma MovesCallers(s: State, e: Event)
    requires Step(s, e).Some? && !e.Start?
    ensures match Mover(e)
            case None => Step(s, e).value.km.callers == s.km.callers
            case Some(t) =>
              var s' := Step(s, e).value;
              t < |s.km.callers| ==>
                |s'.km.callers| == |s.km.callers| && s'.km.callers == s.km.callers[t := s'.km.callers[t]]
  {
    if OnLock(e) {
      LockMovesCaller(s, e);
    } else {
      OthersKeepCallers(s, e);
    }
  }

  lemma LockMovesCaller(s: State, e: Event)
    requires Step(s, e).Some? && OnLock(e)
    ensures var t, s' := e.t, Step(s, e).value;
            t < |s.km.callers| == |s'.km.callers| && s'.km.callers == s.km.callers[t := s'.km.callers[t]]
  {
  }

  lemma OthersKeepCallers(s: State, e: Event)
    requires Step(s, e).Some? && !OnLock(e) && !e.Start?
    ensures Step(s, e).value.km.callers == s.km.callers
  {
  }

  // The order in which a call goes through its phases.
  predicate Moves(e: Event, p: Phase, q: Phase) {
    match e
    case LockOk(_) => p.Locking? && q.Locked?
    case LockFail(_, _) => p.Locking? && q == Done(Failed)
    case GetHit(_, h) => p.Locked? && q == Hit(h.id)
    case GetMiss(_) => p.Locked? && q.Missed?
    case OpenFail(_) => p.Missed? && q == Leaving(Failed)
    case Open(_, _, _) => p.Missed? && q.Opened?
    case Write(_, _) => (p.Hit? && q == Awaiting(p.sid)) || (p.Opened? && q == Wrote(p.sid))
    case WriteFail(_, _, _) => (p.Hit? && q.Dropping?) || (p.Opened? && q == Leaving(Failed))
    case PutStream(_) => p.Wrote? && q == Awaiting(p.sid)
    case Read(_) => p.Awaiting? && (q.Dropping? || (q.Leaving? && q.res.Got? && q.res.sid == p.sid))
    case ReadFail(_) => p.Awaiting? && q.Dropping?
    case DelLock(_) => p.Dropping? && q.DropLocked?
    case DelLoad(_) => p.DropLocked? && (q.DropLoaded? || q.DropPool?)
    case DelDelete(_) => p.DropLoaded? && q.DropDeleted?
    case DelClose(_) => p.DropDeleted? && q.DropPool?
    case DelPool(_) => p.DropPool? && q == Leaving(Failed)
    case UnlockLoad(_) => p.Leaving? && (q == Unlocking(p.res) || q == Done(p.res))
    case UnlockEnd(_, _) => p.Unlocking? && q == Done(p.res)
    case _ => false
  }

  lemma PhaseTable(s: State, e: Event, t: nat)
    requires Step(s, e).Some? && Mover(e) == Some(t)
    ensures t < |s.calls| && t < |Step(s, e).value.calls|
    ensures Moves(e, s.calls[t].phase, Step(s, e).value.calls[t].phase)
  {
  }

  lemma MoverSyncLock(s: State, e: Event, t: nat)
    requires Step(s, e).Some? && (e.LockOk? || e.LockFail?) && Mover(e) == Some(t)
    requires |s.calls| == |s.km.callers| && t < |s.calls| && Sync(s.calls[t], s.km.callers[t])
    ensures var s' := Step(s, e).value;
            t < |s'.calls| && t < |s'.km.callers| && Sync(s'.calls[t], s'.km.callers[t])
  {
  }

  lemma MoverSyncUnlock(s: State, e: Event, t: nat)
    requires Step(s, e).Some? && (e.UnlockLoad? || e.UnlockEnd?) && Mover(e) == Some(t)
    requires |s.calls| == |s.km.callers| && t < |s.calls| && Sync(s.calls[t], s.km.callers[t])
    ensures var s' := Step(s, e).value;
            t < |s'.calls| && t < |s'.km.callers| && Sync(s'.calls[t], s'.km.callers[t])
  {
  }

  lemma OffLockKeepsCallers(s: State, e: Event, t: nat)
    requires Step(s, e).Some? && !OnLock(e) && Mover(e) == Some(t)
    ensures var s' := Step(s, e).value;
            && s'.km.callers == s.km.callers && t < |s'.calls| == |s.calls|
            && s.calls[t].phase.Holds() && s'.calls[t] == s.calls[t].(phase := s'.calls[t].phase)
            && s'.calls[t].phase.Holds()
  {
  }

  lemma MoverSync(s: State, e: Event, t: nat)
    requires Step(s, e).Some? && Mover(e) == Some(t)
    requires |s.calls| == |s.km.callers| && t < |s.calls| && Sync(s.calls[t], s.km.callers[t])
    ensures var s' := Step(s, e).value;
            t < |s'.calls| && t < |s'.km.callers| && Sync(s'.calls[t], s'.km.callers[t])
  {
    if e.LockOk? || e.LockFail? {
      MoverSyncLock(s, e, t);
    } else if OnLock(e) {
      MoverSyncUnlock(s, e, t);
    } else {
      OffLockKeepsCallers(s, e, t);
    }
  }

  lemma SyncStep(s: State, e: Event)
    requires Step(s, e).Some? && Structure(s)
    ensures var s' := Step(s, e).value;
            SyncOk(s'.calls, s'.km.callers)
  {
    if e.Start? {
      SyncStart(s, e.kind, e.to, e.proto, e.msg);
    } else {
      OnlyMoverMoves(s, e);
      if Mover(e).Some? {
        var s', t := Step(s, e).value, Mover(e).value;
        MoverSync(s, e, t);
        SyncGo(s.calls, s.km.callers, t, s'.calls[t].phase, s'.km.callers[t]);
      }
    }
  }

  // ------------------------------------------------------------------------------------------
  // The cache lock.

  predicate OnCacheLock(e: Event) { e.DelLock? || e.DelLoad? || e.DelDelete? || e.DelClose? || e.DelPool? }

  lemma OthersKeepCleaners(s: State, e: Event)
    requires Step(s, e).Some? && !OnCacheLock(e)
    ensures Step(s, e).value.km.cleaners == s.km.cleaners
  {
    KmMoves(s, e);
  }

  lemma OthersKeepCacheLock(s: State, e: Event)
    requires Step(s, e).Some? && !OnCacheLock(e)
    ensures Step(s, e).value.cacheLock == s.cacheLock && Step(s, e).value.km.cleaners == s.km.cleaners
  {
    OthersKeepCleaners(s, e);
  }

  lemma DelStart(calls: seq<Call>, cleaners: map<nat, KM.Cleaner>, cacheLock: Option<nat>, c: Call)
    requires DelOk(calls, cleaners, cacheLock) && c.phase.Locking?
    ensures DelOk(calls + [c], cleaners, cacheLock)
  {
  }

  lemma DelGo(calls: seq<Call>, cleaners: map<nat, KM.Cleaner>, cacheLock: Option<nat>, t: nat, p: Phase)
    requires DelOk(calls, cleaners, cacheLock) && t < |calls| && !calls[t].phase.InDel2() && !p.InDel2()
    ensures DelOk(Go(calls, t, p), cleaners, cacheLock)
  {
  }

  lemma DelEnter(s: State, e: Event)
    requires Step(s, e).Some? && DelOk(s.calls, s.km.cleaners, s.cacheLock)
    requires e.DelLock? || e.DelPool?
    ensures var s' := Step(s, e).value;
            DelOk(s'.calls, s'.km.cleaners, s'.cacheLock)
  {
  }

  lemma DelLoads(s: State, t: nat)
    requires DoDelLoad(s, t).Some? && DelOk(s.calls, s.km.cleaners, s.cacheLock)
    ensures var s' := DoDelLoad(s, t).value;
            DelOk(s'.calls, s'.km.cleaners, s'.cacheLock)
  {
  }

  lemma DelClean(s: State, e: Event)
    requires Step(s, e).Some? && DelOk(s.calls, s.km.cleaners, s.cacheLock)
    requires e.DelDelete? || e.DelClose?
    ensures var s' := Step(s, e).value;
            DelOk(s'.calls, s'.km.cleaners, s'.cacheLock)
  {
  }

  lemma DelOther(s: State, e: Event)
    requires Step(s, e).Some? && DelOk(s.calls, s.km.cleaners, s.cacheLock) && !OnCacheLock(e) && !e.Start?
    ensures var s' := Step(s, e).value;
            DelOk(s'.calls, s'.km.cleaners, s'.cacheLock)
  {
    OthersKeepCacheLock(s, e);
    OnlyMoverMoves(s, e);
    if Mover(e).Some? {
      PhaseTable(s, e, Mover(e).value);
      DelGo(s.calls, s.km.cleaners, s.cacheLock, Mover(e).value, Step(s, e).value.calls[Mover(e).value].phase);
    }
  }

  lemma DelStep(s: State, e: Event)
    requires Step(s, e).Some? && DelOk(s.calls, s.km.cleaners, s.cacheLock)
    ensures var s' := Step(s, e).value;
            DelOk(s'.calls, s'.km.cleaners, s'.cacheLock)
  {
    var s' := Step(s, e).value;
    if e.DelDelete? || e.DelClose? {
      DelClean(s, e);
    } else if e.DelLoad? {
      DelLoads(s, e.t);
    } else if OnCacheLock(e) {
      DelEnter(s, e);
    } else if e.Start? {
      DelStart(s.calls, s.km.cleaners, s.cacheLock, s'.calls[|s.calls|]);
    } else {
      DelOther(s, e);
    }
  }

  lemma StructureStep(s: State, e: Event)
    requires Step(s, e).Some? && Structure(s)
    ensures Structure(Step(s, e).value)
  {
    LockInvStep(s, e);
    SyncStep(s, e);
    DelStep(s, e);
  }
}
