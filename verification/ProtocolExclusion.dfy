/** On a key where no Unlock ever took another channel's token, at most one call at a time may touch
    a stream, across all generations of the key's channel. */
module ProtocolExclusion {
  import opened Counting
  import opened RawData
  import opened StreamKey
  import opened StreamCache
  import opened Protocol
  import opened ProtocolInv
  import opened ProtocolStructure
  import KM = KeyMutex
  import KP = KeyMutexProofs

  // What exclusion needs of the layers below.
  ghost predicate Basis(s: State) {
    && SyncOk(s.calls, s.km.callers)
    && DelOk(s.calls, s.km.cleaners, s.cacheLock)
    && KP.SlotsOk(s.km.slots, s.km.chans)
    && KP.CallersOk(s.km.chans, s.km.callers)
    && KP.CleanersOk(s.km.slots, s.km.chans, s.km.cleaners)
    && KP.SoleLockers(s.km.chans, s.km.callers, s.km.stolen)
  }

  /** Two critical calls on such a key are the same call. */
  lemma OneCritical(s: State, t: nat, u: nat)
    requires Basis(s) && CritOk(s.calls, s.km)
    requires t < |s.calls| && u < |s.calls| && s.calls[t].Key() == s.calls[u].Key() && s.calls[t].Key() !in s.km.stolen
    requires s.calls[t].phase.Critical() && s.calls[u].phase.Critical()
    ensures t == u
  {
    var k := s.calls[t].Key();
    assert Sync(s.calls[t], s.km.callers[t]) && Sync(s.calls[u], s.km.callers[u]);
    assert s.km.callers[t].ch == s.km.slots[k] == s.km.callers[u].ch;
    if t < u {
      assert KP.SameLock(s.km.callers[t], s.km.callers[u]);
    } else if u < t {
      assert KP.SameLock(s.km.callers[u], s.km.callers[t]);
    }
  }

  // ------------------------------------------------------------------------------------------
  // Steps that leave the lock alone.

  lemma ExclusionGo(calls: seq<Call>, km: KM.State, t: nat, p: Phase)
    requires CritOk(calls, km) && CleansOwn(calls, km) && OrphanOk(calls, km) && t < |calls|
    requires p.Critical() ==> calls[t].phase.Critical()
    requires calls[t].phase.DropDeleted? ==> p.DropDeleted?
    ensures CritOk(Go(calls, t, p), km) && CleansOwn(Go(calls, t, p), km) && OrphanOk(Go(calls, t, p), km)
  {
    forall c | 0 <= c < |km.chans| && Orphan(km, c)
      ensures exists u :: Orphaned(Go(calls, t, p), km, u, c)
    {
      var u :| Orphaned(calls, km, u, c);
      assert Orphaned(Go(calls, t, p), km, u, c);
    }
  }

  // Orphans keep their cleaner when nobody leaves the DropDeleted phase and no new orphan appears.
  lemma OrphansCarry(s: State, s': State)
    requires OrphanOk(s.calls, s.km)
    requires forall c :: Orphan(s'.km, c) ==> Orphan(s.km, c)
    requires forall u, c :: Orphaned(s.calls, s.km, u, c) && Orphan(s'.km, c) ==> Orphaned(s'.calls, s'.km, u, c)
    ensures OrphanOk(s'.calls, s'.km)
  {
    forall c | 0 <= c < |s'.km.chans| && Orphan(s'.km, c)
      ensures exists u :: Orphaned(s'.calls, s'.km, u, c)
    {
      var u :| Orphaned(s.calls, s.km, u, c);
      assert Orphaned(s'.calls, s'.km, u, c);
    }
  }

  lemma ExclusionStart(s: State, kind: Kind, to: string, proto: string, msg: seq<byte>)
    requires DoStart(s, kind, to, proto, msg).Some? && Basis(s) && Exclusion(s)
    ensures Exclusion(DoStart(s, kind, to, proto, msg).value)
  {
    OrphansCarry(s, DoStart(s, kind, to, proto, msg).value);
  }

  /** A send succeeds only on the stored channel: one that was deleted is held, hence full, until it
      is closed. */
  lemma LockOkOnStored(s: State, t: nat)
    requires DoLockOk(s, t).Some? && Basis(s) && Exclusion(s) && s.calls[t].Key() !in s.km.stolen
    ensures s.km.callers[t].Waiting? && KP.Current(s.km.slots, s.calls[t].Key(), s.km.callers[t].ch)
  {
    var c := s.km.callers[t].ch;
    assert Sync(s.calls[t], s.km.callers[t]) && KP.CallerOk(s.km.chans, s.km.callers[t]);
    if !KP.Current(s.km.slots, s.calls[t].Key(), c) {
      assert Orphan(s.km, c);
    }
  }

  lemma ExclusionLockOk(s: State, t: nat)
    requires DoLockOk(s, t).Some? && Basis(s) && Exclusion(s)
    ensures Exclusion(DoLockOk(s, t).value)
  {
    var s' := DoLockOk(s, t).value;
    if s.calls[t].Key() !in s.km.stolen {
      LockOkOnStored(s, t);
    }
    assert Sync(s.calls[t], s.km.callers[t]);
    OrphansCarry(s, s');
  }

  lemma ExclusionLockFail(s: State, t: nat, timeout: bool)
    requires DoLockFail(s, t, timeout).Some? && Basis(s) && Exclusion(s)
    ensures Exclusion(DoLockFail(s, t, timeout).value)
  {
    assert Sync(s.calls[t], s.km.callers[t]);
    OrphansCarry(s, DoLockFail(s, t, timeout).value);
  }

  lemma ExclusionDelLoad(s: State, t: nat)
    requires DoDelLoad(s, t).Some? && Basis(s) && Exclusion(s)
    ensures Exclusion(DoDelLoad(s, t).value)
  {
    assert Sync(s.calls[t], s.km.callers[t]);
    OrphansCarry(s, DoDelLoad(s, t).value);
  }

  lemma ExclusionDelDelete(s: State, t: nat)
    requires DoDelDelete(s, t).Some? && Basis(s) && Exclusion(s)
    ensures Exclusion(DoDelDelete(s, t).value)
  {
    var s' := DoDelDelete(s, t).value;
    var k := s.calls[t].Key();
    assert Sync(s.calls[t], s.km.callers[t]);
    forall u | && 0 <= u < |s'.calls| && u < |s'.km.callers|
               && s'.calls[u].phase.Critical() && s'.calls[u].Key() !in s'.km.stolen
      ensures s'.km.callers[u].Holding? && KP.Current(s'.km.slots, s'.calls[u].Key(), s'.km.callers[u].ch)
    {
      if s.calls[u].Key() == k {
        OneCritical(s, t, u);
      }
    }
    forall c | 0 <= c < |s'.km.chans| && Orphan(s'.km, c)
      ensures exists u :: Orphaned(s'.calls, s'.km, u, c)
    {
      assert !Orphan(s.km, c);
      assert Orphaned(s'.calls, s'.km, t, c);
    }
  }

  lemma ExclusionDelClose(s: State, t: nat)
    requires DoDelClose(s, t).Some? && Basis(s) && Exclusion(s)
    ensures Exclusion(DoDelClose(s, t).value)
  {
    assert Sync(s.calls[t], s.km.callers[t]);
    OrphansCarry(s, DoDelClose(s, t).value);
  }

  lemma ExclusionUnlockLoad(s: State, t: nat)
    requires DoUnlockLoad(s, t).Some? && Basis(s) && Exclusion(s)
    ensures Exclusion(DoUnlockLoad(s, t).value)
  {
    OrphansCarry(s, DoUnlockLoad(s, t).value);
  }

  lemma ExclusionUnlockEnd(s: State, t: nat, timeout: bool)
    requires DoUnlockEnd(s, t, timeout).Some? && Basis(s) && Exclusion(s)
    ensures Exclusion(DoUnlockEnd(s, t, timeout).value)
  {
    var s' := DoUnlockEnd(s, t, timeout).value;
    UnlockEndFrame(s, t, timeout);
    OrphansCarry(s, s');
  }

  // The end of an Unlock touches one channel's token, its own caller and the histories.
  lemma UnlockEndFrame(s: State, t: nat, timeout: bool)
    requires DoUnlockEnd(s, t, timeout).Some?
    ensures var s' := DoUnlockEnd(s, t, timeout).value;
            && s'.km.slots == s.km.slots && s'.km.cleaners == s.km.cleaners && s.km.stolen <= s'.km.stolen
            && |s'.km.chans| == |s.km.chans|
            && (forall c :: 0 <= c < |s.km.chans| ==>
                  s'.km.chans[c].key == s.km.chans[c].key && s'.km.chans[c].closes == s.km.chans[c].closes)
            && t < |s.km.callers| && s.km.callers[t].Releasing? && s'.km.callers == s.km.callers[t := KM.Finished]
  {
  }

  lemma RegistKeeps(calls: seq<Call>, km: KM.State, spaces: set<string>)
    requires CritOk(calls, km) && CleansOwn(calls, km) && OrphanOk(calls, km)
    ensures CritOk(calls, km.(spaces := spaces)) && CleansOwn(calls, km.(spaces := spaces))
    ensures OrphanOk(calls, km.(spaces := spaces))
  {
    forall c | 0 <= c < |km.chans| && Orphan(km.(spaces := spaces), c)
      ensures exists u :: Orphaned(calls, km.(spaces := spaces), u, c)
    {
      assert Orphan(km, c);
      var u :| Orphaned(calls, km, u, c);
      assert Orphaned(calls, km.(spaces := spaces), u, c);
    }
  }

  lemma ExclusionOffLock(s: State, e: Event)
    requires Step(s, e).Some? && Exclusion(s) && KmEvent(s, e).None?
    ensures Exclusion(Step(s, e).value)
  {
    KmMoves(s, e);
    OnlyMoverMoves(s, e);
    if Mover(e).Some? {
      PhaseTable(s, e, Mover(e).value);
      ExclusionGo(s.calls, s.km, Mover(e).value, Step(s, e).value.calls[Mover(e).value].phase);
    }
  }

  lemma ExclusionStep(s: State, e: Event)
    requires Step(s, e).Some? && Structure(s) && Exclusion(s)
    ensures Exclusion(Step(s, e).value)
  {
    match e {
      case Regist(pid) => RegistKeeps(s.calls, s.km, s.km.spaces + {pid});
      case Start(kind, to, proto, msg) => ExclusionStart(s, kind, to, proto, msg);
      case LockOk(t) => ExclusionLockOk(s, t);
      case LockFail(t, timeout) => ExclusionLockFail(s, t, timeout);
      case DelLoad(t) => ExclusionDelLoad(s, t);
      case DelDelete(t) => ExclusionDelDelete(s, t);
      case DelClose(t) => ExclusionDelClose(s, t);
      case UnlockLoad(t) => ExclusionUnlockLoad(s, t);
      case UnlockEnd(t, timeout) => ExclusionUnlockEnd(s, t, timeout);
      case _ => ExclusionOffLock(s, e);
    }
  }
}
