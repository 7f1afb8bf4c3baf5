/** On a key whose calls never overlap, no Unlock ever meets a channel its call did not lock. */
module ProtocolSequential {
  import opened Counting
  import opened RawData
  import opened StreamKey
  import opened Protocol
  import opened ProtocolInv
  import opened ProtocolStructure
  import KM = KeyMutex
  import KP = KeyMutexProofs

  lemma SoleCallGo(calls: seq<Call>, overlapped: set<string>, t: nat, p: Phase)
    requires SoleCall(calls, overlapped) && t < |calls| && (calls[t].phase.Done? ==> p.Done?)
    ensures SoleCall(Go(calls, t, p), overlapped)
  {
  }

  lemma OwnChannelsGo(calls: seq<Call>, km: KM.State, overlapped: set<string>, t: nat, p: Phase)
    requires OwnChannels(calls, km, overlapped) && t < |calls|
    ensures OwnChannels(Go(calls, t, p), km, overlapped)
  {
  }

  // The caller moves, the map stays.
  lemma OwnChannelsMove(calls: seq<Call>, km: KM.State, overlapped: set<string>, t: nat, p: Phase, km': KM.State)
    requires OwnChannels(calls, km, overlapped) && t < |calls| == |km.callers|
    requires |km'.callers| == |km.callers| && km'.callers == km.callers[t := km'.callers[t]]
    requires km'.slots == km.slots && km'.stolen <= overlapped
    requires calls[t].Key() !in overlapped ==> OwnChannel(km'.callers[t], km.slots)
    ensures OwnChannels(Go(calls, t, p), km', overlapped)
  {
  }

  lemma SequentialStart(s: State, kind: Kind, to: string, proto: string, msg: seq<byte>)
    requires DoStart(s, kind, to, proto, msg).Some? && SyncOk(s.calls, s.km.callers) && Sequential(s)
    ensures Sequential(DoStart(s, kind, to, proto, msg).value)
  {
    var s' := DoStart(s, kind, to, proto, msg).value;
    var n, k := |s.calls|, LockKey(proto, to);
    assert s'.calls[n].Key() == k;
    forall u | 0 <= u < n && s.calls[u].Key() == k && k !in s'.overlapped
      ensures s.calls[u].phase.Done?
    {
      if !s.calls[u].phase.Done? {
        assert Active(s.calls, u, k);
      }
    }
    forall u | 0 <= u < n && s.calls[u].Key() !in s'.overlapped
      ensures OwnChannel(s'.km.callers[u], s'.km.slots)
    {
      assert Sync(s.calls[u], s.km.callers[u]);
      assert OwnChannel(s.km.callers[u], s.km.slots);
    }
  }

  lemma SequentialLock(s: State, e: Event, t: nat)
    requires Step(s, e).Some? && (e.LockOk? || e.LockFail? || e.UnlockLoad?) && Mover(e) == Some(t)
    requires SyncOk(s.calls, s.km.callers) && Sequential(s)
    ensures Sequential(Step(s, e).value)
  {
    var s' := Step(s, e).value;
    OnlyMoverMoves(s, e);
    PhaseTable(s, e, t);
    assert Sync(s.calls[t], s.km.callers[t]);
    SoleCallGo(s.calls, s.overlapped, t, s'.calls[t].phase);
    OwnChannelsMove(s.calls, s.km, s.overlapped, t, s'.calls[t].phase, s'.km);
  }

  lemma SequentialUnlockEnd(s: State, t: nat, timeout: bool)
    requires DoUnlockEnd(s, t, timeout).Some?
    requires SyncOk(s.calls, s.km.callers) && Sequential(s)
    ensures Sequential(DoUnlockEnd(s, t, timeout).value)
  {
    var s' := DoUnlockEnd(s, t, timeout).value;
    assert Sync(s.calls[t], s.km.callers[t]);
    assert s'.km.callers == s.km.callers[t := KM.Finished];
    SoleCallGo(s.calls, s.overlapped, t, s'.calls[t].phase);
    OwnChannelsMove(s.calls, s.km, s.overlapped, t, s'.calls[t].phase, s'.km);
  }

  lemma SequentialDelDelete(s: State, t: nat)
    requires DoDelDelete(s, t).Some? && SyncOk(s.calls, s.km.callers) && Sequential(s)
    requires DelOk(s.calls, s.km.cleaners, s.cacheLock)
    ensures Sequential(DoDelDelete(s, t).value)
  {
    var s' := DoDelDelete(s, t).value;
    SoleCallGo(s.calls, s.overlapped, t, DropDeleted);
    forall u | 0 <= u < |s.calls| && s.calls[u].Key() !in s.overlapped
      ensures OwnChannel(s'.km.callers[u], s'.km.slots)
    {
      assert Sync(s.calls[u], s.km.callers[u]) && Sync(s.calls[t], s.km.callers[t]);
      assert OwnChannel(s.km.callers[u], s.km.slots);
    }
  }

  // Clean's other steps and everything off the lock.
  lemma MapKept(s: State, e: Event)
    requires Step(s, e).Some?
    requires !e.Start? && !e.LockOk? && !e.LockFail? && !e.UnlockLoad? && !e.UnlockEnd? && !e.DelDelete?
    ensures var km' := Step(s, e).value.km;
            km'.callers == s.km.callers && km'.slots == s.km.slots && km'.stolen == s.km.stolen
    ensures Step(s, e).value.overlapped == s.overlapped
  {
  }

  lemma SequentialOther(s: State, e: Event)
    requires Step(s, e).Some? && Sequential(s)
    requires !e.Start? && !e.LockOk? && !e.LockFail? && !e.UnlockLoad? && !e.UnlockEnd? && !e.DelDelete?
    ensures Sequential(Step(s, e).value)
  {
    var s' := Step(s, e).value;
    MapKept(s, e);
    OnlyMoverMoves(s, e);
    if Mover(e).Some? {
      PhaseTable(s, e, Mover(e).value);
      SoleCallGo(s.calls, s.overlapped, Mover(e).value, s'.calls[Mover(e).value].phase);
      OwnChannelsGo(s.calls, s.km, s.overlapped, Mover(e).value, s'.calls[Mover(e).value].phase);
    }
  }

  lemma SequentialStep(s: State, e: Event)
    requires Step(s, e).Some? && Structure(s) && Sequential(s)
    ensures Sequential(Step(s, e).value)
  {
    match e {
      case Start(kind, to, proto, msg) => SequentialStart(s, kind, to, proto, msg);
      case LockOk(t) => SequentialLock(s, e, t);
      case LockFail(t, _) => SequentialLock(s, e, t);
      case UnlockLoad(t) => SequentialLock(s, e, t);
      case UnlockEnd(t, timeout) => SequentialUnlockEnd(s, t, timeout);
      case DelDelete(t) => SequentialDelDelete(s, t);
      case _ => SequentialOther(s, e);
    }
  }
}
