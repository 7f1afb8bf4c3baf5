/** Requests on streams carry their call's message, and no call writes twice. */
module ProtocolRequests {
  import opened Counting
  import opened RawData
  import opened StreamCache
  import opened ServerLoop
  import opened Protocol
  import opened ProtocolInv
  import opened ProtocolStructure
  import opened ProtocolReferences

  predicate SameReqs(streams: seq<Stream>, streams': seq<Stream>) {
    && |streams| <= |streams'|
    && (forall sid :: 0 <= sid < |streams| ==> streams'[sid].reqs == streams[sid].reqs)
    && (forall sid :: |streams| <= sid < |streams'| ==> streams'[sid].reqs == [])
  }

  lemma SameReqsKeep(calls: seq<Call>, streams: seq<Stream>, streams': seq<Stream>)
    requires ReqsOk(calls, streams) && OneRequestEach(streams) && SameReqs(streams, streams')
    ensures ReqsOk(calls, streams') && OneRequestEach(streams')
  {
    assert forall t, sid, i :: Sent(streams', t, sid, i) ==> Sent(streams, t, sid, i);
  }

  lemma ReqsStart(calls: seq<Call>, streams: seq<Stream>, c: Call)
    requires ReqsOk(calls, streams)
    ensures ReqsOk(calls + [c], streams)
  {
    forall sid, i | 0 <= sid < |streams| && 0 <= i < |streams[sid].reqs|
      ensures RequestOk(streams[sid].reqs[i], calls + [c])
    {
      assert RequestOk(streams[sid].reqs[i], calls);
    }
  }

  lemma ReqsGo(calls: seq<Call>, streams: seq<Stream>, t: nat, p: Phase)
    requires ReqsOk(calls, streams) && t < |calls| && (Unwritten(p) ==> Unwritten(calls[t].phase))
    ensures ReqsOk(Go(calls, t, p), streams)
  {
    forall sid, i | 0 <= sid < |streams| && 0 <= i < |streams[sid].reqs|
      ensures RequestOk(streams[sid].reqs[i], Go(calls, t, p))
    {
      assert RequestOk(streams[sid].reqs[i], calls);
    }
  }

  lemma NewIdCanonical(uuid: seq<byte>, msg: seq<byte>)
    ensures Canonical(NewRawData(None, uuid, msg).id)
  {
    IdNormalises(uuid);
    StripZerosKeepsValue(uuid);
  }

  lemma ReqsAppend(calls: seq<Call>, streams: seq<Stream>, t: nat, sid: nat, st: Stream, uuid: seq<byte>)
    requires ReqsOk(calls, streams) && OneRequestEach(streams) && t < |calls| && sid < |streams|
    requires !Unwritten(calls[t].phase)
    requires forall a, i :: !Sent(streams, t, a, i)
    requires st.reqs == Append(streams[sid], t, uuid, calls[t].msg).reqs
    ensures ReqsOk(calls, streams[sid := st]) && OneRequestEach(streams[sid := st])
  {
    NewIdCanonical(uuid, calls[t].msg);
    var streams' := streams[sid := st];
    var n := |streams[sid].reqs|;
    forall a, i | 0 <= a < |streams'| && 0 <= i < |streams'[a].reqs|
      ensures RequestOk(streams'[a].reqs[i], calls)
    {
      if a == sid && i == n {
        assert st.reqs[i] == Request(t, NewRawData(None, uuid, calls[t].msg));
      } else {
        assert streams'[a].reqs[i] == streams[a].reqs[i];
      }
    }
    assert forall u, a, i :: Sent(streams', u, a, i) <==> Sent(streams, u, a, i) || (u == t && a == sid && i == n);
  }

  // A call that has not written yet has no request anywhere.
  lemma UnwrittenNotSent(calls: seq<Call>, streams: seq<Stream>, t: nat)
    requires ReqsOk(calls, streams) && t < |calls| && Unwritten(calls[t].phase)
    ensures forall a, i :: !Sent(streams, t, a, i)
  {
    forall a: nat, i: nat
      ensures !Sent(streams, t, a, i)
    {
      if a < |streams| && i < |streams[a].reqs| {
        assert RequestOk(streams[a].reqs[i], calls);
      }
    }
  }

  // Requests are never removed.
  predicate ReqsGrow(streams: seq<Stream>, streams': seq<Stream>) {
    |streams| <= |streams'| && forall sid :: 0 <= sid < |streams| ==> streams[sid].reqs <= streams'[sid].reqs
  }

  lemma SentGrows(calls: seq<Call>, streams: seq<Stream>, streams': seq<Stream>)
    requires SentOk(calls, streams) && ReqsGrow(streams, streams')
    ensures SentOk(calls, streams')
  {
    forall t | 0 <= t < |calls| && WroteTo(calls[t].phase).Some?
      ensures SentOn(streams', t, WroteTo(calls[t].phase).value)
    {
      var sid := WroteTo(calls[t].phase).value;
      assert SentOn(streams, t, sid);
      var i :| Sent(streams, t, sid, i);
      assert Sent(streams', t, sid, i);
    }
  }

  lemma SentGo(calls: seq<Call>, streams: seq<Stream>, t: nat, p: Phase)
    requires SentOk(calls, streams) && t < |calls|
    requires WroteTo(p).Some? ==> WroteTo(p) == WroteTo(calls[t].phase) || SentOn(streams, t, WroteTo(p).value)
    ensures SentOk(Go(calls, t, p), streams)
  {
  }

  lemma WriteSends(s: State, e: Event, t: nat)
    requires Step(s, e).Some? && e.Write? && Mover(e) == Some(t)
    ensures t < |s.calls| && SentOn(Step(s, e).value.streams, t, s.calls[t].phase.sid)
  {
    var sid := s.calls[t].phase.sid;
    assert Sent(Step(s, e).value.streams, t, sid, |s.streams[sid].reqs|);
  }

  lemma StreamsKeepReqs(s: State, e: Event)
    requires Step(s, e).Some?
    ensures ReqsGrow(s.streams, Step(s, e).value.streams)
  {
    if !e.Write? && !e.WriteFail? {
      OtherStepsSameReqs(s, e);
    }
  }

  lemma SentStep(s: State, e: Event)
    requires Step(s, e).Some? && SentOk(s.calls, s.streams)
    ensures SentOk(Step(s, e).value.calls, Step(s, e).value.streams)
  {
    var s' := Step(s, e).value;
    StreamsKeepReqs(s, e);
    SentGrows(s.calls, s.streams, s'.streams);
    if e.Start? {
      SentStart(s, e.kind, e.to, e.proto, e.msg);
    } else {
      OnlyMoverMoves(s, e);
      if Mover(e).Some? {
        var t := Mover(e).value;
        PhaseTable(s, e, t);
        if e.Write? {
          WriteSends(s, e, t);
        }
        SentGo(s.calls, s'.streams, t, s'.calls[t].phase);
      }
    }
  }

  lemma SentStart(s: State, kind: Kind, to: string, proto: string, msg: seq<byte>)
    requires DoStart(s, kind, to, proto, msg).Some? && SentOk(s.calls, s.streams)
    ensures SentOk(DoStart(s, kind, to, proto, msg).value.calls, DoStart(s, kind, to, proto, msg).value.streams)
  {
  }

  lemma RequestsWrite(s: State, e: Event, t: nat)
    requires Step(s, e).Some? && (e.Write? || e.WriteFail?) && Mover(e) == Some(t)
    requires ReqsOk(s.calls, s.streams) && OneRequestEach(s.streams)
    ensures ReqsOk(Step(s, e).value.calls, Step(s, e).value.streams) && OneRequestEach(Step(s, e).value.streams)
  {
    var s' := Step(s, e).value;
    var sid := s.calls[t].phase.sid;
    PhaseTable(s, e, t);
    UnwrittenNotSent(s.calls, s.streams, t);
    ReqsGo(s.calls, s.streams, t, s'.calls[t].phase);
    if e.Write? || e.delivered {
      ReqsAppend(s'.calls, s.streams, t, sid, s'.streams[sid], e.uuid);
    } else {
      SameReqsKeep(s'.calls, s.streams, s'.streams);
    }
  }

  lemma OtherStepsSameReqs(s: State, e: Event)
    requires Step(s, e).Some? && !e.Write? && !e.WriteFail?
    ensures SameReqs(s.streams, Step(s, e).value.streams)
  {
  }

  lemma RequestsStep(s: State, e: Event)
    requires Step(s, e).Some? && Requests(s)
    ensures Requests(Step(s, e).value)
  {
    SentStep(s, e);
    OneEachStep(s, e);
  }

  lemma OneEachStep(s: State, e: Event)
    requires Step(s, e).Some? && ReqsOk(s.calls, s.streams) && OneRequestEach(s.streams)
    ensures ReqsOk(Step(s, e).value.calls, Step(s, e).value.streams) && OneRequestEach(Step(s, e).value.streams)
  {
    var s' := Step(s, e).value;
    if e.Write? || e.WriteFail? {
      RequestsWrite(s, e, e.t);
    } else {
      OtherStepsSameReqs(s, e);
      SameReqsKeep(s.calls, s.streams, s'.streams);
      if e.Start? {
        ReqsStart(s.calls, s'.streams, s'.calls[|s.calls|]);
      } else {
        OnlyMoverMoves(s, e);
        if Mover(e).Some? {
          PhaseTable(s, e, Mover(e).value);
          ReqsGo(s.calls, s'.streams, Mover(e).value, s'.calls[Mover(e).value].phase);
        }
      }
    }
  }
}
