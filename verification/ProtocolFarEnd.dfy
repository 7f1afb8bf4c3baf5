/** The far end of every stream runs the server loop: what it has read, written and kept is one session of
    that loop on the requests that reached it. */
module ProtocolFarEnd {
  import opened Counting
  import opened RawData
  import opened StreamCache
  import opened ServerLoop
  import opened Protocol
  import opened ProtocolInv
  import opened ProtocolStructure
  import opened ProtocolReferences
  import opened ProtocolTheorems

  /** One session of the server loop explains the stream: it read the stream's first requests in order, except
      that its last read may have failed, it called the handlers as recorded, and it ended with the
      stream's replies, the stream's buffers, and still running or not. */
  ghost predicate Explained(st: Stream, inbox: seq<Incoming>, acts: seq<Act>, writes: seq<Delivery>) {
    && |inbox| == |acts| == |writes|
    && ServerLoop.Serve(inbox, acts, writes).server == st.server
    && ServerLoop.Serve(inbox, acts, writes).out == st.replies
    && st.acts <= acts && |st.acts| <= |inbox| <= |st.acts| + 1
    && (st.server.up ==> |inbox| == |st.acts|)
    && forall i :: 0 <= i < |inbox| ==> ReadsRequest(st, inbox, i)
  }

  predicate ReadsRequest(st: Stream, inbox: seq<Incoming>, i: nat)
    requires i < |inbox|
  {
    if inbox[i].readErr.Some? then i == |inbox| - 1 && !st.server.up
    else i < |st.reqs| && inbox[i].req == st.reqs[i].frame
  }

  ghost predicate HasSession(st: Stream) { exists inbox, acts, writes :: Explained(st, inbox, acts, writes) }

  lemma ReadsOneMore(st: Stream, inbox: seq<Incoming>, inp: Incoming, st': Stream)
    requires st.server.up && st'.reqs == st.reqs && forall i :: 0 <= i < |inbox| ==> ReadsRequest(st, inbox, i)
    requires if inp.readErr.Some? then !st'.server.up
             else |inbox| < |st.reqs| && inp.req == st.reqs[|inbox|].frame
    ensures forall i :: 0 <= i < |inbox + [inp]| ==> ReadsRequest(st', inbox + [inp], i)
  {
    forall i | 0 <= i < |inbox|
      ensures ReadsRequest(st', inbox + [inp], i)
    {
      assert ReadsRequest(st, inbox, i);
    }
  }

  // One more iteration of a session that still runs.
  lemma OneMoreTurn(st: Stream, inp: Incoming, act: Act, write: Delivery, st': Stream)
    requires HasSession(st) && st.server.up
    requires var t := Iterate(st.server, inp, act, write);
             && st'.server == t.server && st'.replies == st.replies + (if t.out.Some? then [t.out.value] else [])
             && st'.reqs == st.reqs
             && (st'.acts == st.acts + [act] || (st'.acts == st.acts && !t.server.up))
    requires if inp.readErr.Some? then st'.acts == st.acts && !st'.server.up
             else |st.acts| < |st.reqs| && inp.req == st.reqs[|st.acts|].frame
    ensures HasSession(st')
  {
    var inbox, acts, writes :| Explained(st, inbox, acts, writes);
    SessionGrows(inbox, acts, writes, inp, act, write);
    ReadsOneMore(st, inbox, inp, st');
    assert Explained(st', inbox + [inp], acts + [act], writes + [write]);
  }

  lemma SessionGrows(inbox: seq<Incoming>, acts: seq<Act>, writes: seq<Delivery>, inp: Incoming, act: Act,
                     write: Delivery)
    requires |inbox| == |acts| == |writes| && ServerLoop.Serve(inbox, acts, writes).server.up
    ensures var b := ServerLoop.Serve(inbox, acts, writes);
            var r := ServerLoop.Serve(inbox + [inp], acts + [act], writes + [write]);
            var t := Iterate(b.server, inp, act, write);
            r.server == t.server && r.out == b.out + if t.out.Some? then [t.out.value] else []
  {
    assert (inbox + [inp])[..|inbox|] == inbox && (acts + [act])[..|acts|] == acts;
    assert (writes + [write])[..|writes|] == writes;
  }

  // More requests, or another reader position, change nothing at the far end.
  lemma SameFarEnd(st: Stream, st': Stream)
    requires HasSession(st) && st.reqs <= st'.reqs
    requires st'.server == st.server && st'.replies == st.replies && st'.acts == st.acts
    ensures HasSession(st')
  {
    var inbox, acts, writes :| Explained(st, inbox, acts, writes);
    forall i | 0 <= i < |inbox|
      ensures ReadsRequest(st', inbox, i)
    {
      assert ReadsRequest(st, inbox, i);
    }
    assert Explained(st', inbox, acts, writes);
  }

  lemma FreshSession(st: Stream)
    requires st.acts == [] && st.replies == [] && st.server == START
    ensures HasSession(st)
  {
    assert Explained(st, [], [], []);
  }

  lemma ServeTurn(s: State, sid: nat, act: Act, write: Delivery)
    requires DoServe(s, sid, act, write).Some? && HasSession(s.streams[sid])
    ensures HasSession(DoServe(s, sid, act, write).value.streams[sid])
  {
    var st := s.streams[sid];
    OneMoreTurn(st, Incoming(st.reqs[|st.acts|].frame, None), act, write,
                DoServe(s, sid, act, write).value.streams[sid]);
  }

  lemma ReadErrorTurn(s: State, sid: nat, part: RawData, text: string, write: Delivery)
    requires DoServeReadError(s, sid, part, text, write).Some? && HasSession(s.streams[sid])
    ensures HasSession(DoServeReadError(s, sid, part, text, write).value.streams[sid])
  {
    OneMoreTurn(s.streams[sid], Incoming(part, Some(text)), Act(0, [], None), write,
                DoServeReadError(s, sid, part, text, write).value.streams[sid]);
  }

  // Steps of calls leave the far end alone, and open streams fresh.
  lemma CallsLeaveFarEnd(s: State, e: Event, sid: nat)
    requires Step(s, e).Some? && sid < |Step(s, e).value.streams|
    requires (e.Serve? || e.ServeReadError?) ==> e.sid != sid
    ensures var s' := Step(s, e).value;
            && |s.streams| <= |s'.streams|
            && (sid < |s.streams| ==>
                  var st, st' := s.streams[sid], s'.streams[sid];
                  st.reqs <= st'.reqs && st'.server == st.server && st'.replies == st.replies && st'.acts == st.acts)
            && (sid >= |s.streams| ==>
                  s'.streams[sid].acts == [] && s'.streams[sid].replies == [] && s'.streams[sid].server == START)
  {
  }

  lemma FarEndStep(s: State, e: Event, sid: nat)
    requires Step(s, e).Some? && sid < |Step(s, e).value.streams|
    requires sid < |s.streams| ==> HasSession(s.streams[sid])
    ensures HasSession(Step(s, e).value.streams[sid])
  {
    if e.Serve? && e.sid == sid {
      ServeTurn(s, sid, e.act, e.write);
    } else if e.ServeReadError? && e.sid == sid {
      ReadErrorTurn(s, sid, e.part, e.text, e.write);
    } else {
      CallsLeaveFarEnd(s, e, sid);
      if sid < |s.streams| {
        SameFarEnd(s.streams[sid], Step(s, e).value.streams[sid]);
      } else {
        FreshSession(Step(s, e).value.streams[sid]);
      }
    }
  }

  /** In every run the far end of every stream has run one session of the server loop, so all that holds of
      sessions holds of it: order of replies, error replies, conservation of input. */
  lemma {:induction false} FarEndRunsLoop(es: seq<Event>, sid: nat)
    requires Run(es).Some? && sid < |Run(es).value.streams|
    ensures HasSession(Run(es).value.streams[sid])
  {
    if es != [] {
      var front := es[..|es| - 1];
      if sid < |Run(front).value.streams| {
        FarEndRunsLoop(front, sid);
      }
      FarEndStep(Run(front).value, es[|es| - 1], sid);
    }
  }

  // A far end that still runs has answered every request it has read, and kept nothing back.
  lemma RunningFarEnd(es: seq<Event>, sid: nat)
    requires Run(es).Some? && sid < |Run(es).value.streams| && Run(es).value.streams[sid].server.up
    ensures var st := Run(es).value.streams[sid];
            && |st.replies| == |st.acts| && st.server.writer == []
            && forall i :: 0 <= i < |st.reqs| ==> st.reqs[i].frame.err == "" && Canonical(st.reqs[i].frame.id)
  {
    FarEndRunsLoop(es, sid);
    var st := Run(es).value.streams[sid];
    var inbox, acts, writes :| Explained(st, inbox, acts, writes);
    RepliesInOrder(inbox, acts, writes);
    InvRun(es);
    forall i | 0 <= i < |st.reqs|
      ensures st.reqs[i].frame.err == "" && Canonical(st.reqs[i].frame.id)
    {
      assert RequestOk(st.reqs[i], Run(es).value.calls);
    }
  }

  /** In every run the far end can go on while it is up and has a request to read, and its k-th frame is for
      its k-th request: the reply with the bytes that this request's handler wrote, or the handler's error
      under the request's id. It stays up unless the handler or the write fails. */
  lemma FarEndAnswersNext(es: seq<Event>, sid: nat, act: Act, write: Delivery)
    requires Run(es).Some? && sid < |Run(es).value.streams| && act.err != Some("")
    requires var st := Run(es).value.streams[sid];
             st.server.up && |st.acts| < |st.reqs|
    ensures Step(Run(es).value, Event.Serve(sid, act, write)).Some?
    ensures var st, st' := Run(es).value.streams[sid],
                           Step(Run(es).value, Event.Serve(sid, act, write)).value.streams[sid];
            var req := st.reqs[|st.acts|].frame;
            && |st.replies| == |st.acts| && st'.reqs == st.reqs
            && (st'.server.up <==> act.err.None? && write.Written?)
            && (write.Lost? <==> st'.replies == st.replies)
            && (!write.Lost? ==> |st'.replies| == |st.replies| + 1 && st.replies <= st'.replies)
            && (!write.Lost? && act.err.None? ==> Answers(st'.replies[|st.replies|], req, act.wrote))
            && (!write.Lost? && act.err.Some? ==> st'.replies[|st.replies|] == RawData(req.id, act.err.value, []))
  {
    RunningFarEnd(es, sid);
    var st := Run(es).value.streams[sid];
    var inp := Incoming(st.reqs[|st.acts|].frame, None);
    TurnCases(st.server, inp, act, write);
    ReplyAnswers(inp.req, act.wrote);
  }

  /** A far end that is up can at any time fail to read, with any part of a frame decoded. That ends it, after at
      most one frame: an error reply under the id it has decoded, unless that frame already has an error text. */
  lemma FarEndReadFails(es: seq<Event>, sid: nat, part: RawData, text: string, write: Delivery)
    requires Run(es).Some? && sid < |Run(es).value.streams| && Run(es).value.streams[sid].server.up && text != ""
    ensures Step(Run(es).value, ServeReadError(sid, part, text, write)).Some?
    ensures var st, st' := Run(es).value.streams[sid],
                           Step(Run(es).value, ServeReadError(sid, part, text, write)).value.streams[sid];
            && !st'.server.up && st'.reqs == st.reqs && st'.acts == st.acts
            && st'.replies == st.replies + if write.Lost? || part.err != "" then [] else [RawData(part.id, text, [])]
  {
  }
}
