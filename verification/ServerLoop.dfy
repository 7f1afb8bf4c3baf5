/** The server side of a reused stream (pool.go, doHandleStream): read one frame, let the handler
    work on two in-memory buffers, write one frame back. */
module ServerLoop {
  import opened Counting
  import opened RawData

  /** What FromReader leaves behind: the frame as far as it was decoded, and its error. */
  datatype Incoming = Incoming(req: RawData, readErr: Option<string>)

  /** One handler call, as the two buffers see it: how many bytes it reads, what it writes, and
      the error text it returns. */
  datatype Act = Act(take: nat, wrote: seq<byte>, err: Option<string>)

  /** How ToWriter ends: with success; with an error and the frame lost; or with an error although the
      whole frame has reached the other side. */
  datatype Delivery = Written | Lost | Reached

  /** The loop's own state: both buffers of reuse_conn, and whether the loop still runs. */
  datatype Server = Server(reader: seq<byte>, writer: seq<byte>, up: bool)

  const START := Server([], [], true)

  /** One iteration: the next state, the frame that reached the stream, the bytes the handler read. */
  datatype Turn = Turn(server: Server, out: Option<RawData>, seen: seq<byte>)

  function ErrorReply(req: RawData, text: string): RawData { RawData(req.id, text, []) }

  function Reply(req: RawData, ret: seq<byte>): RawData { NewRawData(Some(req.ID()), [], ret) }

  /** `write` is how this iteration's ToWriter ends. */
  function Iterate(c: Server, inp: Incoming, act: Act, write: Delivery): Turn
    requires c.up
  {
    var down := c.(up := false);
    if inp.req.err != "" then Turn(down, None, [])
    else if inp.readErr.Some? then
      Turn(down, if write.Lost? then None else Some(ErrorReply(inp.req, inp.readErr.value)), [])
    else
      var filled := c.reader + inp.req.data;
      var n := if act.take <= |filled| then act.take else |filled|;
      var after := Server(filled[n..], c.writer + act.wrote, true);
      if act.err.Some? then
        Turn(after.(up := false), if write.Lost? then None else Some(ErrorReply(inp.req, act.err.value)), filled[..n])
      else
        Turn(after.(writer := [], up := write.Written?),
             if write.Lost? then None else Some(Reply(inp.req, after.writer)), filled[..n])
  }

  /** Everything one stream's loop does with a finite input, oldest first. */
  datatype Session = Session(server: Server, out: seq<RawData>, seen: seq<seq<byte>>)

  function Serve(inbox: seq<Incoming>, acts: seq<Act>, writes: seq<Delivery>): Session
    requires |inbox| == |acts| == |writes|
  {
    if inbox == [] then Session(START, [], [])
    else
      var n := |inbox| - 1;
      var before := Serve(inbox[..n], acts[..n], writes[..n]);
      if !before.server.up then before
      else
        var t := Iterate(before.server, inbox[n], acts[n], writes[n]);
        Session(t.server, before.out + (if t.out.Some? then [t.out.value] else []), before.seen + [t.seen])
  }

  // An iteration after which the loop goes on; stated without the loop's state.
  predicate Succeeds(inp: Incoming, act: Act, write: Delivery) {
    inp.req.err == "" && inp.readErr.None? && act.err.None? && write.Written?
  }

  // The number of leading iterations that succeed.
  function Served(inbox: seq<Incoming>, acts: seq<Act>, writes: seq<Delivery>): (n: nat)
    requires |inbox| == |acts| == |writes|
    ensures n <= |inbox|
    ensures forall i :: 0 <= i < n ==> Succeeds(inbox[i], acts[i], writes[i])
    ensures n < |inbox| ==> !Succeeds(inbox[n], acts[n], writes[n])
  {
    if inbox == [] then 0
    else
      var m := |inbox| - 1;
      var before := Served(inbox[..m], acts[..m], writes[..m]);
      if before == m && Succeeds(inbox[m], acts[m], writes[m]) then |inbox| else before
  }

  // The last frame of a loop that ends, if one reaches the client: an error reply, or the reply whose
  // write was reported as failed.
  function Farewell(inp: Incoming, act: Act, write: Delivery): Option<RawData>
    requires !Succeeds(inp, act, write)
  {
    if inp.req.err != "" || write.Lost? then None
    else if inp.readErr.Some? then Some(ErrorReply(inp.req, inp.readErr.value))
    else if act.err.Some? then Some(ErrorReply(inp.req, act.err.value))
    else Some(Reply(inp.req, act.wrote))
  }

  // What one iteration does, in the two cases the loop distinguishes.
  lemma TurnCases(c: Server, inp: Incoming, act: Act, write: Delivery)
    requires c.up && c.writer == []
    ensures var t := Iterate(c, inp, act, write);
            if Succeeds(inp, act, write)
            then t.server.up && t.server.writer == [] && t.out == Some(Reply(inp.req, act.wrote))
            else !t.server.up && t.out == Farewell(inp, act, write)
    ensures var t := Iterate(c, inp, act, write);
            t.seen + t.server.reader ==
            c.reader + if inp.req.err == "" && inp.readErr.None? then inp.req.data else []
    ensures inp.req.err == "" && inp.readErr.None? ==>
              var t, n := Iterate(c, inp, act, write), |c.reader| + |inp.req.data|;
              |t.seen| == if act.take <= n then act.take else n
  {
    assert c.writer + act.wrote == act.wrote;
    TurnReads(c, inp, act, write);
  }

  lemma TurnReads(c: Server, inp: Incoming, act: Act, write: Delivery)
    requires c.up
    ensures var t := Iterate(c, inp, act, write);
            t.seen + t.server.reader ==
            c.reader + if inp.req.err == "" && inp.readErr.None? then inp.req.data else []
    ensures inp.req.err == "" && inp.readErr.None? ==>
              var t, n := Iterate(c, inp, act, write), |c.reader| + |inp.req.data|;
              |t.seen| == if act.take <= n then act.take else n
  {
  }

  // The reply to a served request: its integer id, no error, and the bytes its handler wrote.
  predicate Answers(rsp: RawData, req: RawData, wrote: seq<byte>) {
    rsp.err == "" && rsp.ID() == req.ID() && rsp.data == wrote
  }

  lemma ReplyAnswers(req: RawData, wrote: seq<byte>)
    ensures Answers(Reply(req, wrote), req, wrote)
  {
    FromToBytes(req.ID());
  }

  // The frames after the `n` replies, when iteration `n` fails: none if the frame carried an error or the
  // write was lost; else the request's id with the error's text and no data; or, if only the write was
  // reported as failed, the reply itself.
  predicate LastFrames(rest: seq<RawData>, inp: Incoming, act: Act, write: Delivery) {
    if inp.req.err != "" || write.Lost? then rest == []
    else
      && |rest| == 1
      && if inp.readErr.Some? || act.err.Some?
         then rest[0].id == inp.req.id && rest[0].data == []
              && rest[0].err == if inp.readErr.Some? then inp.readErr.value else act.err.value
         else Answers(rest[0], inp.req, act.wrote)
  }

  lemma FarewellIsLast(inp: Incoming, act: Act, write: Delivery)
    requires !Succeeds(inp, act, write)
    ensures var f := Farewell(inp, act, write);
            LastFrames(if f.Some? then [f.value] else [], inp, act, write)
  {
    ReplyAnswers(inp.req, act.wrote);
  }

  /** Replies come in request order, one per successful call, carrying the request's integer id and
      exactly the bytes that call wrote; the first failure adds at most one frame, an error reply with
      that request's id and the error's text or the reply whose write was reported as failed, and ends
      the loop, so nothing later is read. Each handler reads as much as it asks for and there is. */
  lemma {:induction false} RepliesInOrder(inbox: seq<Incoming>, acts: seq<Act>, writes: seq<Delivery>)
    requires |inbox| == |acts| == |writes|
    ensures var r, n := Serve(inbox, acts, writes), Served(inbox, acts, writes);
            && (r.server.up <==> n == |inbox|)
            && (r.server.up ==> r.server.writer == [])
            && |r.seen| == (if n == |inbox| then n else n + 1)
            && n <= |r.out| && (n == |inbox| ==> |r.out| == n)
            && (forall i :: 0 <= i < n ==> Answers(r.out[i], inbox[i].req, acts[i].wrote))
            && (n < |inbox| ==> LastFrames(r.out[n..], inbox[n], acts[n], writes[n]))
  {
    if inbox != [] {
      var m := |inbox| - 1;
      RepliesInOrder(inbox[..m], acts[..m], writes[..m]);
      var before := Serve(inbox[..m], acts[..m], writes[..m]);
      if before.server.up {
        TurnCases(before.server, inbox[m], acts[m], writes[m]);
        if Succeeds(inbox[m], acts[m], writes[m]) {
          ReplyAnswers(inbox[m].req, acts[m].wrote);
        } else {
          FarewellIsLast(inbox[m], acts[m], writes[m]);
          var f := Farewell(inbox[m], acts[m], writes[m]);
          var last := if f.Some? then [f.value] else [];
          assert (before.out + last)[m..] == last;
        }
      }
    }
  }

  function Flatten(parts: seq<seq<byte>>): seq<byte> {
    if parts == [] then [] else Flatten(parts[..|parts| - 1]) + parts[|parts| - 1]
  }

  // The payloads the loop accepted: those of the served requests, and of the first failing one if
  // its frame was read whole.
  function Accepted(inbox: seq<Incoming>, acts: seq<Act>, writes: seq<Delivery>): seq<seq<byte>>
    requires |inbox| == |acts| == |writes|
  {
    var n := Served(inbox, acts, writes);
    var whole := n < |inbox| && inbox[n].req.err == "" && inbox[n].readErr.None?;
    seq(if whole then n + 1 else n, i requires 0 <= i < |inbox| => inbox[i].req.data)
  }

  lemma AcceptedStep(inbox: seq<Incoming>, acts: seq<Act>, writes: seq<Delivery>)
    requires |inbox| == |acts| == |writes| > 0
    ensures var m := |inbox| - 1;
            var whole := inbox[m].req.err == "" && inbox[m].readErr.None?;
            var earlier := Accepted(inbox[..m], acts[..m], writes[..m]);
            Accepted(inbox, acts, writes) ==
            if Served(inbox[..m], acts[..m], writes[..m]) == m && whole then earlier + [inbox[m].req.data] else earlier
  {
  }

  /** Nothing a client sent is lost or invented on the way to the handlers: what they read, followed
      by what is still buffered, is the accepted payloads back to back. */
  lemma {:induction false} InputConserved(inbox: seq<Incoming>, acts: seq<Act>, writes: seq<Delivery>)
    requires |inbox| == |acts| == |writes|
    ensures var r := Serve(inbox, acts, writes);
            Flatten(r.seen) + r.server.reader == Flatten(Accepted(inbox, acts, writes))
  {
    if inbox != [] {
      var m := |inbox| - 1;
      var before := Serve(inbox[..m], acts[..m], writes[..m]);
      InputConserved(inbox[..m], acts[..m], writes[..m]);
      RepliesInOrder(inbox[..m], acts[..m], writes[..m]);
      AcceptedStep(inbox, acts, writes);
      if before.server.up {
        var t := Iterate(before.server, inbox[m], acts[m], writes[m]);
        var data := if inbox[m].req.err == "" && inbox[m].readErr.None? then inbox[m].req.data else [];
        TurnCases(before.server, inbox[m], acts[m], writes[m]);
        FlattenAppend(before.seen, t.seen);
        FlattenAppend(Accepted(inbox[..m], acts[..m], writes[..m]), data);
        AppendMoves(Flatten(before.seen), t.seen, t.server.reader, before.server.reader, data);
        assert Flatten(Accepted(inbox, acts, writes)) == Flatten(Accepted(inbox[..m], acts[..m], writes[..m])) + data;
      }
    }
  }

  lemma FlattenAppend(parts: seq<seq<byte>>, x: seq<byte>)
    ensures Flatten(parts + [x]) == Flatten(parts) + x
  {
    assert (parts + [x])[..|parts|] == parts;
  }

  lemma AppendMoves(a: seq<byte>, seen: seq<byte>, rest: seq<byte>, reader: seq<byte>, data: seq<byte>)
    requires seen + rest == reader + data
    ensures (a + seen) + rest == (a + reader) + data
  {
    assert (a + seen) + rest == a + (seen + rest);
    assert (a + reader) + data == a + (reader + data);
  }

  lemma DrainedTurn(c: Server, inp: Incoming, act: Act, write: Delivery)
    requires c.up && c.reader == [] && |inp.req.data| <= act.take
    ensures Iterate(c, inp, act, write).server.reader == []
    ensures Succeeds(inp, act, write) ==> Iterate(c, inp, act, write).seen == inp.req.data
  {
  }

  // One more turn of a loop that still runs; a loop that has ended stays as it is.
  lemma ServeOneMore(inbox: seq<Incoming>, acts: seq<Act>, writes: seq<Delivery>,
                     inp: Incoming, act: Act, write: Delivery)
    requires |inbox| == |acts| == |writes|
    ensures var b, r := Serve(inbox, acts, writes), Serve(inbox + [inp], acts + [act], writes + [write]);
            if b.server.up
            then r.server == Iterate(b.server, inp, act, write).server
                 && r.seen == b.seen + [Iterate(b.server, inp, act, write).seen]
            else r == b
    ensures var n := Served(inbox, acts, writes);
            Served(inbox + [inp], acts + [act], writes + [write]) ==
            if n == |inbox| && Succeeds(inp, act, write) then n + 1 else n
  {
    assert (inbox + [inp])[..|inbox|] == inbox && (acts + [act])[..|acts|] == acts;
    assert (writes + [write])[..|writes|] == writes;
  }

  // Every handler call reads its buffer to the end.
  ghost predicate Drains(inbox: seq<Incoming>, acts: seq<Act>, writes: seq<Delivery>)
    requires |inbox| == |acts| == |writes|
  {
    inbox != [] ==>
      var m := |inbox| - 1;
      && Drains(inbox[..m], acts[..m], writes[..m])
      && |Serve(inbox[..m], acts[..m], writes[..m]).server.reader| + |inbox[m].req.data| <= acts[m].take
  }

  ghost predicate OwnSeen(inbox: seq<Incoming>, seen: seq<seq<byte>>, n: nat) {
    n <= |seen| && n <= |inbox| && forall i :: 0 <= i < n ==> seen[i] == inbox[i].req.data
  }

  lemma DrainedOneMore(inbox: seq<Incoming>, acts: seq<Act>, writes: seq<Delivery>,
                       inp: Incoming, act: Act, write: Delivery)
    requires |inbox| == |acts| == |writes| && |inp.req.data| <= act.take
    requires var b, n := Serve(inbox, acts, writes), Served(inbox, acts, writes);
             && b.server.reader == [] && OwnSeen(inbox, b.seen, n)
             && (b.server.up <==> n == |inbox|) && (b.server.up ==> |b.seen| == n)
    ensures var r := Serve(inbox + [inp], acts + [act], writes + [write]);
            && r.server.reader == []
            && OwnSeen(inbox + [inp], r.seen, Served(inbox + [inp], acts + [act], writes + [write]))
  {
    ServeOneMore(inbox, acts, writes, inp, act, write);
    var b := Serve(inbox, acts, writes);
    if b.server.up {
      DrainedTurn(b.server, inp, act, write);
    }
  }

  lemma {:induction false} DrainedOwn(inbox: seq<Incoming>, acts: seq<Act>, writes: seq<Delivery>)
    requires |inbox| == |acts| == |writes|
    requires Drains(inbox, acts, writes)
    ensures Serve(inbox, acts, writes).server.reader == []
    ensures OwnSeen(inbox, Serve(inbox, acts, writes).seen, Served(inbox, acts, writes))
  {
    if inbox != [] {
      var m := |inbox| - 1;
      DrainedOwn(inbox[..m], acts[..m], writes[..m]);
      RepliesInOrder(inbox[..m], acts[..m], writes[..m]);
      DrainedOneMore(inbox[..m], acts[..m], writes[..m], inbox[m], acts[m], writes[m]);
      SplitLast(inbox);
      SplitLast(acts);
      SplitLast(writes);
    }
  }

  lemma SplitLast<T>(s: seq<T>)
    requires s != []
    ensures s[..|s| - 1] + [s[|s| - 1]] == s
  {
  }

  /** If every handler reads to the end, each sees exactly the payload of its own request. */
  lemma DrainedHandlersSeeOwnRequest(inbox: seq<Incoming>, acts: seq<Act>, writes: seq<Delivery>)
    requires |inbox| == |acts| == |writes|
    requires Drains(inbox, acts, writes)
    ensures Serve(inbox, acts, writes).server.reader == []
    ensures Served(inbox, acts, writes) <= |Serve(inbox, acts, writes).seen|
    ensures forall i :: 0 <= i < Served(inbox, acts, writes) ==>
              Serve(inbox, acts, writes).seen[i] == inbox[i].req.data
  {
    DrainedOwn(inbox, acts, writes);
  }

  /** The client takes a reply for a success exactly when its error text is empty, so a handler
      failure is seen by the client if and only if the handler's error text is not empty. */
  predicate ClientAccepts(rsp: RawData) { rsp.err == "" }

  lemma HandlerFailureSeen(c: Server, inp: Incoming, act: Act)
    requires c.up && inp.req.err == "" && inp.readErr.None? && act.err.Some?
    ensures Iterate(c, inp, act, Written).out.Some?
    ensures !ClientAccepts(Iterate(c, inp, act, Written).out.value) <==> act.err.value != ""
  {
  }

  /** reuse_conn: what the handler is given. */
  class ReuseConn {
    var reader: seq<byte>
    var writer: seq<byte>

    constructor ()
      ensures reader == [] && writer == []
    {
      reader, writer := [], [];
    }

    // bytes.Buffer.Read: up to `n` bytes from the front.
    method Read(n: nat) returns (p: seq<byte>)
      modifies this
      ensures p + reader == old(reader)
      ensures |p| == n || (|p| < n && reader == [])
      ensures writer == old(writer)
    {
      var m := if n <= |reader| then n else |reader|;
      p := reader[..m];
      reader := reader[m..];
    }

    method Write(p: seq<byte>)
      modifies this
      ensures writer == old(writer) + p
      ensures reader == old(reader)
    {
      writer := writer + p;
    }

    // ioutil.ReadAll on the writer buffer.
    method TakeWritten() returns (ret: seq<byte>)
      modifies this
      ensures ret == old(writer) && writer == []
      ensures reader == old(reader)
    {
      ret := writer;
      writer := [];
    }

    // A handler behaving as `act` says.
    method CallHandler(act: Act) returns (seen: seq<byte>, err: Option<string>)
      modifies this
      ensures err == act.err
      ensures seen + reader == old(reader)
      ensures |seen| == act.take || (|seen| < act.take && reader == [])
      ensures writer == old(writer) + act.wrote
    {
      seen := Read(act.take);
      Write(act.wrote);
      err := act.err;
    }
  }

  /** doHandleStream on a stream that delivers `inbox`; the loop blocks when the input runs out. */
  method DoHandleStream(inbox: seq<Incoming>, acts: seq<Act>, writes: seq<Delivery>)
    returns (rw: ReuseConn, out: seq<RawData>, ended: bool, ghost seenAll: seq<seq<byte>>)
    requires |inbox| == |acts| == |writes|
    ensures fresh(rw)
    ensures Session(Server(rw.reader, rw.writer, !ended), out, seenAll) == Serve(inbox, acts, writes)
  {
    rw := new ReuseConn();
    out, ended, seenAll := [], false, [];
    var i := 0;
    while i < |inbox| && !ended
      invariant 0 <= i <= |inbox|
      invariant fresh(rw)
      invariant Session(Server(rw.reader, rw.writer, !ended), out, seenAll) == Serve(inbox[..i], acts[..i], writes[..i])
      decreases |inbox| - i
    {
      var inp, act := inbox[i], acts[i];
      ghost var before := Serve(inbox[..i], acts[..i], writes[..i]);
      ghost var seen: seq<byte> := [];
      if inp.req.err != "" {
        ended := true;
      } else {
        var err := inp.readErr;
        if err.None? {
          rw.reader := rw.reader + inp.req.data;
          seen, err := rw.CallHandler(act);
          if err.None? {
            var ret := rw.TakeWritten();
            if !writes[i].Lost? {
              out := out + [Reply(inp.req, ret)];
            }
            ended := !writes[i].Written?;
          }
        }
        if err.Some? {
          if !writes[i].Lost? {
            out := out + [ErrorReply(inp.req, err.value)];
          }
          ended := true;
        }
      }
      seenAll := seenAll + [seen];
      i := i + 1;
      ServeStep(inbox, acts, writes, i);
      assert Iterate(before.server, inp, act, writes[i - 1]).seen == seen;
    }
    if ended {
      ServeStops(inbox, acts, writes, i);
    }
    assert inbox[..|inbox|] == inbox && acts[..|inbox|] == acts && writes[..|inbox|] == writes;
  }

  lemma ServeStep(inbox: seq<Incoming>, acts: seq<Act>, writes: seq<Delivery>, i: nat)
    requires |inbox| == |acts| == |writes| && 0 < i <= |inbox|
    ensures var before := Serve(inbox[..i - 1], acts[..i - 1], writes[..i - 1]);
            Serve(inbox[..i], acts[..i], writes[..i]) ==
            if !before.server.up then before
            else
              var t := Iterate(before.server, inbox[i - 1], acts[i - 1], writes[i - 1]);
              Session(t.server, before.out + (if t.out.Some? then [t.out.value] else []), before.seen + [t.seen])
  {
    assert inbox[..i][..i - 1] == inbox[..i - 1];
    assert acts[..i][..i - 1] == acts[..i - 1];
    assert writes[..i][..i - 1] == writes[..i - 1];
  }

  lemma {:induction false} ServeStops(inbox: seq<Incoming>, acts: seq<Act>, writes: seq<Delivery>, i: nat)
    requires |inbox| == |acts| == |writes| && i <= |inbox|
    requires !Serve(inbox[..i], acts[..i], writes[..i]).server.up
    ensures Serve(inbox, acts, writes) == Serve(inbox[..i], acts[..i], writes[..i])
    decreases |inbox| - i
  {
    if i < |inbox| {
      ServeStep(inbox, acts, writes, i + 1);
      ServeStops(inbox, acts, writes, i + 1);
    } else {
      assert inbox[..i] == inbox && acts[..i] == acts && writes[..i] == writes;
    }
  }
}
