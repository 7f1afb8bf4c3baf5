/** The six-byte packet head (types.go): a 16-bit message type and a 32-bit size, big-endian. */
module PacketHead {
  import opened Counting
  import opened RawData

  type uint16 = n: int | 0 <= n < 0x1_0000
  type uint32 = n: int | 0 <= n < 0x1_0000_0000

  datatype Decoded = Decoded(msgType: uint16, size: uint32)
  datatype Result<+T> = Ok(value: T) | Err

  // binary.BigEndian for a field of `width` bytes.
  function PutUint(n: nat, width: nat): (r: seq<byte>)
    ensures |r| == width
  {
    if width == 0 then [] else PutUint(n / 256, width - 1) + [n % 256]
  }

  function Pow256(width: nat): nat {
    if width == 0 then 1 else 256 * Pow256(width - 1)
  }

  lemma {:induction false} PutThenRead(n: nat, width: nat)
    requires n < Pow256(width)
    ensures FromBytes(PutUint(n, width)) == n
  {
    if width > 0 {
      PutThenRead(n / 256, width - 1);
      var b := PutUint(n, width);
      assert b[..|b| - 1] == PutUint(n / 256, width - 1);
    }
  }

  lemma {:induction false} ReadThenPut(b: seq<byte>)
    ensures FromBytes(b) < Pow256(|b|)
    ensures PutUint(FromBytes(b), |b|) == b
  {
    if b != [] {
      ReadThenPut(b[..|b| - 1]);
      var n := FromBytes(b);
      assert n / 256 == FromBytes(b[..|b| - 1]) && n % 256 == b[|b| - 1];
    }
  }

  lemma Widths()
    ensures Pow256(2) == 0x1_0000 && Pow256(4) == 0x1_0000_0000
  {
    assert Pow256(1) == 256;
    assert Pow256(2) == 256 * 256;
    assert Pow256(3) == 256 * 256 * 256;
  }

  /** NewSimplePacketHead: the length of the data is truncated to 32 bits. */
  method NewSimplePacketHead(msgType: uint16, dataLength: nat) returns (head: seq<byte>)
    ensures |head| == 6
    ensures Decode(head) == Ok(Decoded(msgType, dataLength % 0x1_0000_0000))
  {
    var psize := dataLength % 0x1_0000_0000;
    head := [];
    head := head + PutUint(msgType, 2);
    head := head + PutUint(psize, 4);
    Widths();
    PutThenRead(msgType, 2);
    PutThenRead(psize, 4);
    assert head[..2] == PutUint(msgType, 2) && head[2..] == PutUint(psize, 4);
  }

  function Decode(header: seq<byte>): Result<Decoded> {
    if |header| != 6 then Err
    else
      Widths();
      ReadThenPut(header[..2]);
      ReadThenPut(header[2..]);
      Ok(Decoded(FromBytes(header[..2]), FromBytes(header[2..])))
  }

  /** Decoding fails on every length but six, and on six bytes the head can be rebuilt exactly. */
  lemma DecodeDetermines(header: seq<byte>)
    ensures Decode(header).Err? <==> |header| != 6
    ensures Decode(header).Ok? ==>
              header == PutUint(Decode(header).value.msgType, 2) + PutUint(Decode(header).value.size, 4)
  {
    if |header| == 6 {
      ReadThenPut(header[..2]);
      ReadThenPut(header[2..]);
      assert header == header[..2] + header[2..];
    }
  }

  /** ReadSimplePacketHead: one Read call; `available` is what that call delivers and `readErr` its
      error. A short read yields the nil head, possibly with no error at all. */
  method ReadSimplePacketHead(available: seq<byte>, readErr: bool) returns (head: seq<byte>, err: bool)
    ensures err == (readErr && head == [])
    ensures head != [] <==> |available| >= 6 && !readErr
    ensures head != [] ==> head == available[..6] && Decode(head).Ok?
    ensures head == [] ==> Decode(head).Err?
  {
    var buf := new byte[6](_ => 0);
    var t := 0;
    while t < 6 && t < |available|
      invariant 0 <= t <= 6 && t <= |available|
      invariant buf[..t] == available[..t]
    {
      buf[t] := available[t];
      t := t + 1;
    }
    if t != 6 || readErr {
      return [], readErr;
    }
    head, err := buf[..], false;
  }
}
