/** The reuse-stream frame and its integer id (types.go). */
module RawData {
  import opened Counting

  type byte = b: int | 0 <= b < 256

  /** One frame of the reuse-stream protocol. An empty `err` marks a request or a success. */
  datatype RawData = RawData(id: seq<byte>, err: string, data: seq<byte>) {
    // The id as the unsigned big-endian integer it denotes.
    function ID(): nat { FromBytes(id) }
  }

  // math/big SetBytes: big-endian, any length.
  function FromBytes(b: seq<byte>): nat {
    if b == [] then 0 else FromBytes(b[..|b| - 1]) * 256 + b[|b| - 1]
  }

  // math/big Bytes: big-endian, without leading zeros; zero is the empty slice.
  function ToBytes(n: nat): seq<byte> {
    if n == 0 then [] else ToBytes(n / 256) + [n % 256]
  }

  function StripZeros(b: seq<byte>): seq<byte> {
    if b == [] || b[0] != 0 then b else StripZeros(b[1..])
  }

  /** `id` is the caller's integer; without one the 16 bytes of a fresh uuid are used. */
  function NewRawData(id: Option<nat>, uuid: seq<byte>, data: seq<byte>): RawData {
    var n := match id case Some(v) => v case None => FromBytes(uuid);
    RawData(ToBytes(n), "", data)
  }

  lemma {:induction false} FromToBytes(n: nat)
    ensures FromBytes(ToBytes(n)) == n
  {
    if n != 0 {
      var b := ToBytes(n);
      assert b[..|b| - 1] == ToBytes(n / 256);
      FromToBytes(n / 256);
    }
  }

  lemma {:induction false} ToFromBytesNoLeadingZero(b: seq<byte>)
    requires b != [] ==> b[0] != 0
    ensures FromBytes(b) == 0 <==> b == []
    ensures ToBytes(FromBytes(b)) == b
  {
    if b != [] {
      var front, last := b[..|b| - 1], b[|b| - 1];
      ToFromBytesNoLeadingZero(front);
      var n := FromBytes(b);
      assert n / 256 == FromBytes(front) && n % 256 == last;
      assert n != 0 by {
        if front == [] { assert last == b[0]; }
      }
    }
  }

  lemma {:induction false} LeadingZeroIgnored(b: seq<byte>)
    requires b != [] && b[0] == 0
    ensures FromBytes(b[1..]) == FromBytes(b)
  {
    if |b| > 1 {
      LeadingZeroIgnored(b[..|b| - 1]);
      assert b[1..][..|b| - 2] == b[..|b| - 1][1..];
    } else {
      assert b[..0] == [] && b[1..] == [];
    }
  }

  lemma {:induction false} StripZerosKeepsValue(b: seq<byte>)
    ensures FromBytes(StripZeros(b)) == FromBytes(b)
    ensures StripZeros(b) != [] ==> StripZeros(b)[0] != 0
  {
    if b != [] && b[0] == 0 {
      LeadingZeroIgnored(b);
      StripZerosKeepsValue(b[1..]);
    }
  }

  /** Reading an id and writing it back strips exactly the leading zeros, for ids of any length. */
  lemma IdNormalises(b: seq<byte>)
    ensures ToBytes(FromBytes(b)) == StripZeros(b)
    ensures FromBytes(ToBytes(FromBytes(b))) == FromBytes(b)
    ensures ToBytes(FromBytes(b)) == b <==> (b == [] || b[0] != 0)
  {
    StripZerosKeepsValue(b);
    ToFromBytesNoLeadingZero(StripZeros(b));
    if b != [] && b[0] == 0 {
      StripZerosShortens(b);
    }
  }

  lemma {:induction false} StripZerosShortens(b: seq<byte>)
    requires b != [] && b[0] == 0
    ensures |StripZeros(b)| < |b|
  {
    if |b| > 1 && b[1] == 0 {
      StripZerosShortens(b[1..]);
    }
  }

  /** The id built for a request comes back byte for byte when the server rebuilds it from its
      integer, whatever the caller's integer or uuid was. */
  lemma IdSurvivesHop(id: Option<nat>, uuid: seq<byte>, data: seq<byte>, uuid': seq<byte>, reply: seq<byte>)
    ensures var req := NewRawData(id, uuid, data);
            NewRawData(Some(req.ID()), uuid', reply).id == req.id
  {
    var n := match id case Some(v) => v case None => FromBytes(uuid);
    FromToBytes(n);
  }

  /** What a new frame carries: the caller's integer, or else the uuid without its leading zero bytes, and
      the data. */
  lemma NewRawDataCarries(id: Option<nat>, uuid: seq<byte>, data: seq<byte>)
    ensures var frame := NewRawData(id, uuid, data);
            && frame.err == "" && frame.data == data
            && (id.Some? ==> frame.ID() == id.value)
            && (id.None? ==> frame.id == StripZeros(uuid) && frame.ID() == FromBytes(uuid))
            && (frame.id != [] ==> frame.id[0] != 0)
  {
    var n := match id case Some(v) => v case None => FromBytes(uuid);
    FromToBytes(n);
    IdNormalises(uuid);
    IdNormalises(ToBytes(n));
  }
}
