/**
  The frame builder of `ModulationController` (index.js): control and data
  headers, the 256-byte data region, the murmurhash footers, the two
  protocol versions' XOR striping, and the complete control (40-byte) and
  data (272-byte) packets.

  Wire layout of a data packet, by byte offset:
    0..7     preamble 00 00 00 00 AA 55 42
    7..11    header  [version, 0x02, block lo, block hi]   (striped by V2)
    11..267  data, 256 bytes, 0xFF-padded               (striped by V1 and V2)
    267..271 footer: hash of the UNSTRIPED header and data, seed 0xDEADBEEF
    271      stop byte FF
  Control packet:
    0..7 preamble, 7..11 [version, 0x01, 0, 0], 11..15 payload length,
    15..19 payload hash (seed 0x32D0BABE), 19..35 MD5, 35..39 footer over
    bytes 7..35, 39 stop byte.
*/
module Frame {
  import opened Bytes
  import opened External

  datatype Option<T> = None | Some(value: T)

  /** The protocol versions the encoder knows (`PROT_VERSION_1`, `PROT_VERSION_2`). */
  datatype Version = V1 | V2

  datatype Error = UnrecognizedVersion(version: int)

  datatype Result<T> = Ok(value: T) | Err(error: Error)

  const ControlPacketType: byte := 0x01
  const DataPacketType: byte := 0x02

  const Preamble: seq<byte> := [0x00, 0x00, 0x00, 0x00, 0xAA, 0x55, 0x42]
  const StopBytes: seq<byte> := [0xFF]

  const FooterSeed: u32 := 0xDEADBEEF
  const ProgramHashSeed: u32 := 0x32D0BABE

  /** Size of the data region of every data packet. */
  const DataLength: nat := 256
  const ControlPacketLength: nat := 40
  const DataPacketLength: nat := 272

  function VersionByte(v: Version): byte
  {
    match v
    case V1 => 0x01
    case V2 => 0x02
  }

  /** The version a numeric `this.version` selects in `makeDataPacket`; any other number is refused. */
  function VersionOf(n: int): (r: Option<Version>)
    ensures r.Some? <==> n == 1 || n == 2
    ensures r.Some? ==> VersionByte(r.value) == n
  {
    if n == 1 then Some(V1) else if n == 2 then Some(V2) else None
  }

  /* ---------- headers ---------- */

  /**
    `makeControlHeader`: four bytes whose first names the version, whose
    second marks a control packet, and whose last two read as zero.
  */
  function ControlHeader(v: Version): (r: seq<byte>)
    ensures |r| == 4
    ensures VersionOf(r[0]) == Some(v) && r[1] == ControlPacketType
    ensures DecodeU16(r[2..4]) == 0
  {
    [VersionByte(v), ControlPacketType, 0x00, 0x00]
  }

  /**
    `makeDataHeader`: `blockNum & 0xff`, `(blockNum >> 8) & 0xff` after the
    version and type bytes, so the block field reads back as the block
    number modulo 65536.
  */
  function DataHeader(v: Version, blockNum: nat): (r: seq<byte>)
    ensures |r| == 4
    ensures VersionOf(r[0]) == Some(v) && r[1] == DataPacketType
    ensures HeaderBlockNumber(r) == blockNum % Two16
  {
    var r := [VersionByte(v), DataPacketType, Low8(blockNum), Low8(blockNum / 256)];
    assert r[2..4] == MakeUint16(blockNum);
    r
  }

  /** The block number a receiver reads from an (unstriped) data header. */
  function HeaderBlockNumber(header: seq<byte>): nat
    requires |header| == 4
  {
    DecodeU16(header[2..4])
  }

  /** Two block numbers give the same header exactly when they agree modulo 65536: the number wraps. */
  lemma DataHeaderWraps(v: Version, a: nat, b: nat)
    ensures DataHeader(v, a) == DataHeader(v, b) <==> a % Two16 == b % Two16
  {
    if a % Two16 == b % Two16 {
      TwoDigits(a);
      TwoDigits(b);
      DivModUnique(a % Two16, 256, (a / 256) % 256, a % 256);
      DivModUnique(b % Two16, 256, (b / 256) % 256, b % 256);
    }
  }

  /** Byte 1 tells control from data headers, and byte 0 names the version, under either version. */
  lemma HeaderKinds(v: Version, w: Version, blockNum: nat)
    ensures ControlHeader(v) != DataHeader(w, blockNum)
    ensures VersionOf(ControlHeader(v)[0]) == Some(v)
    ensures VersionOf(DataHeader(w, blockNum)[0]) == Some(w)
  {
    assert ControlHeader(v)[1] != DataHeader(w, blockNum)[1];
  }

  /* ---------- footer ---------- */

  /** `makeFooter(parts...)`: the little-endian hash, seed 0xDEADBEEF, of the parts joined in order. */
  function MakeFooter(ports: Ports, parts: seq<seq<byte>>): (r: seq<byte>)
    ensures |r| == 4
    ensures DecodeU32(r) == ports.hash(Flatten(parts), FooterSeed)
  {
    MakeUint32(ports.hash(Flatten(parts), FooterSeed))
  }

  lemma FlattenTwo(a: seq<byte>, b: seq<byte>)
    ensures Flatten([a, b]) == a + b
  {
    assert [a, b][..1] == [a];
    assert [a][..0] == [];
    assert Flatten([a]) == Flatten([a][..0]) + a;
  }

  lemma FlattenFour(a: seq<byte>, b: seq<byte>, c: seq<byte>, d: seq<byte>)
    ensures Flatten([a, b, c, d]) == a + b + c + d
  {
    assert [a, b, c, d][..3] == [a, b, c];
    assert [a, b, c][..2] == [a, b];
    FlattenTwo(a, b);
  }

  /* ---------- striping ---------- */

  /** Protocol 1 key for data byte `i`. */
  function V1Key(i: nat): byte
  {
    if i % 16 == 3 then 0x55 else if i % 16 == 11 then 0xAA else 0x00
  }

  /** Protocol 2 key for position `j` of the header-then-data stream. */
  function V2Key(j: nat): byte
  {
    if j % 3 == 0 then 0x35 else if j % 3 == 1 then 0xAC else 0x95
  }

  /**
    The key XORed into byte `j` of the 260-byte body header ‖ data.
    Version 1 leaves the header alone and keys data byte `j - 4` by its
    position modulo 16; version 2 leaves the version and type bytes alone and
    keys everything from the block number on by `j` modulo 3.
  */
  function StripeKey(v: Version, j: nat): byte
  {
    match v
    case V1 => if j < 4 then 0x00 else V1Key(j - 4)
    case V2 => if j < 2 then 0x00 else V2Key(j)
  }

  /** Striping of a packet body (header followed by data). */
  function Stripe(v: Version, body: seq<byte>): (r: seq<byte>)
    ensures |r| == |body|
    ensures forall j | 0 <= j < |body| :: r[j] == Xor(body[j], StripeKey(v, j))
  {
    seq(|body|, j requires 0 <= j < |body| => Xor(body[j], StripeKey(v, j)))
  }

  /** Striping twice restores the bytes: a receiver undoes it by striping again. */
  lemma StripeInvolution(v: Version, body: seq<byte>)
    ensures Stripe(v, Stripe(v, body)) == body
  {
    var r := Stripe(v, Stripe(v, body));
    forall j | 0 <= j < |body|
      ensures r[j] == body[j]
    {
      XorInvolution(body[j], StripeKey(v, j));
    }
  }

  /**
    Exactly which bytes striping alters: under version 1, the data bytes at
    positions 3 and 11 modulo 16, never the header; under version 2, every
    byte but the version and type bytes.
  */
  lemma StripeTouches(v: Version, body: seq<byte>)
    ensures forall j | 0 <= j < |body| ::
      (Stripe(v, body)[j] != body[j] <==>
        match v
        case V1 => j >= 4 && ((j - 4) % 16 == 3 || (j - 4) % 16 == 11)
        case V2 => j >= 2)
  {
    forall j | 0 <= j < |body|
      ensures Stripe(v, body)[j] != body[j] <==> StripeKey(v, j) != 0
    {
      XorFixed(body[j], StripeKey(v, j));
    }
  }

  /** The protocol 1 loop of `makeDataPacket` (index.js:416-422), in place on the data array. */
  method StripeV1InPlace(data: seq<byte>) returns (d: seq<byte>)
    ensures |d| == |data|
    ensures forall k | 0 <= k < |data| :: d[k] == Xor(data[k], V1Key(k))
  {
    d := data;
    for i := 0 to |data|
      invariant |d| == |data|
      invariant forall k | 0 <= k < |data| :: d[k] == if k < i then Xor(data[k], V1Key(k)) else data[k]
    {
      if i % 16 == 3 {
        d := d[i := Xor(d[i], 0x55)];
      } else if i % 16 == 11 {
        d := d[i := Xor(d[i], 0xAA)];
      }
    }
  }

  /**
    The protocol 2 loop of `makeDataPacket` (index.js:423-440): a position
    `i` from 2 to `|data| + 4` walks header bytes 2 and 3, then data byte
    `i - 4`, XORing each with the key for `i % 3`.
  */
  method StripeV2InPlace(header: seq<byte>, data: seq<byte>) returns (h: seq<byte>, d: seq<byte>)
    requires |header| == 4
    ensures |h| == 4 && |d| == |data|
    ensures h[0] == header[0] && h[1] == header[1]
    ensures h[2] == Xor(header[2], V2Key(2)) && h[3] == Xor(header[3], V2Key(3))
    ensures forall k | 0 <= k < |data| :: d[k] == Xor(data[k], V2Key(k + 4))
  {
    h, d := header, data;
    for i := 2 to |data| + 4
      invariant |h| == 4 && |d| == |data|
      invariant forall j | 0 <= j < 4 :: h[j] == if 2 <= j < i then Xor(header[j], V2Key(j)) else header[j]
      invariant forall k | 0 <= k < |data| :: d[k] == if k + 4 < i then Xor(data[k], V2Key(k + 4)) else data[k]
    {
      if i < 4 {
        if i % 3 == 0 {
          h := h[i := Xor(h[i], 0x35)];
        } else if i % 3 == 1 {
          h := h[i := Xor(h[i], 0xAC)];
        } else {
          h := h[i := Xor(h[i], 0x95)];
        }
      } else {
        if i % 3 == 0 {
          d := d[i - 4 := Xor(d[i - 4], 0x35)];
        } else if i % 3 == 1 {
          d := d[i - 4 := Xor(d[i - 4], 0xAC)];
        } else {
          d := d[i - 4 := Xor(d[i - 4], 0x95)];
        }
      }
    }
  }

  /** The two striping loops, dispatched on the version, apply `Stripe` to header ‖ data. */
  method StripeInPlace(v: Version, header: seq<byte>, data: seq<byte>) returns (h: seq<byte>, d: seq<byte>)
    requires |header| == 4
    ensures |h| == 4 && |d| == |data|
    ensures h + d == Stripe(v, header + data)
  {
    match v
    case V1 =>
      h := header;
      d := StripeV1InPlace(data);
    case V2 =>
      h, d := StripeV2InPlace(header, data);
    var want := Stripe(v, header + data);
    forall j | 0 <= j < |h + d|
      ensures (h + d)[j] == want[j]
    {
      if j < 4 {
        assert (h + d)[j] == h[j] && (header + data)[j] == header[j];
      } else {
        assert (h + d)[j] == d[j - 4] && (header + data)[j] == data[j - 4];
      }
    }
  }

  /* ---------- packets ---------- */

  /**
    The 256-byte data region: a `Uint8Array(256)` filled with 0xFF, then
    `appendData(data, dataIn, 0)`. Input bytes past 256 fall off the end.
  */
  function PadData(dataIn: seq<byte>): (r: seq<byte>)
    ensures |r| == DataLength
    ensures forall i | 0 <= i < DataLength :: r[i] == if i < |dataIn| then dataIn[i] else 0xFF
  {
    AppendData(seq(DataLength, _ => 0xFF), dataIn, 0)
  }

  /** `makeCtlPacket`: announces the whole payload's length, hash and MD5. */
  function CtlPacket(ports: Ports, v: Version, payload: seq<byte>): (r: seq<byte>)
    ensures |r| == ControlPacketLength
  {
    var header := ControlHeader(v);
    var length := MakeUint32(|payload|);
    var programHash := MakeUint32(ports.hash(payload, ProgramHashSeed));
    var guid := ports.md5(payload);
    var body := header + length + programHash + guid;
    var footer := MakeFooter(ports, [header, length, programHash, guid]);
    Preamble + body + footer + StopBytes
  }

  /**
    `makeDataPacket` for a known version. The footer is taken over the header
    and data before striping (index.js:408); striping then alters the header
    and data only.
  */
  function DataPacket(ports: Ports, v: Version, dataIn: seq<byte>, blockNum: nat): (r: seq<byte>)
    ensures |r| == DataPacketLength
  {
    var header := DataHeader(v, blockNum);
    var data := PadData(dataIn);
    var footer := MakeFooter(ports, [header, data]);
    Preamble + Stripe(v, header + data) + footer + StopBytes
  }

  /**
    `makeDataPacket` as the source runs it, with `this.version` any number:
    versions other than 1 and 2 are refused.
  */
  function MakeDataPacket(ports: Ports, version: int, dataIn: seq<byte>, blockNum: nat): (r: Result<seq<byte>>)
    ensures r.Ok? <==> version == 1 || version == 2
    ensures r.Err? ==> r.error == UnrecognizedVersion(version)
    ensures r.Ok? ==> |r.value| == DataPacketLength && r.value[7] == version
  {
    match VersionOf(version)
    case Some(v) =>
      DataPacketLayout(ports, v, dataIn, blockNum);
      Ok(DataPacket(ports, v, dataIn, blockNum))
    case None => Err(UnrecognizedVersion(version))
  }

  /* ---------- what a receiver reads back ---------- */

  /** A control packet's footer checks out: it is the hash of the bytes between preamble and footer. */
  predicate ControlFooterValid(ports: Ports, p: seq<byte>)
    requires |p| == ControlPacketLength
  {
    DecodeU32(p[35..39]) == ports.hash(p[7..35], FooterSeed)
  }

  /** A data packet's footer checks out once header and data are de-striped. */
  predicate DataFooterValid(ports: Ports, v: Version, p: seq<byte>)
    requires |p| == DataPacketLength
  {
    DecodeU32(p[267..271]) == ports.hash(Stripe(v, p[7..267]), FooterSeed)
  }

  /** What a receiver recovers from a data packet. */
  datatype Received = Received(blockNum: nat, data: seq<byte>)

  /** The block number and 256 data bytes a receiver recovers from a data packet. */
  function DecodeDataPacket(v: Version, p: seq<byte>): Received
    requires |p| == DataPacketLength
  {
    var body := Stripe(v, p[7..267]);
    Received(HeaderBlockNumber(body[..4]), body[4..])
  }

  /**
    Layout of a control packet: 40 bytes framed by the preamble and the stop
    byte; the length field reads back as the payload length modulo 2^32, then
    the payload hash (seed 0x32D0BABE), the MD5, and a valid footer.
  */
  lemma CtlPacketLayout(ports: Ports, v: Version, payload: seq<byte>)
    ensures var p := CtlPacket(ports, v, payload);
      && |p| == ControlPacketLength
      && p[..7] == Preamble
      && p[7..11] == ControlHeader(v)
      && DecodeU32(p[11..15]) == |payload| % Two32
      && DecodeU32(p[15..19]) == ports.hash(payload, ProgramHashSeed)
      && p[19..35] == ports.md5(payload)
      && ControlFooterValid(ports, p)
      && p[39] == 0xFF
  {
    var header := ControlHeader(v);
    var length := MakeUint32(|payload|);
    var programHash := MakeUint32(ports.hash(payload, ProgramHashSeed));
    var guid := ports.md5(payload);
    var footer := MakeFooter(ports, [header, length, programHash, guid]);
    var p := CtlPacket(ports, v, payload);
    var body := header + length + programHash + guid;
    SliceOfConcat4(header, length, programHash, guid);
    SliceOfConcat3(Preamble, body, footer + StopBytes);
    assert p == Preamble + body + (footer + StopBytes);
    assert p[35..39] == (footer + StopBytes)[..4] == footer;
    assert p[11..15] == body[4..8];
    assert p[15..19] == body[8..12];
    var ph := ports.hash(payload, ProgramHashSeed);
    assert DecodeU32(programHash) == ph;
    assert p[19..35] == body[12..28];
    FlattenFour(header, length, programHash, guid);
  }

  lemma SliceOfConcat3(a: seq<byte>, b: seq<byte>, c: seq<byte>)
    ensures (a + b + c)[..|a|] == a
    ensures (a + b + c)[|a|..|a| + |b|] == b
    ensures (a + b + c)[|a| + |b|..] == c
    ensures forall i, j | |a| <= i <= j <= |a| + |b| :: (a + b + c)[i..j] == b[i - |a|..j - |a|]
  {
  }

  lemma SliceOfConcat4(a: seq<byte>, b: seq<byte>, c: seq<byte>, d: seq<byte>)
    ensures (a + b + c + d)[..|a|] == a
    ensures (a + b + c + d)[|a|..|a| + |b|] == b
    ensures (a + b + c + d)[|a| + |b|..|a| + |b| + |c|] == c
    ensures (a + b + c + d)[|a| + |b| + |c|..] == d
  {
  }

  /**
    Layout of a data packet: 272 bytes framed by the preamble and the stop
    byte; the version and type bytes are readable before de-striping;
    de-striping yields the header and the padded data, and the footer is
    the hash of exactly those bytes.
  */
  lemma DataPacketLayout(ports: Ports, v: Version, dataIn: seq<byte>, blockNum: nat)
    ensures var p := DataPacket(ports, v, dataIn, blockNum);
      && |p| == DataPacketLength
      && p[..7] == Preamble
      && p[7] == VersionByte(v)
      && p[8] == DataPacketType
      && Stripe(v, p[7..267]) == DataHeader(v, blockNum) + PadData(dataIn)
      && DecodeU32(p[267..271]) == ports.hash(DataHeader(v, blockNum) + PadData(dataIn), FooterSeed)
      && DataFooterValid(ports, v, p)
      && p[271] == 0xFF
  {
    var header := DataHeader(v, blockNum);
    var data := PadData(dataIn);
    var footer := MakeFooter(ports, [header, data]);
    var p := DataPacket(ports, v, dataIn, blockNum);
    var striped := Stripe(v, header + data);
    assert p == Preamble + striped + footer + StopBytes;
    assert p[..7] == Preamble;
    assert p[7..267] == striped;
    assert p[267..271] == footer;
    assert p[7] == striped[0] && p[8] == striped[1];
    StripeInvolution(v, header + data);
    FlattenTwo(header, data);
  }

  /**
    The receiver's view of a data packet: it recovers the block number modulo
    65536 and the 256-byte region, whose bytes are the input's as far as it
    goes and 0xFF after it. An input that fits comes back whole.
  */
  lemma DataPacketRoundTrip(ports: Ports, v: Version, dataIn: seq<byte>, blockNum: nat)
    ensures var r := DecodeDataPacket(v, DataPacket(ports, v, dataIn, blockNum));
      && r.blockNum == blockNum % Two16
      && |r.data| == DataLength
      && (forall i | 0 <= i < DataLength :: r.data[i] == if i < |dataIn| then dataIn[i] else 0xFF)
      && (|dataIn| <= DataLength ==> r.data[..|dataIn|] == dataIn)
  {
    DataPacketLayout(ports, v, dataIn, blockNum);
    var body := DataHeader(v, blockNum) + PadData(dataIn);
    assert body[..4] == DataHeader(v, blockNum);
    assert body[4..] == PadData(dataIn);
  }

  /**
    The striping of a data packet byte by byte, at packet offsets: the
    preamble, footer and stop byte are as built; version 1 keeps the header
    and XORs data byte `i` with 0x55 or 0xAA at `i % 16 == 3` or `11`;
    version 2 keeps header bytes 0 and 1, XORs header bytes 2 and 3 with 0x95
    and 0x35, and data byte `k` with [0x35, 0xAC, 0x95][(k + 4) % 3].
  */
  lemma DataPacketStriping(ports: Ports, v: Version, dataIn: seq<byte>, blockNum: nat)
    ensures var p := DataPacket(ports, v, dataIn, blockNum);
      var h := DataHeader(v, blockNum);
      var d := PadData(dataIn);
      && |p| == DataPacketLength
      && p[267..271] == MakeFooter(ports, [h, d])
      && (v == V1 ==>
            && p[7..11] == h
            && forall i | 0 <= i < DataLength ::
                 p[11 + i] == Xor(d[i], if i % 16 == 3 then 0x55 else if i % 16 == 11 then 0xAA else 0x00))
      && (v == V2 ==>
            && p[7] == h[0] && p[8] == h[1]
            && p[9] == Xor(h[2], 0x95) && p[10] == Xor(h[3], 0x35)
            && forall k | 0 <= k < DataLength ::
                 p[11 + k] == Xor(d[k], [0x35, 0xAC, 0x95][(k + 4) % 3]))
  {
    var h := DataHeader(v, blockNum);
    var d := PadData(dataIn);
    var p := DataPacket(ports, v, dataIn, blockNum);
    var body := Stripe(v, h + d);
    DataPacketBody(ports, v, dataIn, blockNum);
    forall k | 0 <= k < DataLength
      ensures p[11 + k] == Xor(d[k], StripeKey(v, k + 4))
    {
      assert p[11 + k] == body[k + 4] && (h + d)[k + 4] == d[k];
    }
    forall j | 0 <= j < 4
      ensures p[7 + j] == Xor(h[j], StripeKey(v, j))
    {
      assert p[7 + j] == body[j] && (h + d)[j] == h[j];
    }
    if v == V1 {
      assert p[7..11] == h;
    }
  }

  /** The striped body and the footer sit between the preamble and the stop byte. */
  lemma DataPacketBody(ports: Ports, v: Version, dataIn: seq<byte>, blockNum: nat)
    ensures var p := DataPacket(ports, v, dataIn, blockNum);
      var h := DataHeader(v, blockNum);
      var d := PadData(dataIn);
      && |p| == DataPacketLength
      && p[7..267] == Stripe(v, h + d)
      && p[267..271] == MakeFooter(ports, [h, d])
  {
    var h := DataHeader(v, blockNum);
    var d := PadData(dataIn);
    var p := DataPacket(ports, v, dataIn, blockNum);
    var striped := Stripe(v, h + d);
    assert p == Preamble + striped + MakeFooter(ports, [h, d]) + StopBytes;
    assert p[7..267] == striped;
    assert p[267..271] == MakeFooter(ports, [h, d]);
  }

  /* ---------- the builders as written ---------- */

  /**
    `makeCtlPacket(data)`: the header, the length, the payload hash and the
    MD5 computed one by one, the footer over those four, and the seven parts
    copied into one array by `makePacket`.
  */
  method BuildCtlPacket(ports: Ports, v: Version, payload: seq<byte>) returns (pkt: seq<byte>)
    ensures pkt == CtlPacket(ports, v, payload)
    ensures |pkt| == ControlPacketLength && ControlFooterValid(ports, pkt)
  {
    var header := ControlHeader(v);
    var programLength := MakeUint32(|payload|);
    var programHash := MakeUint32(ports.hash(payload, ProgramHashSeed));
    var programGuid := ports.md5(payload);
    var footer := MakeFooter(ports, [header, programLength, programHash, programGuid]);
    pkt := MakePacket([Preamble, header, programLength, programHash, programGuid, footer, StopBytes]);
    FlattenSeven(Preamble, header, programLength, programHash, programGuid, footer, StopBytes);
    assert pkt == Preamble + (header + programLength + programHash + programGuid) + footer + StopBytes;
    CtlPacketLayout(ports, v, payload);
  }

  /**
    `makeDataPacket(dataIn, blocknum)`: the header, the 0xFF-filled data
    region with the input copied in, the footer over both, then the version's
    striping loop in place and `makePacket`. With `this.version` neither 1
    nor 2 it throws.
  */
  method BuildDataPacket(ports: Ports, version: int, dataIn: seq<byte>, blockNum: nat)
    returns (r: Result<seq<byte>>)
    ensures r == MakeDataPacket(ports, version, dataIn, blockNum)
    ensures r.Ok? ==> DataFooterValid(ports, VersionOf(version).value, r.value)
  {
    match VersionOf(version)
    case None =>
      return Err(UnrecognizedVersion(version));
    case Some(v) =>
      var header := DataHeader(v, blockNum);
      var data := AppendData(seq(DataLength, _ => 0xFF), dataIn, 0);
      var footer := MakeFooter(ports, [header, data]);
      var h, d := StripeInPlace(v, header, data);
      var pkt := MakePacket([Preamble, h, d, footer, StopBytes]);
      FlattenFive(Preamble, h, d, footer, StopBytes);
      assert pkt == Preamble + (h + d) + footer + StopBytes;
      DataPacketLayout(ports, v, dataIn, blockNum);
      r := Ok(pkt);
  }

  lemma FlattenFive(a: seq<byte>, b: seq<byte>, c: seq<byte>, d: seq<byte>, e: seq<byte>)
    ensures Flatten([a, b, c, d, e]) == a + b + c + d + e
  {
    assert [a, b, c, d, e][..4] == [a, b, c, d];
    FlattenFour(a, b, c, d);
  }

  lemma FlattenSeven(a: seq<byte>, b: seq<byte>, c: seq<byte>, d: seq<byte>, e: seq<byte>, f: seq<byte>, g: seq<byte>)
    ensures Flatten([a, b, c, d, e, f, g]) == a + b + c + d + e + f + g
  {
    assert [a, b, c, d, e, f, g][..6] == [a, b, c, d, e, f];
    assert [a, b, c, d, e, f][..5] == [a, b, c, d, e];
    FlattenFive(a, b, c, d, e);
  }
}
