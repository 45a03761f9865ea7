/**
  The transmission assembler `transcode` (index.js:57-112) and the silence
  writer `makeSilence`: the payload becomes one control packet sent twice and
  one data packet per 256-byte block, modulated and separated by silences.

  The sample stream is described twice: `Plan` lists the segments in order
  (a silence of so many milliseconds, the pilot tone, or a packet to
  modulate) and `RenderAll` turns a plan into samples; the method
  `Transcode` follows the source, pushing samples onto one growing buffer,
  and is proved to produce exactly the rendered plan.
*/
module Transmission {
  import opened Bytes
  import opened External
  import opened Frame

  /**
    The fields of `ModulationController` that `transcode` reads and writes.
    The constructor sets `rate` to 44100 and defaults `version` to 2 and
    `lbr` to false.
  */
  datatype Controller = Controller(version: int, lbr: bool, rate: nat)

  const SampleRate: nat := 44100

  /* durations in milliseconds, in the order they are used */
  const LeadSilenceMs: nat := 150
  const PilotMs: nat := 500
  const PilotGapMs: nat := 100
  const ControlGapMs: nat := 100
  const SettleMs: nat := 500
  const InterPacketMs: nat := 80
  const TrailSilenceMs: nat := 150

  /**
    The version `transcode` selects from its argument (index.js:58-64):
    1 selects version 1, 2 or an absent argument selects version 2, and
    anything else is refused before any output.
  */
  function TranscodeVersion(version: Option<int>): (r: Result<Version>)
    ensures r.Ok? <==> version.None? || version.value == 1 || version.value == 2
    ensures version.None? ==> r == Ok(V2)
    ensures r.Ok? && version.Some? ==> VersionByte(r.value) == version.value
    ensures r.Err? ==> r.error == UnrecognizedVersion(version.value)
  {
    match version
    case None => Ok(V2)
    case Some(n) =>
      if n == 1 then Ok(V1)
      else if n == 2 then Ok(V2)
      else Err(UnrecognizedVersion(n))
  }

  /* ---------- silences and the pilot tone ---------- */

  /** `Math.ceil(rate / (1000.0 / msecs))`, in exact arithmetic. */
  function SilenceLength(rate: nat, ms: nat): nat
  {
    (rate * ms + 999) / 1000
  }

  /**
    `makeSilence(buffer, msecs)` appends zero samples: as many as the
    smallest count that lasts at least `ms` milliseconds at `rate`.
  */
  function MakeSilence(rate: nat, ms: nat): (r: seq<Sample>)
    ensures |r| * 1000 >= rate * ms
    ensures |r| > 0 ==> (|r| - 1) * 1000 < rate * ms
    ensures forall i | 0 <= i < |r| :: r[i] == 0
  {
    seq(SilenceLength(rate, ms), _ => 0)
  }

  /** The silences of a transmission at 44100 Hz, in samples. */
  lemma SilenceExamples()
    ensures |MakeSilence(SampleRate, 150)| == 6615
    ensures |MakeSilence(SampleRate, 100)| == 4410
    ensures |MakeSilence(SampleRate, 500)| == 22050
    ensures |MakeSilence(SampleRate, 80)| == 3528
  {
  }

  /** `makeLowTone(buffer, msecs)`: as many samples as a silence of the same duration, taken from the tone. */
  function LowTone(rate: nat, ms: nat, tone: nat -> Sample): (r: seq<Sample>)
    ensures |r| == |MakeSilence(rate, ms)|
    ensures forall i | 0 <= i < |r| :: r[i] == tone(i)
  {
    seq(SilenceLength(rate, ms), i requires 0 <= i => tone(i))
  }

  /* ---------- blocks ---------- */

  /** `Math.ceil(fileLen / 256)`: the fewest 256-byte blocks that cover the payload. */
  function BlockCount(len: nat): (n: nat)
    ensures n * DataLength >= len
    ensures n > 0 ==> (n - 1) * DataLength < len
  {
    (len + 255) / 256
  }

  function Min(a: int, b: int): int
  {
    if a <= b then a else b
  }

  /** Block `b` of the payload: `array.subarray(256 * b, min(fileLen, 256 * b + 256))`. */
  function Block(payload: seq<byte>, b: nat): (r: seq<byte>)
    requires b < BlockCount(|payload|)
    ensures 0 < |r| <= DataLength
  {
    payload[256 * b .. Min(|payload|, 256 * b + 256)]
  }

  /** The first `n` blocks of the payload. */
  function Blocks(payload: seq<byte>, n: nat): seq<seq<byte>>
    requires n <= BlockCount(|payload|)
  {
    seq(n, b requires 0 <= b < n => Block(payload, b))
  }

  lemma {:induction false} BlocksPrefix(payload: seq<byte>, n: nat)
    requires n <= BlockCount(|payload|)
    ensures Flatten(Blocks(payload, n)) == payload[..Min(|payload|, 256 * n)]
  {
    if n > 0 {
      BlocksPrefix(payload, n - 1);
      assert Blocks(payload, n) == Blocks(payload, n - 1) + [Block(payload, n - 1)];
      FlattenSnoc(Blocks(payload, n - 1), Block(payload, n - 1));
      assert payload[..Min(|payload|, 256 * n)]
          == payload[..256 * (n - 1)] + payload[256 * (n - 1)..Min(|payload|, 256 * n)];
    }
  }

  /** The blocks, joined in ascending order, are exactly the payload: nothing lost, repeated or reordered. */
  lemma BlocksPartition(payload: seq<byte>)
    ensures Flatten(Blocks(payload, BlockCount(|payload|))) == payload
  {
    BlocksPrefix(payload, BlockCount(|payload|));
    assert payload[..Min(|payload|, 256 * BlockCount(|payload|))] == payload;
  }

  /* ---------- the plan ---------- */

  /** One piece of the transmission. */
  datatype Segment =
    | Silence(ms: nat)
    | PilotTone(ms: nat)
      /** the control packet announcing this payload */
    | ControlFrame(payload: seq<byte>)
      /** the data packet carrying these bytes as block `blockNum` */
    | DataFrame(data: seq<byte>, blockNum: nat)

  /** The lead silence, then in low-bitrate mode the pilot tone and a gap. */
  function LeadSegments(lbr: bool): seq<Segment>
  {
    [Silence(LeadSilenceMs)] + (if lbr then [PilotTone(PilotMs), Silence(PilotGapMs)] else [])
  }

  /** The control packet, a gap, the control packet again, and the settle silence. */
  function ControlSegments(payload: seq<byte>): seq<Segment>
  {
    [ControlFrame(payload), Silence(ControlGapMs), ControlFrame(payload), Silence(SettleMs)]
  }

  /** The segments before the data packets. */
  function PlanHead(payload: seq<byte>, lbr: bool): seq<Segment>
  {
    LeadSegments(lbr) + ControlSegments(payload)
  }

  /** Data packet and inter-packet silence for blocks `0 .. n - 1`. */
  function DataSegments(payload: seq<byte>, n: nat): seq<Segment>
    requires n <= BlockCount(|payload|)
  {
    if n == 0 then []
    else DataSegments(payload, n - 1) + [DataFrame(Block(payload, n - 1), n - 1), Silence(InterPacketMs)]
  }

  /** Everything `transcode` emits, segment by segment. */
  function Plan(payload: seq<byte>, lbr: bool): seq<Segment>
  {
    PlanHead(payload, lbr) + DataSegments(payload, BlockCount(|payload|)) + [Silence(TrailSilenceMs)]
  }

  /** The packet bytes of a frame segment, built for protocol version `v`. */
  function FrameBytes(ports: Ports, v: Version, s: Segment): seq<byte>
    requires s.ControlFrame? || s.DataFrame?
  {
    match s
    case ControlFrame(payload) => CtlPacket(ports, v, payload)
    case DataFrame(data, blockNum) => DataPacket(ports, v, data, blockNum)
  }

  /**
    The samples of one segment. Packets go through the modulator in the
    controller's own LBR mode, whatever `lbr` argument decided the pilot tone.
  */
  function Render(c: Controller, ports: Ports, v: Version, s: Segment): seq<Sample>
  {
    match s
    case Silence(ms) => MakeSilence(c.rate, ms)
    case PilotTone(ms) => LowTone(c.rate, ms, ports.lowTone)
    case _ => ports.modulate(c.lbr, FrameBytes(ports, v, s))
  }

  function Renderer(c: Controller, ports: Ports, v: Version): Segment -> seq<Sample>
  {
    s => Render(c, ports, v, s)
  }

  /** The samples of a whole plan: its segments' samples, in order. */
  function RenderAll(c: Controller, ports: Ports, v: Version, plan: seq<Segment>): seq<Sample>
  {
    FlatMap(plan, Renderer(c, ports, v))
  }

  lemma RenderAllSnoc(c: Controller, ports: Ports, v: Version, plan: seq<Segment>, s: Segment)
    ensures RenderAll(c, ports, v, plan + [s]) == RenderAll(c, ports, v, plan) + Render(c, ports, v, s)
  {
    FlatMapSnoc(plan, s, Renderer(c, ports, v));
  }

  /**
    `transcode(array, lbr, version)`. An unrecognized version is refused
    before anything is produced and leaves the controller as it was;
    otherwise the stored version becomes the selected one and the samples are
    exactly the rendered plan. The `lbr` argument only decides the pilot
    tone; the packets are modulated in the controller's own mode `c.lbr`.
  */
  method Transcode(c: Controller, ports: Ports, payload: seq<byte>, lbr: bool, version: Option<int>)
    returns (r: Result<seq<Sample>>, c': Controller)
    ensures TranscodeVersion(version).Err? ==> r == Err(TranscodeVersion(version).error) && c' == c
    ensures TranscodeVersion(version).Ok? ==>
      var v := TranscodeVersion(version).value;
      && r == Ok(RenderAll(c, ports, v, Plan(payload, lbr)))
      && c' == c.(version := VersionByte(v))
  {
    var v: Version;
    match TranscodeVersion(version)
    case Err(e) =>
      return Err(e), c;
    case Ok(selected) =>
      v := selected;
    c' := c.(version := VersionByte(v));

    var lead := EmitLead(c, ports, v, lbr);
    var control := EmitControl(c, ports, v, payload);
    var data := EmitBlocks(c, ports, v, payload);
    var raw := lead + control + data + MakeSilence(c.rate, TrailSilenceMs);
    FlatMapAppend(LeadSegments(lbr), ControlSegments(payload), Renderer(c, ports, v));
    FlatMapAppend(PlanHead(payload, lbr), DataSegments(payload, BlockCount(|payload|)), Renderer(c, ports, v));
    RenderAllSnoc(c, ports, v, PlanHead(payload, lbr) + DataSegments(payload, BlockCount(|payload|)),
                  Silence(TrailSilenceMs));
    r := Ok(raw);
  }

  /** index.js:72-79: the lead silence, then the pilot tone and a gap when `lbr` is set. */
  method EmitLead(c: Controller, ports: Ports, v: Version, lbr: bool) returns (raw: seq<Sample>)
    ensures raw == RenderAll(c, ports, v, LeadSegments(lbr))
  {
    ghost var plan: seq<Segment> := [];
    assert RenderAll(c, ports, v, plan) == [];
    raw := [];

    raw := raw + MakeSilence(c.rate, LeadSilenceMs);
    RenderAllSnoc(c, ports, v, plan, Silence(LeadSilenceMs));
    plan := plan + [Silence(LeadSilenceMs)];
    assert raw == RenderAll(c, ports, v, plan);

    if lbr {
      raw := raw + LowTone(c.rate, PilotMs, ports.lowTone);
      RenderAllSnoc(c, ports, v, plan, PilotTone(PilotMs));
      plan := plan + [PilotTone(PilotMs)];
      assert raw == RenderAll(c, ports, v, plan);

      raw := raw + MakeSilence(c.rate, PilotGapMs);
      RenderAllSnoc(c, ports, v, plan, Silence(PilotGapMs));
      plan := plan + [Silence(PilotGapMs)];
      assert raw == RenderAll(c, ports, v, plan);
    }
    assert plan == LeadSegments(lbr);
  }

  /** index.js:81-93: the control packet modulated twice, with a gap between and the settle silence after. */
  method EmitControl(c: Controller, ports: Ports, v: Version, payload: seq<byte>) returns (raw: seq<Sample>)
    ensures raw == RenderAll(c, ports, v, ControlSegments(payload))
  {
    ghost var plan: seq<Segment> := [];
    assert RenderAll(c, ports, v, plan) == [];
    raw := [];

    var ctl := BuildCtlPacket(ports, v, payload);
    var pcmPacket := ports.modulate(c.lbr, ctl);
    raw := raw + pcmPacket;
    RenderAllSnoc(c, ports, v, plan, ControlFrame(payload));
    plan := plan + [ControlFrame(payload)];
    assert raw == RenderAll(c, ports, v, plan);

    raw := raw + MakeSilence(c.rate, ControlGapMs);
    RenderAllSnoc(c, ports, v, plan, Silence(ControlGapMs));
    plan := plan + [Silence(ControlGapMs)];
    assert raw == RenderAll(c, ports, v, plan);

    ctl := BuildCtlPacket(ports, v, payload);
    pcmPacket := ports.modulate(c.lbr, ctl);
    raw := raw + pcmPacket;
    RenderAllSnoc(c, ports, v, plan, ControlFrame(payload));
    plan := plan + [ControlFrame(payload)];
    assert raw == RenderAll(c, ports, v, plan);

    raw := raw + MakeSilence(c.rate, SettleMs);
    RenderAllSnoc(c, ports, v, plan, Silence(SettleMs));
    plan := plan + [Silence(SettleMs)];
    assert plan == ControlSegments(payload);
  }

  /**
    index.js:95-106: for each block in ascending order, its data packet
    modulated and an inter-packet silence.
  */
  method EmitBlocks(c: Controller, ports: Ports, v: Version, payload: seq<byte>)
    returns (raw: seq<Sample>)
    ensures raw == RenderAll(c, ports, v, DataSegments(payload, BlockCount(|payload|)))
  {
    var fileLen := |payload|;
    var blocks := (fileLen + 255) / 256;
    raw := [];
    for block := 0 to blocks
      invariant raw == RenderAll(c, ports, v, DataSegments(payload, block))
    {
      var samples := EmitBlock(c, ports, v, payload, block);
      RenderDataStep(c, ports, v, payload, block);
      raw := raw + samples;
    }
  }

  /** Rendering one more block appends its packet and its silence. */
  lemma RenderDataStep(c: Controller, ports: Ports, v: Version, payload: seq<byte>, block: nat)
    requires block < BlockCount(|payload|)
    ensures RenderAll(c, ports, v, DataSegments(payload, block + 1))
            == RenderAll(c, ports, v, DataSegments(payload, block))
               + (Render(c, ports, v, DataFrame(Block(payload, block), block))
                  + Render(c, ports, v, Silence(InterPacketMs)))
  {
    var p := DataSegments(payload, block);
    var frame := DataFrame(Block(payload, block), block);
    RenderAllSnoc(c, ports, v, p, frame);
    RenderAllSnoc(c, ports, v, p + [frame], Silence(InterPacketMs));
    assert p + [frame] + [Silence(InterPacketMs)] == DataSegments(payload, block + 1);
  }

  /**
    One pass of the block loop: the block's bounds, its data packet built
    with the version `transcode` just stored (so `makeDataPacket` cannot
    refuse it), modulated, then the inter-packet silence.
  */
  method EmitBlock(c: Controller, ports: Ports, v: Version, payload: seq<byte>, block: nat)
    returns (samples: seq<Sample>)
    requires block < BlockCount(|payload|)
    ensures samples == Render(c, ports, v, DataFrame(Block(payload, block), block))
                       + Render(c, ports, v, Silence(InterPacketMs))
  {
    var fileLen := |payload|;
    var start := block * 256;
    var end := start + 256;
    if end > fileLen {
      end := fileLen;
    }
    assert payload[start..end] == Block(payload, block);
    var built := BuildDataPacket(ports, VersionByte(v), payload[start..end], block);
    assert VersionOf(VersionByte(v)) == Some(v);
    var pcmPacket := ports.modulate(c.lbr, built.value);
    samples := pcmPacket + MakeSilence(c.rate, InterPacketMs);
  }

  /* ---------- properties of the plan ---------- */

  lemma {:induction false} DataSegmentsLayout(payload: seq<byte>, n: nat)
    requires n <= BlockCount(|payload|)
    ensures var ds := DataSegments(payload, n);
      && |ds| == 2 * n
      && forall b | 0 <= b < n ::
           && ds[2 * b] == DataFrame(Block(payload, b), b)
           && ds[2 * b + 1] == Silence(InterPacketMs)
  {
    if n > 0 {
      DataSegmentsLayout(payload, n - 1);
    }
  }

  /**
    The order of a transmission: lead silence; the pilot tone and its gap
    only in low-bitrate mode; the control packet, a gap, the same control
    packet again, a settle silence; then for each block in ascending order
    its data packet and an inter-packet gap; and the trail silence. Nothing
    else is emitted.
  */
  lemma PlanLayout(payload: seq<byte>, lbr: bool)
    ensures var plan := Plan(payload, lbr);
      var h := if lbr then 3 else 1;
      var blocks := BlockCount(|payload|);
      && |plan| == h + 4 + 2 * blocks + 1
      && plan[0] == Silence(LeadSilenceMs)
      && (lbr ==> plan[1] == PilotTone(PilotMs) && plan[2] == Silence(PilotGapMs))
      && plan[h] == ControlFrame(payload)
      && plan[h + 1] == Silence(ControlGapMs)
      && plan[h + 2] == ControlFrame(payload)
      && plan[h + 3] == Silence(SettleMs)
      && (forall b | 0 <= b < blocks ::
            && plan[h + 4 + 2 * b] == DataFrame(Block(payload, b), b)
            && plan[h + 5 + 2 * b] == Silence(InterPacketMs))
      && plan[|plan| - 1] == Silence(TrailSilenceMs)
  {
    PlanEnds(payload, lbr);
    PlanBlocks(payload, lbr);
  }

  /** The segments before and after the data packets. */
  lemma PlanEnds(payload: seq<byte>, lbr: bool)
    ensures var plan := Plan(payload, lbr);
      var h := if lbr then 3 else 1;
      && |plan| == h + 4 + 2 * BlockCount(|payload|) + 1
      && plan[0] == Silence(LeadSilenceMs)
      && (lbr ==> plan[1] == PilotTone(PilotMs) && plan[2] == Silence(PilotGapMs))
      && plan[h] == ControlFrame(payload)
      && plan[h + 1] == Silence(ControlGapMs)
      && plan[h + 2] == ControlFrame(payload)
      && plan[h + 3] == Silence(SettleMs)
      && plan[|plan| - 1] == Silence(TrailSilenceMs)
  {
    var head := PlanHead(payload, lbr);
    var ds := DataSegments(payload, BlockCount(|payload|));
    DataSegmentsLength(payload, BlockCount(|payload|));
    if lbr {
      assert head == [Silence(LeadSilenceMs), PilotTone(PilotMs), Silence(PilotGapMs)] + ControlSegments(payload);
    } else {
      assert head == [Silence(LeadSilenceMs)] + ControlSegments(payload);
    }
    PartsOfThree(head, ds, [Silence(TrailSilenceMs)]);
  }

  lemma {:induction false} DataSegmentsLength(payload: seq<byte>, n: nat)
    requires n <= BlockCount(|payload|)
    ensures |DataSegments(payload, n)| == 2 * n
  {
    if n > 0 {
      DataSegmentsLength(payload, n - 1);
    }
  }

  /** The data segments, at their places after the head. */
  lemma PlanBlocks(payload: seq<byte>, lbr: bool)
    ensures var plan := Plan(payload, lbr);
      var h := if lbr then 3 else 1;
      && |plan| == h + 4 + 2 * BlockCount(|payload|) + 1
      && forall b | 0 <= b < BlockCount(|payload|) ::
        && plan[h + 4 + 2 * b] == DataFrame(Block(payload, b), b)
        && plan[h + 5 + 2 * b] == Silence(InterPacketMs)
  {
    var head := PlanHead(payload, lbr);
    var blocks := BlockCount(|payload|);
    var ds := DataSegments(payload, blocks);
    var plan := head + ds + [Silence(TrailSilenceMs)];
    DataSegmentsLayout(payload, blocks);
    PartsOfThree(head, ds, [Silence(TrailSilenceMs)]);
    forall b | 0 <= b < blocks
      ensures plan[|head| + 2 * b] == DataFrame(Block(payload, b), b)
      ensures plan[|head| + (2 * b + 1)] == Silence(InterPacketMs)
    {
    }
  }

  /** Where each part of a three-part concatenation lies. */
  lemma PartsOfThree<T>(a: seq<T>, b: seq<T>, c: seq<T>)
    ensures |a + b + c| == |a| + |b| + |c|
    ensures forall i | 0 <= i < |a| :: (a + b + c)[i] == a[i]
    ensures forall i | 0 <= i < |b| :: (a + b + c)[|a| + i] == b[i]
    ensures forall i | 0 <= i < |c| :: (a + b + c)[|a| + |b| + i] == c[i]
  {
  }

  /** Both control frames of a transmission become the same packet bytes: the same packet is sent twice. */
  lemma ControlFramesIdentical(ports: Ports, v: Version, payload: seq<byte>, lbr: bool)
    ensures var plan := Plan(payload, lbr);
      var h := if lbr then 3 else 1;
      && FrameBytes(ports, v, plan[h]) == FrameBytes(ports, v, plan[h + 2])
      && |FrameBytes(ports, v, plan[h])| == ControlPacketLength
  {
    PlanLayout(payload, lbr);
    CtlPacketLayout(ports, v, payload);
  }

  /**
    What a receiver gets from the data packets of a transmission: packet
    `b` carries block number `b` modulo 65536, its footer checks out, and its
    data region starts with block `b` of the payload; the blocks joined in
    order give back the payload.
  */
  lemma DataPacketsCarryPayload(ports: Ports, v: Version, payload: seq<byte>)
    ensures forall b | 0 <= b < BlockCount(|payload|) ::
      var p := DataPacket(ports, v, Block(payload, b), b);
      && |p| == DataPacketLength
      && DataFooterValid(ports, v, p)
      && DecodeDataPacket(v, p).blockNum == b % Two16
      && DecodeDataPacket(v, p).data[..|Block(payload, b)|] == Block(payload, b)
    ensures Flatten(Blocks(payload, BlockCount(|payload|))) == payload
  {
    forall b | 0 <= b < BlockCount(|payload|)
      ensures var p := DataPacket(ports, v, Block(payload, b), b);
        && |p| == DataPacketLength
        && DataFooterValid(ports, v, p)
        && DecodeDataPacket(v, p).blockNum == b % Two16
        && DecodeDataPacket(v, p).data[..|Block(payload, b)|] == Block(payload, b)
    {
      DataPacketLayout(ports, v, Block(payload, b), b);
      DataPacketRoundTrip(ports, v, Block(payload, b), b);
    }
    BlocksPartition(payload);
  }
}
