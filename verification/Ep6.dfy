/** The Metis EP6 receive packet of OpenHPSDR Protocol 1: an 8-byte header and two
    512-byte USB frames, each with sync, command echo and a payload of sample slots.
    A slot holds one 24-bit I/Q pair per receiver and two microphone bytes; the
    standard layout has one receiver, the PureSignal layout four. */
module Ep6 {
  import opened Seqs
  import opened Wire

  const PACKET_LENGTH: nat := 1032
  const METIS_HEADER: nat := 8
  const USB_FRAME: nat := 512
  const USB_HEADER: nat := 8
  const PAYLOAD: nat := 504
  const SYNC: byte := 0x7F

  datatype Telemetry = Telemetry(c0: byte, ain0: int, ain1: int)
  const NO_TELEMETRY := Telemetry(0, 0, 0)

  datatype Overload = Overload(adc0: bool, adc1: bool)

  // ---- What a packet says --------------------------------------------------

  predicate HeaderOk(p: seq<byte>) {
    |p| == PACKET_LENGTH && p[0] == 0xEF && p[1] == 0xFE && p[2] == 0x01 && p[3] == 0x06
  }

  function Usb(p: seq<byte>, frame: nat): (u: seq<byte>)
    requires |p| == PACKET_LENGTH && frame < 2
    ensures |u| == USB_FRAME
  {
    p[METIS_HEADER + USB_FRAME * frame..METIS_HEADER + USB_FRAME * (frame + 1)]
  }

  predicate Synced(usb: seq<byte>)
    requires |usb| == USB_FRAME
  {
    usb[0] == SYNC && usb[1] == SYNC && usb[2] == SYNC
  }

  /** The echo address is the top five bits of the first command byte. */
  function EchoAddress(c0: byte): int {
    c0 / 8 % 32
  }

  /** Present only for the addresses that echo a pair of converter readings. */
  function TelemetryOf(usb: seq<byte>): Telemetry
    requires |usb| == USB_FRAME
  {
    if 1 <= EchoAddress(usb[3]) <= 3
    then Telemetry(usb[3], ReadBe16(usb[4..6]), ReadBe16(usb[6..8]))
    else NO_TELEMETRY
  }

  function OverloadOf(usb: seq<byte>): Overload
    requires |usb| == USB_FRAME
  {
    Overload(usb[4] % 2 == 1, usb[5] % 2 == 1)
  }

  function Either(a: Overload, b: Overload): Overload {
    Overload(a.adc0 || b.adc0, a.adc1 || b.adc1)
  }

  function Field24(usb: seq<byte>, off: nat): int
    requires off + 3 <= |usb|
  {
    ReadInt24BigEndian(usb[off..off + 3])
  }

  /** `slots` slots of `width` bytes, without multiplication. */
  function Span(width: nat, slots: nat): nat {
    if slots == 0 then 0 else Span(width, slots - 1) + width
  }

  lemma {:induction false} SpanIsProduct(width: nat, slots: nat)
    ensures Span(width, slots) == slots * width
  {
    if slots > 0 {
      SpanIsProduct(width, slots - 1);
    }
  }

  function Width(ddcs: nat): nat {
    6 * ddcs + 2
  }

  /** The interleaved I and Q values of receiver `d` in the first `slots` slots. */
  function FrameSamples(usb: seq<byte>, ddcs: nat, slots: nat, d: nat): (s: seq<int>)
    requires d < ddcs && USB_HEADER + Span(Width(ddcs), slots) <= |usb|
    ensures |s| == 2 * slots
  {
    if slots == 0 then []
    else
      var off := USB_HEADER + Span(Width(ddcs), slots - 1) + 6 * d;
      FrameSamples(usb, ddcs, slots - 1, d) + [Field24(usb, off), Field24(usb, off + 3)]
  }

  function SlotsPerFrame(ddcs: nat): nat {
    if ddcs == 4 then 19 else 63
  }

  lemma SlotsFit(ddcs: nat)
    requires ddcs == 1 || ddcs == 4
    ensures SlotsPerFrame(ddcs) == PAYLOAD / Width(ddcs)
    ensures Span(Width(ddcs), SlotsPerFrame(ddcs)) == if ddcs == 4 then 494 else 504
  {
    SpanIsProduct(Width(ddcs), SlotsPerFrame(ddcs));
  }

  /** Any number of slots up to a full frame lies within the payload. */
  lemma SlotsInPayload(ddcs: nat, g: nat)
    requires (ddcs == 1 || ddcs == 4) && g <= SlotsPerFrame(ddcs)
    ensures Span(Width(ddcs), g) == g * (if ddcs == 4 then 26 else 8) <= PAYLOAD
  {
    SpanIsProduct(Width(ddcs), g);
  }

  function Samples(p: seq<byte>, ddcs: nat, d: nat): seq<int>
    requires |p| == PACKET_LENGTH && d < ddcs && (ddcs == 1 || ddcs == 4)
  {
    SlotsFit(ddcs);
    FrameSamples(Usb(p, 0), ddcs, SlotsPerFrame(ddcs), d) + FrameSamples(Usb(p, 1), ddcs, SlotsPerFrame(ddcs), d)
  }

  lemma {:induction false} FrameSampleAt(usb: seq<byte>, ddcs: nat, slots: nat, d: nat, g: nat)
    requires d < ddcs && USB_HEADER + Span(Width(ddcs), slots) <= |usb| && g < slots
    ensures USB_HEADER + Span(Width(ddcs), g) + 6 * d + 6 <= |usb|
    ensures FrameSamples(usb, ddcs, slots, d)[2 * g] == Field24(usb, USB_HEADER + Span(Width(ddcs), g) + 6 * d)
    ensures FrameSamples(usb, ddcs, slots, d)[2 * g + 1] == Field24(usb, USB_HEADER + Span(Width(ddcs), g) + 6 * d + 3)
  {
    if g < slots - 1 {
      FrameSampleAt(usb, ddcs, slots - 1, d, g);
    }
  }

  lemma FieldOf(p: seq<byte>, frame: nat, off: nat)
    requires |p| == PACKET_LENGTH && frame < 2 && off + 3 <= USB_FRAME
    ensures Field24(Usb(p, frame), off) == ReadInt24BigEndian(p[8 + 512 * frame + off..8 + 512 * frame + off + 3])
  {
    assert Usb(p, frame)[off..off + 3] == p[8 + 512 * frame + off..8 + 512 * frame + off + 3];
  }

  lemma SlotBytesAt(p: seq<byte>, ddcs: nat, d: nat, frame: nat, g: nat, off: nat, at: nat)
    requires |p| == PACKET_LENGTH && (ddcs == 1 || ddcs == 4) && d < ddcs && frame < 2 && g < SlotsPerFrame(ddcs)
    requires USB_HEADER + Span(Width(ddcs), SlotsPerFrame(ddcs)) <= USB_FRAME
    requires off == USB_HEADER + Span(Width(ddcs), g) + 6 * d && off + 6 <= USB_FRAME
    requires at == 8 + 512 * frame + off
    ensures var s := FrameSamples(Usb(p, frame), ddcs, SlotsPerFrame(ddcs), d);
            && at + 6 <= |p|
            && s[2 * g] == ReadInt24BigEndian(p[at..at + 3])
            && s[2 * g + 1] == ReadInt24BigEndian(p[at + 3..at + 6])
  {
    FrameSampleAt(Usb(p, frame), ddcs, SlotsPerFrame(ddcs), d, g);
    FieldOf(p, frame, off);
    FieldOf(p, frame, off + 3);
  }

  lemma SamplesOfFrame(p: seq<byte>, ddcs: nat, d: nat, frame: nat, j: nat, n: nat)
    requires |p| == PACKET_LENGTH && (ddcs == 1 || ddcs == 4) && d < ddcs && frame < 2
    requires USB_HEADER + Span(Width(ddcs), SlotsPerFrame(ddcs)) <= USB_FRAME
    requires j < 2 * SlotsPerFrame(ddcs) && n == j + if frame == 0 then 0 else 2 * SlotsPerFrame(ddcs)
    ensures n < |Samples(p, ddcs, d)|
    ensures Samples(p, ddcs, d)[n] == FrameSamples(Usb(p, frame), ddcs, SlotsPerFrame(ddcs), d)[j]
  {
  }

  lemma SlotOffset(ddcs: nat, g: nat)
    requires (ddcs == 1 || ddcs == 4) && g < SlotsPerFrame(ddcs)
    ensures USB_HEADER + Span(Width(ddcs), SlotsPerFrame(ddcs)) <= USB_FRAME
    ensures Span(Width(ddcs), g) == if ddcs == 1 then 8 * g else 26 * g
  {
    SlotsFit(ddcs);
    SlotsInPayload(ddcs, g);
  }

  /** Where the samples stand in the packet: the pair of receiver `d` in slot `g` of a
      frame is the packet's `n`-th, and starts at `at`: I before Q, three bytes each. */
  lemma SampleBytes(p: seq<byte>, ddcs: nat, d: nat, frame: nat, g: nat, n: nat, at: nat)
    requires |p| == PACKET_LENGTH && (ddcs == 1 || ddcs == 4) && d < ddcs && frame < 2
    requires g < (if ddcs == 1 then 63 else 19) && n == g + if frame == 0 then 0 else if ddcs == 1 then 63 else 19
    requires at == (if frame == 0 then 16 else 528) + (if ddcs == 1 then 8 * g else 26 * g) + 6 * d
    ensures at + 6 <= |p| && 2 * n + 1 < |Samples(p, ddcs, d)|
    ensures Samples(p, ddcs, d)[2 * n] == ReadInt24BigEndian(p[at..at + 3])
    ensures Samples(p, ddcs, d)[2 * n + 1] == ReadInt24BigEndian(p[at + 3..at + 6])
  {
    SlotOffset(ddcs, g);
    SlotBytesAt(p, ddcs, d, frame, g, USB_HEADER + Span(Width(ddcs), g) + 6 * d, at);
    SamplesOfFrame(p, ddcs, d, frame, 2 * g, 2 * n);
    SamplesOfFrame(p, ddcs, d, frame, 2 * g + 1, 2 * n + 1);
  }

  /** Where telemetry and overload stand in the packet. */
  lemma EchoBytes(p: seq<byte>, frame: nat)
    requires |p| == PACKET_LENGTH && frame < 2
    ensures var at := 8 + 512 * frame;
            && TelemetryOf(Usb(p, frame)) == (if 8 <= p[at + 3] < 32
                 then Telemetry(p[at + 3], p[at + 4] as int * 256 + p[at + 5] as int, p[at + 6] as int * 256 + p[at + 7] as int)
                 else Telemetry(0, 0, 0))
            && OverloadOf(Usb(p, frame)) == Overload(p[at + 4] % 2 == 1, p[at + 5] % 2 == 1)
  {
    var u, at := Usb(p, frame), 8 + 512 * frame;
    assert u[3] == p[at + 3] && u[4] == p[at + 4] && u[5] == p[at + 5] && u[6] == p[at + 6] && u[7] == p[at + 7];
  }

  // ---- The wire layout -----------------------------------------------------

  datatype Slot = Slot(iq: seq<(int, int)>, mic: seq<byte>)

  /** `echo` is the five command bytes; `pad` fills what the slots leave. */
  datatype Frame = Frame(echo: seq<byte>, slots: seq<Slot>, pad: seq<byte>)

  function IqBytes(iq: seq<(int, int)>): (b: seq<byte>)
    ensures |b| == 6 * |iq|
  {
    if iq == [] then []
    else
      var (i, q) := iq[|iq| - 1];
      IqBytes(iq[..|iq| - 1]) + Be24(i) + Be24(q)
  }

  function SlotBytes(slot: Slot): seq<byte> {
    IqBytes(slot.iq) + slot.mic
  }

  function SlotsBytes(slots: seq<Slot>): seq<byte> {
    if slots == [] then [] else SlotsBytes(slots[..|slots| - 1]) + SlotBytes(slots[|slots| - 1])
  }

  function UsbBytes(f: Frame): seq<byte> {
    [SYNC, SYNC, SYNC] + f.echo + SlotsBytes(f.slots) + f.pad
  }

  function Packet(sequence: nat, f0: Frame, f1: Frame): seq<byte> {
    [0xEF, 0xFE, 0x01, 0x06] + Be32(sequence) + UsbBytes(f0) + UsbBytes(f1)
  }

  ghost predicate SlotOk(slot: Slot, ddcs: nat) {
    |slot.iq| == ddcs && |slot.mic| == 2
    && forall d :: 0 <= d < ddcs ==> IsInt24(slot.iq[d].0) && IsInt24(slot.iq[d].1)
  }

  ghost predicate SlotsOk(slots: seq<Slot>, ddcs: nat) {
    slots == [] || (SlotsOk(slots[..|slots| - 1], ddcs) && SlotOk(slots[|slots| - 1], ddcs))
  }

  ghost predicate FrameOk(f: Frame, ddcs: nat) {
    && |f.echo| == 5
    && |f.slots| == SlotsPerFrame(ddcs)
    && |f.pad| == (if ddcs == 4 then 10 else 0)
    && SlotsOk(f.slots, ddcs)
  }

  /** The values of receiver `d`, slot after slot. */
  function Sent(slots: seq<Slot>, d: nat): seq<int> {
    if slots == [] then []
    else
      var iq := slots[|slots| - 1].iq;
      Sent(slots[..|slots| - 1], d) + if d < |iq| then [iq[d].0, iq[d].1] else []
  }

  // ---- Decoding inverts the layout -----------------------------------------

  lemma {:induction false} IqAt(iq: seq<(int, int)>, d: nat)
    requires d < |iq|
    ensures IqBytes(iq)[6 * d..6 * d + 3] == Be24(iq[d].0)
    ensures IqBytes(iq)[6 * d + 3..6 * d + 6] == Be24(iq[d].1)
  {
    var n := |iq| - 1;
    if d < n {
      IqAt(iq[..n], d);
      assert IqBytes(iq)[..6 * n] == IqBytes(iq[..n]);
      assert IqBytes(iq)[6 * d..6 * d + 3] == IqBytes(iq[..n])[6 * d..6 * d + 3];
      assert IqBytes(iq)[6 * d + 3..6 * d + 6] == IqBytes(iq[..n])[6 * d + 3..6 * d + 6];
    }
  }

  lemma {:induction false} SlotsLength(slots: seq<Slot>, ddcs: nat)
    requires SlotsOk(slots, ddcs)
    ensures |SlotsBytes(slots)| == Span(Width(ddcs), |slots|)
  {
    if slots != [] {
      SlotsLength(slots[..|slots| - 1], ddcs);
    }
  }

  /** A slot found at an offset decodes to the pair it carries. */
  lemma SlotDecodes(usb: seq<byte>, off: nat, slot: Slot, ddcs: nat, d: nat)
    requires SlotOk(slot, ddcs) && d < ddcs
    requires |SlotBytes(slot)| == Width(ddcs)
    requires off + Width(ddcs) <= |usb| && usb[off..off + Width(ddcs)] == SlotBytes(slot)
    ensures Field24(usb, off + 6 * d) == slot.iq[d].0
    ensures Field24(usb, off + 6 * d + 3) == slot.iq[d].1
  {
    IqAt(slot.iq, d);
    Piece(usb, off, SlotBytes(slot), 6 * d, 3);
    Piece(usb, off, SlotBytes(slot), 6 * d + 3, 3);
    Piece(SlotBytes(slot), 0, IqBytes(slot.iq), 6 * d, 3);
    Piece(SlotBytes(slot), 0, IqBytes(slot.iq), 6 * d + 3, 3);
    Int24RoundTrip(slot.iq[d].0, [0, 0, 0]);
    Int24RoundTrip(slot.iq[d].1, [0, 0, 0]);
  }

  lemma {:induction false} FrameDecodes(usb: seq<byte>, slots: seq<Slot>, ddcs: nat, d: nat)
    requires SlotsOk(slots, ddcs)
    requires d < ddcs && USB_HEADER + Span(Width(ddcs), |slots|) <= |usb|
    requires usb[USB_HEADER..USB_HEADER + Span(Width(ddcs), |slots|)] == SlotsBytes(slots)
    ensures FrameSamples(usb, ddcs, |slots|, d) == Sent(slots, d)
    decreases |slots|
  {
    if slots != [] {
      var n := |slots| - 1;
      var off := USB_HEADER + Span(Width(ddcs), n);
      PayloadSplit(usb, slots, ddcs, off);
      FrameDecodes(usb, slots[..n], ddcs, d);
      SlotDecodes(usb, off, slots[n], ddcs, d);
      var pair := [slots[n].iq[d].0, slots[n].iq[d].1];
      assert FrameSamples(usb, ddcs, n + 1, d) == FrameSamples(usb, ddcs, n, d) + pair;
      assert Sent(slots, d) == Sent(slots[..n], d) + pair;
    }
  }

  /** The last slot of a payload and the bytes before it. */
  lemma PayloadSplit(usb: seq<byte>, slots: seq<Slot>, ddcs: nat, off: nat)
    requires slots != [] && SlotsOk(slots, ddcs)
    requires off == USB_HEADER + Span(Width(ddcs), |slots| - 1)
    requires off + Width(ddcs) <= |usb|
    requires usb[USB_HEADER..off + Width(ddcs)] == SlotsBytes(slots)
    ensures usb[USB_HEADER..off] == SlotsBytes(slots[..|slots| - 1])
    ensures |SlotBytes(slots[|slots| - 1])| == Width(ddcs)
    ensures usb[off..off + Width(ddcs)] == SlotBytes(slots[|slots| - 1])
  {
    var front, last := SlotsBytes(slots[..|slots| - 1]), SlotBytes(slots[|slots| - 1]);
    SlotsLength(slots[..|slots| - 1], ddcs);
    SlotLength(slots[|slots| - 1], ddcs);
    assert USB_HEADER + |front| == off && off + |last| == off + Width(ddcs);
    TwoPieces(usb, USB_HEADER, front, last);
  }

  lemma SlotLength(slot: Slot, ddcs: nat)
    requires SlotOk(slot, ddcs)
    ensures |SlotBytes(slot)| == Width(ddcs)
  {
  }

  lemma UsbLayout(f: Frame, ddcs: nat)
    requires (ddcs == 1 || ddcs == 4) && FrameOk(f, ddcs)
    ensures var u, n := UsbBytes(f), Span(Width(ddcs), |f.slots|);
            && |u| == USB_FRAME && Synced(u) && n <= PAYLOAD
            && u[3..8] == f.echo
            && u[USB_HEADER..USB_HEADER + n] == SlotsBytes(f.slots)
  {
    SlotsFit(ddcs);
    SlotsLength(f.slots, ddcs);
    var head, body := [SYNC, SYNC, SYNC] + f.echo, SlotsBytes(f.slots);
    assert (head + body + f.pad)[USB_HEADER..USB_HEADER + |body|] == body;
  }

  lemma UsbDecodes(f: Frame, ddcs: nat, d: nat)
    requires (ddcs == 1 || ddcs == 4) && FrameOk(f, ddcs) && d < ddcs
    ensures var u := UsbBytes(f);
            && |u| == USB_FRAME && Synced(u) && u[3..8] == f.echo
            && Span(Width(ddcs), SlotsPerFrame(ddcs)) <= PAYLOAD
            && FrameSamples(u, ddcs, SlotsPerFrame(ddcs), d) == Sent(f.slots, d)
  {
    UsbLayout(f, ddcs);
    FrameDecodes(UsbBytes(f), f.slots, ddcs, d);
  }

  /** Telemetry and overload as the echoed command bytes define them. */
  function EchoTelemetry(echo: seq<byte>): Telemetry
    requires |echo| == 5
  {
    if 8 <= echo[0] < 32 then Telemetry(echo[0], ReadBe16(echo[1..3]), ReadBe16(echo[3..5])) else NO_TELEMETRY
  }

  /** Parsing inverts the layout, for one receiver and for four: the same samples, the
      same sequence, a telemetry reading exactly for echo addresses 1 to 3, and the
      overload of either frame. */
  lemma ParsingInvertsLayout(sequence: nat, f0: Frame, f1: Frame, ddcs: nat, d: nat)
    requires sequence < TWO_32 && (ddcs == 1 || ddcs == 4) && d < ddcs
    requires FrameOk(f0, ddcs) && FrameOk(f1, ddcs)
    ensures var p := Packet(sequence, f0, f1);
            && HeaderOk(p) && Synced(Usb(p, 0)) && Synced(Usb(p, 1))
            && ReadBe32(p[4..8]) == sequence
            && Samples(p, ddcs, d) == Sent(f0.slots, d) + Sent(f1.slots, d)
            && TelemetryOf(Usb(p, 0)) == EchoTelemetry(f0.echo)
            && TelemetryOf(Usb(p, 1)) == EchoTelemetry(f1.echo)
            && Either(OverloadOf(Usb(p, 0)), OverloadOf(Usb(p, 1)))
               == Overload(f0.echo[1] % 2 == 1 || f1.echo[1] % 2 == 1, f0.echo[2] % 2 == 1 || f1.echo[2] % 2 == 1)
  {
    UsbDecodes(f0, ddcs, d);
    UsbDecodes(f1, ddcs, d);
    PacketParts(sequence, f0, f1);
    Be32RoundTrip(sequence);
    EchoDecodes(f0);
    EchoDecodes(f1);
  }

  lemma PacketParts(sequence: nat, f0: Frame, f1: Frame)
    requires |UsbBytes(f0)| == |UsbBytes(f1)| == USB_FRAME
    ensures var p := Packet(sequence, f0, f1);
            HeaderOk(p) && p[4..8] == Be32(sequence) && Usb(p, 0) == UsbBytes(f0) && Usb(p, 1) == UsbBytes(f1)
  {
    var u0, u1 := UsbBytes(f0), UsbBytes(f1);
    var p := [0xEF, 0xFE, 0x01, 0x06] + Be32(sequence) + u0 + u1;
    assert p[METIS_HEADER..METIS_HEADER + USB_FRAME] == u0;
    assert p[METIS_HEADER + USB_FRAME..METIS_HEADER + USB_FRAME * 2] == u1;
  }

  lemma EchoDecodes(f: Frame)
    requires |f.echo| == 5 && |UsbBytes(f)| == USB_FRAME && UsbBytes(f)[3..8] == f.echo
    ensures TelemetryOf(UsbBytes(f)) == EchoTelemetry(f.echo)
    ensures OverloadOf(UsbBytes(f)) == Overload(f.echo[1] % 2 == 1, f.echo[2] % 2 == 1)
  {
    var u := UsbBytes(f);
    assert u[3] == f.echo[0] && u[4] == f.echo[1] && u[5] == f.echo[2];
    assert u[4..6] == f.echo[1..3] && u[6..8] == f.echo[3..5];
  }
}
