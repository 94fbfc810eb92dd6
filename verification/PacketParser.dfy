/** The two EP6 parsers as the receive thread runs them: header checks, then one pass
    over both USB frames filling caller-owned buffers. */
module PacketParser {
  import opened Seqs
  import opened Wire
  import opened Ep6

  /** A signed 24-bit sample as a fraction of full scale. */
  function ScaleInt24(sample: int): real {
    sample as real / 8388608.0
  }

  function Scaled(xs: seq<int>): (s: seq<real>)
    ensures |s| == |xs|
  {
    seq(|xs|, k requires 0 <= k < |xs| => ScaleInt24(xs[k]))
  }

  lemma ScaledConcat(a: seq<int>, b: seq<int>)
    ensures Scaled(a + b) == Scaled(a) + Scaled(b)
  {
  }

  /** Scaling loses nothing: the integer stream can be recovered. */
  lemma ScaledInjective(a: seq<int>, b: seq<int>)
    requires Scaled(a) == Scaled(b)
    ensures a == b
  {
    assert |a| == |Scaled(a)| == |b|;
    forall k | 0 <= k < |a| ensures a[k] == b[k] {
      assert Scaled(a)[k] == Scaled(b)[k];
    }
  }

  /** The scale is linear and maps the 24-bit range to -1 up to one step below +1. */
  lemma FullScale(x: int)
    ensures ScaleInt24(x) * 8388608.0 == x as real
    ensures IsInt24(x) <==> -1.0 <= ScaleInt24(x) < 1.0
  {
  }

  predicate Accepted(packet: seq<byte>) {
    HeaderOk(packet) && Synced(Usb(packet, 0)) && Synced(Usb(packet, 1))
  }

  /** Exactly the packets with these twelve bytes: the Metis magic with type 1 from
      endpoint 6, and three sync bytes at the start of either USB frame. */
  lemma AcceptedBytes(packet: seq<byte>)
    ensures Accepted(packet) <==>
            && |packet| == 1032
            && packet[0] == 0xEF && packet[1] == 0xFE && packet[2] == 1 && packet[3] == 6
            && packet[8] == packet[9] == packet[10] == 0x7F
            && packet[520] == packet[521] == packet[522] == 0x7F
  {
    if |packet| == 1032 {
      assert Usb(packet, 1)[0] == packet[520];
    }
  }

  datatype Echo = Echo(telemetry0: Telemetry, telemetry1: Telemetry, overload: Overload)

  function EchoOf(packet: seq<byte>): Echo
    requires |packet| == PACKET_LENGTH
  {
    Echo(TelemetryOf(Usb(packet, 0)), TelemetryOf(Usb(packet, 1)),
         Either(OverloadOf(Usb(packet, 0)), OverloadOf(Usb(packet, 1))))
  }

  /** The first frame's reading stands in bytes 11 to 15, the second's in 523 to 527, and an
      overload of either frame counts. */
  lemma EchoMeaning(packet: seq<byte>)
    requires |packet| == 1032
    ensures var e := EchoOf(packet);
            && e.telemetry0 == TelemetryAt(packet, 11) && e.telemetry1 == TelemetryAt(packet, 523)
            && (e.overload.adc0 <==> packet[12] % 2 == 1 || packet[524] % 2 == 1)
            && (e.overload.adc1 <==> packet[13] % 2 == 1 || packet[525] % 2 == 1)
  {
    EchoBytes(packet, 0);
    EchoBytes(packet, 1);
  }

  function TelemetryAt(packet: seq<byte>, at: nat): Telemetry
    requires at + 5 <= |packet|
  {
    if 8 <= packet[at] < 32
    then Telemetry(packet[at], packet[at + 1] as int * 256 + packet[at + 2] as int,
                   packet[at + 3] as int * 256 + packet[at + 4] as int)
    else Telemetry(0, 0, 0)
  }

  const NO_ECHO := Echo(NO_TELEMETRY, NO_TELEMETRY, Overload(false, false))

  /** One frame's command echo, added to what the packet reported so far. */
  function AddEcho(echo: Echo, frame: nat, usb: seq<byte>): Echo
    requires |usb| == USB_FRAME
  {
    var withReading :=
      if TelemetryOf(usb) == NO_TELEMETRY then echo
      else if frame == 0 then echo.(telemetry0 := TelemetryOf(usb))
      else echo.(telemetry1 := TelemetryOf(usb));
    withReading.(overload := Either(echo.overload, OverloadOf(usb)))
  }

  /** The samples of receiver `d` in the first `frames` USB frames. */
  function FramesSamples(packet: seq<byte>, ddcs: nat, frames: nat, d: nat): (s: seq<int>)
    requires |packet| == PACKET_LENGTH && d < ddcs && (ddcs == 1 || ddcs == 4) && frames <= 2
    ensures |s| == 2 * frames * SlotsPerFrame(ddcs)
    ensures frames == 2 ==> s == Samples(packet, ddcs, d)
  {
    SlotsFit(ddcs);
    var one := SlotsPerFrame(ddcs);
    if frames == 0 then []
    else if frames == 1 then FrameSamples(Usb(packet, 0), ddcs, one, d)
    else FrameSamples(Usb(packet, 0), ddcs, one, d) + FrameSamples(Usb(packet, 1), ddcs, one, d)
  }

  /** The buffer starts with these samples. */
  ghost predicate Filled(out: array<real>, samples: seq<real>)
    reads out
  {
    |samples| <= out.Length && out[..|samples|] == samples
  }

  /** The scaled pair of receiver `d` in the slot at `off`. */
  function SlotPair(usb: seq<byte>, off: nat, d: nat): (p: seq<real>)
    requires off + 6 * d + 6 <= |usb|
    ensures |p| == 2
  {
    [ScaleInt24(Field24(usb, off + 6 * d)), ScaleInt24(Field24(usb, off + 6 * d + 3))]
  }

  /** `out[at] = i; out[at + 1] = q` */
  method PutPair(out: array<real>, at: nat, pair: seq<real>, ghost before: seq<real>)
    requires |pair| == 2 && at + 2 <= out.Length
    requires Filled(out, before) && |before| == at
    modifies out
    ensures Filled(out, before + pair)
    ensures out[at + 2..] == old(out[at + 2..])
  {
    out[at] := pair[0];
    out[at + 1] := pair[1];
  }

  /** What a buffer holds after `g` slots of a frame. */
  ghost function After(before: seq<real>, usb: seq<byte>, ddcs: nat, g: nat, d: nat): (s: seq<real>)
    requires |usb| == USB_FRAME && (ddcs == 1 || ddcs == 4) && d < ddcs && g <= SlotsPerFrame(ddcs)
    ensures |s| == |before| + 2 * g
  {
    SlotsInPayload(ddcs, g);
    before + Scaled(FrameSamples(usb, ddcs, g, d))
  }

  lemma AfterNothing(before: seq<real>, usb: seq<byte>, ddcs: nat, d: nat)
    requires |usb| == USB_FRAME && (ddcs == 1 || ddcs == 4) && d < ddcs
    ensures After(before, usb, ddcs, 0, d) == before
  {
  }

  lemma FrameGrows(usb: seq<byte>, ddcs: nat, g: nat, d: nat, off: nat)
    requires |usb| == USB_FRAME && d < ddcs && USB_HEADER + Span(Width(ddcs), g + 1) <= |usb|
    requires off == USB_HEADER + Span(Width(ddcs), g)
    ensures off + 6 * d + 6 <= |usb|
    ensures FrameSamples(usb, ddcs, g + 1, d)
            == FrameSamples(usb, ddcs, g, d) + [Field24(usb, off + 6 * d), Field24(usb, off + 6 * d + 3)]
  {
  }

  lemma AfterSlot(before: seq<real>, usb: seq<byte>, ddcs: nat, g: nat, d: nat, off: nat)
    requires |usb| == USB_FRAME && (ddcs == 1 || ddcs == 4) && d < ddcs && g < SlotsPerFrame(ddcs)
    requires off == USB_HEADER + g * (if ddcs == 4 then 26 else 8)
    ensures off + 6 * d + 6 <= |usb|
    ensures After(before, usb, ddcs, g + 1, d) == After(before, usb, ddcs, g, d) + SlotPair(usb, off, d)
  {
    SlotsInPayload(ddcs, g);
    SlotsInPayload(ddcs, g + 1);
    FrameGrows(usb, ddcs, g, d, off);
    ScaledConcat(FrameSamples(usb, ddcs, g, d), [Field24(usb, off + 6 * d), Field24(usb, off + 6 * d + 3)]);
  }

  lemma AfterFrame(packet: seq<byte>, ddcs: nat, frame: nat, d: nat)
    requires |packet| == PACKET_LENGTH && frame < 2 && d < ddcs && (ddcs == 1 || ddcs == 4)
    ensures Scaled(FramesSamples(packet, ddcs, frame + 1, d)) ==
            After(Scaled(FramesSamples(packet, ddcs, frame, d)), Usb(packet, frame), ddcs, SlotsPerFrame(ddcs), d)
  {
    SlotsInPayload(ddcs, SlotsPerFrame(ddcs));
    var before, usb := FramesSamples(packet, ddcs, frame, d), FrameSamples(Usb(packet, frame), ddcs, SlotsPerFrame(ddcs), d);
    ScaledConcat(before, usb);
    assert FramesSamples(packet, ddcs, frame + 1, d) == before + usb;
  }

  /** Frames read so far were in sync, and `echo` is what they reported. */
  ghost predicate EchoSoFar(packet: seq<byte>, frame: nat, echo: Echo)
    requires |packet| == PACKET_LENGTH && frame <= 2
  {
    if frame == 0 then echo == NO_ECHO
    else if frame == 1 then Synced(Usb(packet, 0)) && echo == AddEcho(NO_ECHO, 0, Usb(packet, 0))
    else Synced(Usb(packet, 0)) && Synced(Usb(packet, 1)) && echo == EchoOf(packet)
  }

  /** The standard one-receiver packet: 126 interleaved pairs. */
  method TryParsePacket(packet: seq<byte>, interleavedOut: array<real>)
    returns (ok: bool, sequence: int, complexSamples: nat, echo: Echo)
    modifies interleavedOut
    ensures ok <==> Accepted(packet) && interleavedOut.Length >= 252
    ensures sequence == if HeaderOk(packet) then ReadBe32(packet[4..8]) else 0
    ensures complexSamples == if ok then 126 else 0
    ensures ok ==> echo == EchoOf(packet)
    ensures ok ==> Filled(interleavedOut, Scaled(Samples(packet, 1, 0)))
    ensures interleavedOut.Length >= 252 ==> interleavedOut[252..] == old(interleavedOut[252..])
    ensures interleavedOut.Length < 252 ==> interleavedOut[..] == old(interleavedOut[..])
  {
    ok, sequence, complexSamples, echo := false, 0, 0, NO_ECHO;
    if !HeaderOk(packet) {
      return;
    }
    sequence := ReadBe32(packet[4..8]);
    if interleavedOut.Length < 252 {
      return;
    }
    var frame := 0;
    while frame < 2
      invariant 0 <= frame <= 2
      invariant EchoSoFar(packet, frame, echo)
      invariant Filled(interleavedOut, Scaled(FramesSamples(packet, 1, frame, 0)))
      invariant interleavedOut[252..] == old(interleavedOut[252..])
    {
      var usb := Usb(packet, frame);
      if !Synced(usb) {
        return;
      }
      echo := AddEcho(echo, frame, usb);
      AfterFrame(packet, 1, frame, 0);
      ReadFrame(usb, interleavedOut, Scaled(FramesSamples(packet, 1, frame, 0)), 126 * frame);
      frame := frame + 1;
    }
    ok, complexSamples := true, 126;
  }

  /** The payload loop of the standard layout, writing from `written` on. */
  method ReadFrame(usb: seq<byte>, out: array<real>, ghost before: seq<real>, written: nat)
    requires |usb| == USB_FRAME && written + 126 <= out.Length && written <= 126
    requires Filled(out, before) && |before| == written
    modifies out
    ensures Filled(out, After(before, usb, 1, 63, 0))
    ensures out.Length >= 252 ==> out[252..] == old(out[252..])
  {
    AfterNothing(before, usb, 1, 0);
    for g := 0 to 63
      invariant Filled(out, After(before, usb, 1, g, 0))
      invariant out.Length >= 252 ==> out[252..] == old(out[252..])
    {
      AfterSlot(before, usb, 1, g, 0, USB_HEADER + g * 8);
      ghost var at, tail := written + 2 * g, out[written + 2 * g + 2..];
      PutPair(out, written + 2 * g, SlotPair(usb, USB_HEADER + g * 8, 0), After(before, usb, 1, g, 0));
      assert out.Length >= 252 ==> out[252..] == tail[252 - at - 2..];
    }
  }

  /** The four-receiver PureSignal packet: 38 pairs for each receiver. */
  method TryParseHl2Ps4DdcPacket(packet: seq<byte>,
                                 ddc0: array<real>, ddc1: array<real>, ddc2: array<real>, ddc3: array<real>)
    returns (ok: bool, sequence: int, complexSamples: nat, echo: Echo)
    requires ddc0 != ddc1 && ddc0 != ddc2 && ddc0 != ddc3 && ddc1 != ddc2 && ddc1 != ddc3 && ddc2 != ddc3
    modifies ddc0, ddc1, ddc2, ddc3
    ensures ok <==> Accepted(packet) && ddc0.Length >= 76 && ddc1.Length >= 76 && ddc2.Length >= 76 && ddc3.Length >= 76
    ensures sequence == if HeaderOk(packet) then ReadBe32(packet[4..8]) else 0
    ensures complexSamples == if ok then 38 else 0
    ensures ok ==> echo == EchoOf(packet)
    ensures ok ==> Filled(ddc0, Scaled(Samples(packet, 4, 0))) && Filled(ddc1, Scaled(Samples(packet, 4, 1)))
    ensures ok ==> Filled(ddc2, Scaled(Samples(packet, 4, 2))) && Filled(ddc3, Scaled(Samples(packet, 4, 3)))
  {
    ok, sequence, complexSamples, echo := false, 0, 0, NO_ECHO;
    if !HeaderOk(packet) {
      return;
    }
    sequence := ReadBe32(packet[4..8]);
    if ddc0.Length < 76 || ddc1.Length < 76 || ddc2.Length < 76 || ddc3.Length < 76 {
      return;
    }
    var frame := 0;
    while frame < 2
      invariant 0 <= frame <= 2
      invariant EchoSoFar(packet, frame, echo)
      invariant Filled(ddc0, Scaled(FramesSamples(packet, 4, frame, 0)))
      invariant Filled(ddc1, Scaled(FramesSamples(packet, 4, frame, 1)))
      invariant Filled(ddc2, Scaled(FramesSamples(packet, 4, frame, 2)))
      invariant Filled(ddc3, Scaled(FramesSamples(packet, 4, frame, 3)))
    {
      var usb := Usb(packet, frame);
      if !Synced(usb) {
        return;
      }
      echo := AddEcho(echo, frame, usb);
      ReadPsFrame(packet, frame, ddc0, ddc1, ddc2, ddc3);
      frame := frame + 1;
    }
    ok, complexSamples := true, 38;
  }

  method ReadPsFrame(packet: seq<byte>, frame: nat,
                     ddc0: array<real>, ddc1: array<real>, ddc2: array<real>, ddc3: array<real>)
    requires |packet| == PACKET_LENGTH && frame < 2
    requires ddc0 != ddc1 && ddc0 != ddc2 && ddc0 != ddc3 && ddc1 != ddc2 && ddc1 != ddc3 && ddc2 != ddc3
    requires ddc0.Length >= 76 && ddc1.Length >= 76 && ddc2.Length >= 76 && ddc3.Length >= 76
    requires Filled(ddc0, Scaled(FramesSamples(packet, 4, frame, 0)))
    requires Filled(ddc1, Scaled(FramesSamples(packet, 4, frame, 1)))
    requires Filled(ddc2, Scaled(FramesSamples(packet, 4, frame, 2)))
    requires Filled(ddc3, Scaled(FramesSamples(packet, 4, frame, 3)))
    modifies ddc0, ddc1, ddc2, ddc3
    ensures Filled(ddc0, Scaled(FramesSamples(packet, 4, frame + 1, 0)))
    ensures Filled(ddc1, Scaled(FramesSamples(packet, 4, frame + 1, 1)))
    ensures Filled(ddc2, Scaled(FramesSamples(packet, 4, frame + 1, 2)))
    ensures Filled(ddc3, Scaled(FramesSamples(packet, 4, frame + 1, 3)))
  {
    ghost var b0, b1 := Scaled(FramesSamples(packet, 4, frame, 0)), Scaled(FramesSamples(packet, 4, frame, 1));
    ghost var b2, b3 := Scaled(FramesSamples(packet, 4, frame, 2)), Scaled(FramesSamples(packet, 4, frame, 3));
    ReadPsSlots(Usb(packet, frame), ddc0, ddc1, ddc2, ddc3, 38 * frame, b0, b1, b2, b3);
    AfterFrame(packet, 4, frame, 0);
    AfterFrame(packet, 4, frame, 1);
    AfterFrame(packet, 4, frame, 2);
    AfterFrame(packet, 4, frame, 3);
  }

  /** The payload loop: a pair for each receiver, at the same place in each buffer. */
  method ReadPsSlots(usb: seq<byte>,
                     ddc0: array<real>, ddc1: array<real>, ddc2: array<real>, ddc3: array<real>, written: nat,
                     ghost b0: seq<real>, ghost b1: seq<real>, ghost b2: seq<real>, ghost b3: seq<real>)
    requires |usb| == USB_FRAME
    requires ddc0 != ddc1 && ddc0 != ddc2 && ddc0 != ddc3 && ddc1 != ddc2 && ddc1 != ddc3 && ddc2 != ddc3
    requires written + 38 <= ddc0.Length && written + 38 <= ddc1.Length
    requires written + 38 <= ddc2.Length && written + 38 <= ddc3.Length
    requires |b0| == |b1| == |b2| == |b3| == written
    requires Filled(ddc0, b0) && Filled(ddc1, b1) && Filled(ddc2, b2) && Filled(ddc3, b3)
    modifies ddc0, ddc1, ddc2, ddc3
    ensures Filled(ddc0, After(b0, usb, 4, 19, 0)) && Filled(ddc1, After(b1, usb, 4, 19, 1))
    ensures Filled(ddc2, After(b2, usb, 4, 19, 2)) && Filled(ddc3, After(b3, usb, 4, 19, 3))
  {
    AfterNothing(b0, usb, 4, 0);
    AfterNothing(b1, usb, 4, 1);
    AfterNothing(b2, usb, 4, 2);
    AfterNothing(b3, usb, 4, 3);
    for g := 0 to 19
      invariant SlotsFilled(usb, g, ddc0, ddc1, ddc2, ddc3, b0, b1, b2, b3)
    {
      PutSlot(usb, g, ddc0, ddc1, ddc2, ddc3, written + 2 * g, b0, b1, b2, b3);
    }
  }

  /** The first `g` slots of the payload stand in the four buffers. */
  ghost predicate SlotsFilled(usb: seq<byte>, g: nat,
                              ddc0: array<real>, ddc1: array<real>, ddc2: array<real>, ddc3: array<real>,
                              b0: seq<real>, b1: seq<real>, b2: seq<real>, b3: seq<real>)
    requires |usb| == USB_FRAME && g <= 19
    reads ddc0, ddc1, ddc2, ddc3
  {
    && Filled(ddc0, After(b0, usb, 4, g, 0)) && Filled(ddc1, After(b1, usb, 4, g, 1))
    && Filled(ddc2, After(b2, usb, 4, g, 2)) && Filled(ddc3, After(b3, usb, 4, g, 3))
  }

  method PutSlot(usb: seq<byte>, g: nat,
                 ddc0: array<real>, ddc1: array<real>, ddc2: array<real>, ddc3: array<real>, at: nat,
                 ghost b0: seq<real>, ghost b1: seq<real>, ghost b2: seq<real>, ghost b3: seq<real>)
    requires |usb| == USB_FRAME && g < 19
    requires ddc0 != ddc1 && ddc0 != ddc2 && ddc0 != ddc3 && ddc1 != ddc2 && ddc1 != ddc3 && ddc2 != ddc3
    requires at + 2 <= ddc0.Length && at + 2 <= ddc1.Length && at + 2 <= ddc2.Length && at + 2 <= ddc3.Length
    requires |b0| == |b1| == |b2| == |b3| && |b0| + 2 * g == at
    requires SlotsFilled(usb, g, ddc0, ddc1, ddc2, ddc3, b0, b1, b2, b3)
    modifies ddc0, ddc1, ddc2, ddc3
    ensures SlotsFilled(usb, g + 1, ddc0, ddc1, ddc2, ddc3, b0, b1, b2, b3)
  {
    var off := USB_HEADER + g * 26;
    AfterSlot(b0, usb, 4, g, 0, off);
    AfterSlot(b1, usb, 4, g, 1, off);
    AfterSlot(b2, usb, 4, g, 2, off);
    AfterSlot(b3, usb, 4, g, 3, off);
    var p0, p1, p2, p3 := SlotPair(usb, off, 0), SlotPair(usb, off, 1), SlotPair(usb, off, 2), SlotPair(usb, off, 3);
    PutFour(ddc0, ddc1, ddc2, ddc3, at, p0, p1, p2, p3,
            After(b0, usb, 4, g, 0), After(b1, usb, 4, g, 1), After(b2, usb, 4, g, 2), After(b3, usb, 4, g, 3));
  }

  method PutFour(ddc0: array<real>, ddc1: array<real>, ddc2: array<real>, ddc3: array<real>, at: nat,
                 p0: seq<real>, p1: seq<real>, p2: seq<real>, p3: seq<real>,
                 ghost s0: seq<real>, ghost s1: seq<real>, ghost s2: seq<real>, ghost s3: seq<real>)
    requires ddc0 != ddc1 && ddc0 != ddc2 && ddc0 != ddc3 && ddc1 != ddc2 && ddc1 != ddc3 && ddc2 != ddc3
    requires at + 2 <= ddc0.Length && at + 2 <= ddc1.Length && at + 2 <= ddc2.Length && at + 2 <= ddc3.Length
    requires |p0| == |p1| == |p2| == |p3| == 2 && |s0| == |s1| == |s2| == |s3| == at
    requires Filled(ddc0, s0) && Filled(ddc1, s1) && Filled(ddc2, s2) && Filled(ddc3, s3)
    modifies ddc0, ddc1, ddc2, ddc3
    ensures Filled(ddc0, s0 + p0) && Filled(ddc1, s1 + p1) && Filled(ddc2, s2 + p2) && Filled(ddc3, s3 + p3)
  {
    PutPair(ddc0, at, p0, s0);
    PutPair(ddc1, at, p1, s1);
    PutPair(ddc2, at, p2, s2);
    PutPair(ddc3, at, p3, s3);
  }
}
