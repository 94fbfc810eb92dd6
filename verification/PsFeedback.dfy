/** PureSignal feedback: paired samples from packets of any size collected into blocks
    of 1024, for both protocols. */
module PsFeedback {
  import opened Seqs
  import opened Wire
  import Ep6
  import PacketParser

  const BLOCK: nat := 1024

  /** Receive feedback and transmit reference, taken at the same instant. */
  datatype Sample = Sample(rxI: real, rxQ: real, txI: real, txQ: real)

  datatype Block = Block(txI: seq<real>, txQ: seq<real>, rxI: seq<real>, rxQ: seq<real>, seqHint: nat)

  /** A sample and the sequence number of the packet it came in. */
  datatype Arrival = Arrival(sample: Sample, packet: nat)

  /** `b` holds exactly these arrivals, paired by index, and is labelled with the
      packet of the first. */
  ghost predicate BlockOf(b: Block, part: seq<Arrival>) {
    && |part| == |b.rxI| == |b.rxQ| == |b.txI| == |b.txQ| == BLOCK
    && (forall k :: 0 <= k < BLOCK ==> part[k].sample == Sample(b.rxI[k], b.rxQ[k], b.txI[k], b.txQ[k]))
    && b.seqHint == part[0].packet
  }

  /** The `k`-th block's share of the stream. */
  function Share(stream: seq<Arrival>, k: nat): seq<Arrival>
    requires BLOCK * (k + 1) <= |stream|
  {
    stream[BLOCK * k..BLOCK * k + BLOCK]
  }

  ghost predicate Blocks(blocks: seq<Block>, stream: seq<Arrival>) {
    BLOCK * |blocks| <= |stream|
    && forall k :: 0 <= k < |blocks| ==> BlockOf(blocks[k], Share(stream, k))
  }

  lemma BlocksGrow(blocks: seq<Block>, stream: seq<Arrival>, a: Arrival)
    requires Blocks(blocks, stream)
    ensures Blocks(blocks, stream + [a])
  {
    forall k | 0 <= k < |blocks| ensures Share(stream + [a], k) == Share(stream, k) {
    }
  }

  /** The samples of the blocks, in order. */
  function Unblocked(blocks: seq<Block>): seq<Sample>
    requires forall b :: b in blocks ==> |b.rxI| == |b.rxQ| == |b.txI| == |b.txQ|
  {
    if blocks == [] then []
    else
      var b := blocks[|blocks| - 1];
      assert b in blocks;
      Unblocked(blocks[..|blocks| - 1]) + BlockSamples(b)
  }

  function BlockSamples(b: Block): (s: seq<Sample>)
    requires |b.rxI| == |b.rxQ| == |b.txI| == |b.txQ|
    ensures |s| == |b.rxI| && forall k :: 0 <= k < |s| ==> s[k] == Sample(b.rxI[k], b.rxQ[k], b.txI[k], b.txQ[k])
  {
    seq(|b.rxI|, k requires 0 <= k < |b.rxI| => Sample(b.rxI[k], b.rxQ[k], b.txI[k], b.txQ[k]))
  }

  function SamplesOf(stream: seq<Arrival>): (s: seq<Sample>)
    ensures |s| == |stream|
    ensures forall k :: 0 <= k < |s| ==> s[k] == stream[k].sample
  {
    seq(|stream|, k requires 0 <= k < |stream| => stream[k].sample)
  }

  /** Emitted blocks and the partial block together are the decoded stream: nothing is
      lost, repeated or reordered, receive and transmit stay paired, and every block
      is labelled with the packet that supplied its first sample. */
  lemma {:induction false} NothingLost(blocks: seq<Block>, stream: seq<Arrival>)
    requires Blocks(blocks, stream)
    ensures forall b :: b in blocks ==> |b.rxI| == |b.rxQ| == |b.txI| == |b.txQ| == 1024
    ensures Unblocked(blocks) + SamplesOf(stream[1024 * |blocks|..]) == SamplesOf(stream)
    ensures forall k :: 0 <= k < |blocks| ==> blocks[k].seqHint == stream[1024 * k].packet
    decreases |blocks|
  {
    forall k | 0 <= k < |blocks|
      ensures BlockOf(blocks[k], Share(stream, k)) && blocks[k].seqHint == stream[BLOCK * k].packet
    {
    }
    if blocks == [] {
      assert stream[BLOCK * |blocks|..] == stream;
    } else {
      var n := |blocks| - 1;
      NothingLost(blocks[..n], stream);
      LastBlock(blocks, stream);
    }
  }

  lemma LastBlock(blocks: seq<Block>, stream: seq<Arrival>)
    requires Blocks(blocks, stream) && blocks != []
    requires forall b :: b in blocks ==> |b.rxI| == |b.rxQ| == |b.txI| == |b.txQ| == BLOCK
    ensures var n := |blocks| - 1;
            Unblocked(blocks) + SamplesOf(stream[BLOCK * |blocks|..])
            == Unblocked(blocks[..n]) + SamplesOf(stream[BLOCK * n..])
  {
    var n := |blocks| - 1;
    var share := Share(stream, n);
    LastUnblocked(blocks);
    OwnSamples(blocks[n], share);
    SamplesSplit(stream, BLOCK * n);
    Rejoin(Unblocked(blocks[..n]), SamplesOf(share), SamplesOf(stream[BLOCK * n + BLOCK..]));
  }

  lemma LastUnblocked(blocks: seq<Block>)
    requires blocks != [] && forall b :: b in blocks ==> |b.rxI| == |b.rxQ| == |b.txI| == |b.txQ|
    ensures blocks[|blocks| - 1] in blocks
    ensures Unblocked(blocks) == Unblocked(blocks[..|blocks| - 1]) + BlockSamples(blocks[|blocks| - 1])
  {
  }

  lemma OwnSamples(b: Block, share: seq<Arrival>)
    requires BlockOf(b, share)
    ensures BlockSamples(b) == SamplesOf(share)
  {
  }

  lemma SamplesSplit(stream: seq<Arrival>, i: nat)
    requires i + BLOCK <= |stream|
    ensures SamplesOf(stream[i..]) == SamplesOf(stream[i..i + BLOCK]) + SamplesOf(stream[i + BLOCK..])
  {
  }

  lemma Rejoin<T>(a: seq<T>, b: seq<T>, c: seq<T>)
    ensures (a + b) + c == a + (b + c)
  {
  }

  class PsAccumulator {
    const rxI: array<real>
    const rxQ: array<real>
    const txI: array<real>
    const txQ: array<real>
    var blockFill: nat
    var blockStartSeq: nat
    // Blocks handed to the sink or the channel since the last re-arm.
    var frames: seq<Block>
    ghost var stream: seq<Arrival>

    ghost predicate Shape()
    {
      && rxI.Length == rxQ.Length == txI.Length == txQ.Length == BLOCK
      && rxI != rxQ && rxI != txI && rxI != txQ && rxQ != txI && rxQ != txQ && txI != txQ
    }

    ghost predicate Valid()
      reads this, rxI, rxQ, txI, txQ
    {
      && Shape()
      && blockFill < BLOCK
      && |stream| == BLOCK * |frames| + blockFill
      && Blocks(frames, stream)
      && Partial(stream[BLOCK * |frames|..])
    }

    /** The arrays start with these arrivals. */
    ghost predicate Partial(part: seq<Arrival>)
      requires Shape()
      reads this, rxI, rxQ, txI, txQ
    {
      && |part| == blockFill <= BLOCK
      && (forall k :: 0 <= k < blockFill ==> part[k].sample == Sample(rxI[k], rxQ[k], txI[k], txQ[k]))
      && (blockFill > 0 ==> blockStartSeq == part[0].packet)
    }

    /** At any moment the emitted blocks and the partial one are the whole stream. */
    lemma StreamSoFar()
      requires Valid()
      ensures forall b :: b in frames ==> |b.rxI| == |b.rxQ| == |b.txI| == |b.txQ| == BLOCK
      ensures Unblocked(frames) + seq(blockFill, k requires 0 <= k < blockFill reads this, rxI, rxQ, txI, txQ
                                        requires Shape() && blockFill <= BLOCK => Sample(rxI[k], rxQ[k], txI[k], txQ[k]))
              == SamplesOf(stream)
      ensures forall k :: 0 <= k < |frames| ==> frames[k].seqHint == stream[BLOCK * k].packet
    {
      NothingLost(frames, stream);
    }

    constructor ()
      ensures Valid() && stream == [] && frames == []
    {
      rxI, rxQ := new real[BLOCK], new real[BLOCK];
      txI, txQ := new real[BLOCK], new real[BLOCK];
      blockFill, blockStartSeq, frames := 0, 0, [];
      stream := [];
    }

    /** Arming or disarming throws away the partial block. */
    method Rearm()
      requires Valid()
      modifies this
      ensures Valid() && stream == [] && frames == []
    {
      blockFill := 0;
      frames := [];
      stream := [];
    }

    /** The loop body both packet handlers share. */
    method Add(s: Sample, sequence: nat)
      requires Valid()
      modifies this, rxI, rxQ, txI, txQ
      ensures Valid() && stream == old(stream) + [Arrival(s, sequence)]
    {
      ghost var part := stream[BLOCK * |frames|..];
      ghost var a := Arrival(s, sequence);
      BlocksGrow(frames, stream, a);
      if blockFill == 0 {
        blockStartSeq := sequence;
      }
      rxI[blockFill] := s.rxI;
      rxQ[blockFill] := s.rxQ;
      txI[blockFill] := s.txI;
      txQ[blockFill] := s.txQ;
      blockFill := blockFill + 1;
      stream := stream + [a];
      assert stream[BLOCK * |frames|..] == part + [a];
      if blockFill >= BLOCK {
        Emit(part + [a]);
      }
    }

    method Emit(ghost part: seq<Arrival>)
      requires Shape() && blockFill == BLOCK
      requires Partial(part)
      requires Blocks(frames, stream) && |stream| == BLOCK * (|frames| + 1)
      requires part == Share(stream, |frames|)
      modifies this`blockFill, this`frames
      ensures Valid()
    {
      var b := Block(txI[..], txQ[..], rxI[..], rxQ[..], blockStartSeq);
      assert BlockOf(b, part);
      frames := frames + [b];
      blockFill := 0;
      assert stream[BLOCK * |frames|..] == [];
    }

    // ---- Protocol 1: 38 pairs a packet -------------------------------------

    /** Decodes a four-receiver packet; the third receiver is the feedback, the fourth
        the transmit reference. */
    method HandlePs4DdcPacket(packet: seq<byte>) returns (accepted: bool)
      requires Valid()
      modifies this, rxI, rxQ, txI, txQ
      ensures Valid()
      ensures accepted <==> PacketParser.Accepted(packet)
      ensures stream == if accepted then old(stream) + Ps4DdcArrivals(packet) else old(stream)
    {
      var ok, sequence, ddc2, ddc3 := DecodePs4Ddc(packet);
      if !ok {
        return false;
      }
      AddPairs(ddc2, ddc3, 38, sequence);
      accepted := true;
    }

    method AddPairs(ddc2: seq<real>, ddc3: seq<real>, samples: nat, sequence: nat)
      requires Valid() && 2 * samples <= |ddc2| && 2 * samples <= |ddc3|
      modifies this, rxI, rxQ, txI, txQ
      ensures Valid()
      ensures stream == old(stream) + PairArrivals(ddc2, ddc3, samples, sequence)
    {
      for s := 0 to samples
        invariant Valid()
        invariant stream == old(stream) + PairArrivals(ddc2, ddc3, s, sequence)
      {
        Add(Sample(ddc2[2 * s], ddc2[2 * s + 1], ddc3[2 * s], ddc3[2 * s + 1]), sequence);
      }
    }

    // ---- Protocol 2: as many pairs as the header declares -------------------

    /** Decodes a paired packet from the 2048-byte receive buffer. A declared count
        whose last pair would lie outside the buffer makes the read throw, after the
        pairs before it have been taken. */
    method HandlePsPairedPacket(buf: seq<byte>) returns (threw: bool)
      requires Valid() && |buf| == BUFFER
      modifies this, rxI, rxQ, txI, txQ
      ensures Valid()
      ensures threw <==> PairCount(buf) > 169
      ensures stream == old(stream) + PairedArrivals(buf, Min(PairCount(buf), 169))
    {
      var sequence := ReadBe32(buf[..4]);
      var samplesPerPacket := PairCount(buf);
      for i := 0 to samplesPerPacket
        invariant i <= 169
        invariant Valid()
        invariant stream == old(stream) + PairedArrivals(buf, i)
      {
        var off := 16 + i * 12;
        if off + 12 > |buf| {
          return true;
        }
        Add(DecodePsPair(buf[off..off + 12]), sequence);
      }
      threw := false;
    }
  }

  /** Parses into rented buffers and reads back the two a feedback block needs. */
  method DecodePs4Ddc(packet: seq<byte>) returns (ok: bool, sequence: nat, feedback: seq<real>, reference: seq<real>)
    ensures ok <==> PacketParser.Accepted(packet)
    ensures |feedback| == |reference| == 76
    ensures ok ==> PairArrivals(feedback, reference, 38, sequence) == Ps4DdcArrivals(packet)
  {
    var ddc0, ddc1 := new real[76], new real[76];
    var ddc2, ddc3 := new real[76], new real[76];
    var samples, echo;
    ok, sequence, samples, echo := PacketParser.TryParseHl2Ps4DdcPacket(packet, ddc0, ddc1, ddc2, ddc3);
    feedback, reference := ddc2[..76], ddc3[..76];
  }

  /** The first `n` interleaved pairs of two receivers, as one packet's arrivals. */
  function PairArrivals(feedback: seq<real>, reference: seq<real>, n: nat, sequence: nat): (a: seq<Arrival>)
    requires 2 * n <= |feedback| && 2 * n <= |reference|
    ensures |a| == n
  {
    if n == 0 then []
    else
      PairArrivals(feedback, reference, n - 1, sequence)
      + [Arrival(Sample(feedback[2 * n - 2], feedback[2 * n - 1], reference[2 * n - 2], reference[2 * n - 1]), sequence)]
  }

  /** What a Protocol 1 packet adds to the stream. */
  function Ps4DdcArrivals(packet: seq<byte>): (a: seq<Arrival>)
    requires PacketParser.Accepted(packet)
    ensures |a| == 38
  {
    PairArrivals(PacketParser.Scaled(PacketParser.FramesSamples(packet, 4, 2, 2)),
                 PacketParser.Scaled(PacketParser.FramesSamples(packet, 4, 2, 3)), 38, ReadBe32(packet[4..8]))
  }

  lemma {:induction false} PairArrivalAt(feedback: seq<real>, reference: seq<real>, n: nat, sequence: nat, k: nat)
    requires k < n && 2 * n <= |feedback| && 2 * n <= |reference|
    ensures PairArrivals(feedback, reference, n, sequence)[k]
            == Arrival(Sample(feedback[2 * k], feedback[2 * k + 1], reference[2 * k], reference[2 * k + 1]), sequence)
  {
    if k < n - 1 {
      PairArrivalAt(feedback, reference, n - 1, sequence, k);
    }
  }

  /** Where the pairs of a packet come from: the `k`-th takes its feedback from the third
      receiver and its reference from the fourth, in the `k`-th slot of the two frames. */
  lemma Ps4DdcBytes(packet: seq<byte>, k: nat)
    requires PacketParser.Accepted(packet) && k < 38
    ensures var at := 28 + (if k < 19 then 26 * k else 18 + 26 * k);
            var a := Ps4DdcArrivals(packet)[k];
            && a.sample.rxI * 8388608.0 == ReadInt24BigEndian(packet[at..at + 3]) as real
            && a.sample.rxQ * 8388608.0 == ReadInt24BigEndian(packet[at + 3..at + 6]) as real
            && a.sample.txI * 8388608.0 == ReadInt24BigEndian(packet[at + 6..at + 9]) as real
            && a.sample.txQ * 8388608.0 == ReadInt24BigEndian(packet[at + 9..at + 12]) as real
            && a.packet == ReadBe32(packet[4..8])
  {
    var feedback := PacketParser.Scaled(PacketParser.FramesSamples(packet, 4, 2, 2));
    var reference := PacketParser.Scaled(PacketParser.FramesSamples(packet, 4, 2, 3));
    PairArrivalAt(feedback, reference, 38, ReadBe32(packet[4..8]), k);
    ReceiverBytes(packet, 2, k);
    ReceiverBytes(packet, 3, k);
  }

  lemma ReceiverBytes(packet: seq<byte>, d: nat, k: nat)
    requires PacketParser.Accepted(packet) && d < 4 && k < 38
    ensures var at := 16 + 6 * d + (if k < 19 then 26 * k else 18 + 26 * k);
            var s := PacketParser.Scaled(PacketParser.FramesSamples(packet, 4, 2, d));
            && at + 6 <= |packet| && |s| == 76
            && s[2 * k] * 8388608.0 == ReadInt24BigEndian(packet[at..at + 3]) as real
            && s[2 * k + 1] * 8388608.0 == ReadInt24BigEndian(packet[at + 3..at + 6]) as real
  {
    if k < 19 {
      Ep6.SampleBytes(packet, 4, d, 0, k, k, 16 + 6 * d + 26 * k);
    } else {
      Ep6.SampleBytes(packet, 4, d, 1, k - 19, k, 34 + 6 * d + 26 * k);
    }
  }

  /** A packet laid out from four-receiver frames adds exactly the third and fourth
      receivers' samples, under the packet's own sequence number. */
  lemma Ps4DdcArrivalsOfLayout(sequence: nat, f0: Ep6.Frame, f1: Ep6.Frame)
    requires sequence < TWO_32 && Ep6.FrameOk(f0, 4) && Ep6.FrameOk(f1, 4)
    ensures var p := Ep6.Packet(sequence, f0, f1);
            var feedback, reference := Ep6.Sent(f0.slots, 2) + Ep6.Sent(f1.slots, 2), Ep6.Sent(f0.slots, 3) + Ep6.Sent(f1.slots, 3);
            && PacketParser.Accepted(p) && |feedback| == |reference| == 76
            && Ps4DdcArrivals(p) == PairArrivals(PacketParser.Scaled(feedback), PacketParser.Scaled(reference), 38, sequence)
  {
    Ep6.ParsingInvertsLayout(sequence, f0, f1, 4, 2);
    Ep6.ParsingInvertsLayout(sequence, f0, f1, 4, 3);
  }

  const BUFFER: nat := 2048
  const DATAGRAM: nat := 1444

  /** Half the declared samples per frame; 119 when that is zero or above 200. */
  function PairCount(buf: seq<byte>): (n: nat)
    requires |buf| >= 16
    ensures 1 <= n <= 200
  {
    var n := ReadBe16(buf[14..16]) / 2;
    if n <= 0 || n > 200 then 119 else n
  }

  /** A header that declares 2 to 401 samples per frame stands for half as many pairs,
      rounded down; any other for 119. */
  lemma PairCountMeaning(buf: seq<byte>, pairs: nat)
    requires |buf| >= 16 && 1 <= pairs <= 200
    ensures var declared := buf[14] as int * 256 + buf[15] as int;
            PairCount(buf) == pairs <==>
            declared == 2 * pairs || declared == 2 * pairs + 1 || (pairs == 119 && (declared < 2 || declared > 401))
  {
    assert buf[14..16] == [buf[14], buf[15]];
  }

  function ScalePs(v: int): real {
    v as real / 8388608.0
  }

  /** The same scale as the other protocol's. */
  lemma ScalesAgree(v: int)
    ensures ScalePs(v) * 8388608.0 == v as real && ScalePs(v) == PacketParser.ScaleInt24(v)
  {
  }

  /** First receiver is the feedback, second the transmit reference. */
  function DecodePsPair(pair: seq<byte>): Sample
    requires |pair| == 12
  {
    Sample(ScalePs(SignExtend24(Raw24(pair[0..3]))), ScalePs(SignExtend24(Raw24(pair[3..6]))),
           ScalePs(SignExtend24(Raw24(pair[6..9]))), ScalePs(SignExtend24(Raw24(pair[9..12]))))
  }

  function PairedArrivals(buf: seq<byte>, n: nat): (a: seq<Arrival>)
    requires |buf| >= 16 + 12 * n
    ensures |a| == n
  {
    if n == 0 then []
    else
      PairedArrivals(buf, n - 1)
      + [Arrival(DecodePsPair(buf[4 + 12 * n..16 + 12 * n]), ReadBe32(buf[..4]))]
  }

  /** Decoding a pair inverts its layout and keeps the two receivers apart. */
  lemma PsPairRoundTrip(rxI: int, rxQ: int, txI: int, txQ: int)
    requires IsInt24(rxI) && IsInt24(rxQ) && IsInt24(txI) && IsInt24(txQ)
    ensures DecodePsPair(Be24(rxI) + Be24(rxQ) + Be24(txI) + Be24(txQ)) ==
            Sample(ScalePs(rxI), ScalePs(rxQ), ScalePs(txI), ScalePs(txQ))
  {
    var p := Be24(rxI) + Be24(rxQ) + Be24(txI) + Be24(txQ);
    assert p[0..3] == Be24(rxI) && p[3..6] == Be24(rxQ) && p[6..9] == Be24(txI) && p[9..12] == Be24(txQ);
    Int24RoundTrip(rxI, Be24(rxI));
    Int24RoundTrip(rxQ, Be24(rxQ));
    Int24RoundTrip(txI, Be24(txI));
    Int24RoundTrip(txQ, Be24(txQ));
  }

  /** The 24-bit values of one pair: feedback first, then the transmit reference. */
  datatype WirePair = WirePair(rxI: int, rxQ: int, txI: int, txQ: int)

  predicate PairOk(p: WirePair) {
    IsInt24(p.rxI) && IsInt24(p.rxQ) && IsInt24(p.txI) && IsInt24(p.txQ)
  }

  function PairBytes(p: WirePair): (b: seq<byte>)
    ensures |b| == 12
  {
    Be24(p.rxI) + Be24(p.rxQ) + Be24(p.txI) + Be24(p.txQ)
  }

  function PairsBytes(pairs: seq<WirePair>): (b: seq<byte>)
    ensures |b| == 12 * |pairs|
  {
    if pairs == [] then [] else PairsBytes(pairs[..|pairs| - 1]) + PairBytes(pairs[|pairs| - 1])
  }

  /** A paired packet of OpenHPSDR Protocol 2: sequence, ten bytes of time stamp and
      sample size, the number of samples, then the pairs. */
  function Datagram(sequence: nat, middle: seq<byte>, pairs: seq<WirePair>): seq<byte> {
    Be32(sequence) + middle + Be16(2 * |pairs|) + PairsBytes(pairs)
  }

  function SentArrivals(sequence: nat, pairs: seq<WirePair>): (a: seq<Arrival>)
    ensures |a| == |pairs|
  {
    if pairs == [] then []
    else
      var p := pairs[|pairs| - 1];
      SentArrivals(sequence, pairs[..|pairs| - 1])
      + [Arrival(Sample(ScalePs(p.rxI), ScalePs(p.rxQ), ScalePs(p.txI), ScalePs(p.txQ)), sequence)]
  }

  lemma {:induction false} PairsArrive(buf: seq<byte>, sequence: nat, pairs: seq<WirePair>)
    requires |buf| >= 16 + 12 * |pairs| && ReadBe32(buf[..4]) == sequence
    requires buf[16..16 + 12 * |pairs|] == PairsBytes(pairs)
    requires forall k :: 0 <= k < |pairs| ==> PairOk(pairs[k])
    ensures PairedArrivals(buf, |pairs|) == SentArrivals(sequence, pairs)
    decreases |pairs|
  {
    if pairs != [] {
      var n := |pairs| - 1;
      var p := pairs[n];
      TwoPieces(buf, 16, PairsBytes(pairs[..n]), PairBytes(p));
      PairsArrive(buf, sequence, pairs[..n]);
      LastPairArrives(buf, pairs);
    }
  }

  lemma LastPairArrives(buf: seq<byte>, pairs: seq<WirePair>)
    requires pairs != [] && |buf| >= 16 + 12 * |pairs| && PairOk(pairs[|pairs| - 1])
    requires buf[4 + 12 * |pairs|..16 + 12 * |pairs|] == PairBytes(pairs[|pairs| - 1])
    ensures var p := pairs[|pairs| - 1];
            DecodePsPair(buf[4 + 12 * |pairs|..16 + 12 * |pairs|]) == Sample(ScalePs(p.rxI), ScalePs(p.rxQ), ScalePs(p.txI), ScalePs(p.txQ))
  {
    var p := pairs[|pairs| - 1];
    PsPairRoundTrip(p.rxI, p.rxQ, p.txI, p.txQ);
  }

  /** A buffer that starts with a datagram of up to 119 pairs, whatever follows, adds
      exactly those pairs under the datagram's sequence number. */
  lemma DatagramArrives(buf: seq<byte>, sequence: nat, middle: seq<byte>, pairs: seq<WirePair>)
    requires |buf| == BUFFER && sequence < TWO_32 && |middle| == 10 && 1 <= |pairs| <= 119
    requires forall k :: 0 <= k < |pairs| ==> PairOk(pairs[k])
    requires buf[..16 + 12 * |pairs|] == Datagram(sequence, middle, pairs)
    ensures PairCount(buf) == |pairs|
    ensures PairedArrivals(buf, Min(PairCount(buf), 169)) == SentArrivals(sequence, pairs)
  {
    var head, n := Be32(sequence) + middle + Be16(2 * |pairs|), 12 * |pairs|;
    assert buf[..16 + n] == buf[0..0 + |head| + n];
    TwoPieces(buf, 0, head, PairsBytes(pairs));
    HeadFields(buf, sequence, middle, 2 * |pairs|);
    Be32RoundTrip(sequence);
    PairsArrive(buf, sequence, pairs);
  }

  lemma HeadFields(buf: seq<byte>, sequence: nat, middle: seq<byte>, samples: nat)
    requires |buf| >= 16 && |middle| == 10 && samples < 0x1_0000
    requires buf[0..16] == Be32(sequence) + middle + Be16(samples)
    ensures buf[..4] == Be32(sequence) && ReadBe16(buf[14..16]) == samples
  {
    Piece(buf, 0, Be32(sequence) + middle + Be16(samples), 0, 4);
    Piece(buf, 0, Be32(sequence) + middle + Be16(samples), 14, 2);
    assert (Be32(sequence) + middle + Be16(samples))[14..16] == Be16(samples);
  }

  lemma {:induction false} PairedArrivalsAgree(a: seq<byte>, b: seq<byte>, n: nat)
    requires |a| >= 16 + 12 * n && |b| >= 16 + 12 * n
    requires a[..16 + 12 * n] == b[..16 + 12 * n]
    ensures PairedArrivals(a, n) == PairedArrivals(b, n)
  {
    if n > 0 {
      var end := 16 + 12 * n;
      assert a[..end][..4] == a[..4] && b[..end][..4] == b[..4];
      assert a[..end][end - 12..] == a[end - 12..end] && b[..end][end - 12..] == b[end - 12..end];
      assert a[..end][..end - 12] == a[..end - 12] && b[..end][..end - 12] == b[..end - 12];
      PairedArrivalsAgree(a, b, n - 1);
    }
  }

  /** The decoded pairs are those of the 1444-byte datagram, whatever an earlier one
      left in the rest of the buffer, exactly when the header declares at most the 119
      pairs that fit. */
  lemma DatagramDecidesIff(buf: seq<byte>)
    requires |buf| == BUFFER
    ensures PairCount(buf) <= 119 <==>
            forall other: seq<byte> ::
              |other| == BUFFER && other[..DATAGRAM] == buf[..DATAGRAM] ==>
                PairedArrivals(other, Min(PairCount(buf), 169)) == PairedArrivals(buf, Min(PairCount(buf), 169))
  {
    var n := Min(PairCount(buf), 169);
    if PairCount(buf) <= 119 {
      forall other: seq<byte> | |other| == BUFFER && other[..DATAGRAM] == buf[..DATAGRAM]
        ensures PairedArrivals(other, n) == PairedArrivals(buf, n)
      {
        var end := 16 + 12 * n;
        assert other[..DATAGRAM][..end] == other[..end] && buf[..DATAGRAM][..end] == buf[..end];
        PairedArrivalsAgree(other, buf, n);
      }
    } else {
      var other := StaleDiffers(buf, n);
    }
  }

  /** Above 119, a different leftover byte in the buffer changes a decoded sample. */
  lemma StaleDiffers(buf: seq<byte>, n: nat) returns (other: seq<byte>)
    requires |buf| == BUFFER && 119 < n <= 169
    ensures |other| == BUFFER && other[..DATAGRAM] == buf[..DATAGRAM]
    ensures PairedArrivals(other, n) != PairedArrivals(buf, n)
  {
    var at := 6 + 12 * n;
    other := buf[at := if buf[at] == 0 then 1 else 0];
    assert other[..DATAGRAM] == buf[..DATAGRAM];
    var a, b := buf[4 + 12 * n..16 + 12 * n], other[4 + 12 * n..16 + 12 * n];
    assert a[0..3][2] == buf[at] && b[0..3][2] == other[at];
    Int24RoundTrip(0, a[0..3]);
    Int24RoundTrip(0, b[0..3]);
    assert ReadInt24BigEndian(a[0..3]) != ReadInt24BigEndian(b[0..3]);
    assert DecodePsPair(a) != DecodePsPair(b);
    assert PairedArrivals(buf, n)[n - 1].sample == DecodePsPair(a);
    assert PairedArrivals(other, n)[n - 1].sample == DecodePsPair(b);
  }
}
