/** Protocol 2 transmit IQ: sample blocks of any even length cut into packets of 240
    quantised pairs. */
module TxIqPackets {
  import opened Seqs
  import opened Wire
  import opened Quantise

  const PAIRS_PER_PACKET: nat := 240
  const SCRATCH: nat := 480
  const PACKET_LENGTH: nat := 1444

  type Packet = seq<byte>

  function Quantised(xs: seq<real>): (q: seq<int>)
    ensures |q| == |xs|
  {
    seq(|xs|, k requires 0 <= k < |xs| => Int24Clamp(xs[k]))
  }

  function Encoded(xs: seq<real>): (b: seq<byte>)
    ensures |b| == 3 * |xs|
  {
    if xs == [] then []
    else Encoded(xs[..|xs| - 1]) + Be24(Int24Clamp(xs[|xs| - 1]))
  }

  /** Sequence number, then 240 interleaved 24-bit pairs. */
  function PacketOf(seqNo: nat, xs: seq<real>): (p: Packet)
    requires |xs| == SCRATCH
    ensures |p| == PACKET_LENGTH
  {
    Be32(seqNo) + Encoded(xs)
  }

  // ---- The receiving side --------------------------------------------------

  function SequenceOf(p: Packet): int
    requires |p| == PACKET_LENGTH
  {
    ReadBe32(p[..4])
  }

  function Samples(p: Packet): (s: seq<int>)
    requires |p| == PACKET_LENGTH
    ensures |s| == SCRATCH
  {
    seq(SCRATCH, j requires 0 <= j < SCRATCH => ReadInt24BigEndian(p[4 + 3 * j..7 + 3 * j]))
  }

  /** The samples of a list of packets, in order; a packet of the wrong length has none. */
  function Decoded(packets: seq<Packet>): seq<int> {
    if packets == [] then []
    else
      var last := packets[|packets| - 1];
      Decoded(packets[..|packets| - 1]) + if |last| == PACKET_LENGTH then Samples(last) else []
  }

  lemma {:induction false} EncodedAt(xs: seq<real>, j: nat)
    requires j < |xs|
    ensures Encoded(xs)[3 * j..3 * j + 3] == Be24(Int24Clamp(xs[j]))
  {
    var n := |xs| - 1;
    if j < n {
      EncodedAt(xs[..n], j);
      assert Encoded(xs)[3 * j..3 * j + 3] == Encoded(xs[..n])[3 * j..3 * j + 3];
    }
  }

  /** A packet carries its sequence number and exactly its 240 pairs. */
  lemma PacketRoundTrip(seqNo: nat, xs: seq<real>)
    requires |xs| == SCRATCH && seqNo < TWO_32
    ensures SequenceOf(PacketOf(seqNo, xs)) == seqNo
    ensures Samples(PacketOf(seqNo, xs)) == Quantised(xs)
  {
    var p := PacketOf(seqNo, xs);
    assert p[..4] == Be32(seqNo);
    Be32RoundTrip(seqNo);
    forall j | 0 <= j < SCRATCH ensures Samples(p)[j] == Quantised(xs)[j] {
      EncodedAt(xs, j);
      assert p[4 + 3 * j..7 + 3 * j] == Encoded(xs)[3 * j..3 * j + 3];
      Int24ClampMeaning(xs[j], xs[j]);
      Int24RoundTrip(Int24Clamp(xs[j]), [0, 0, 0]);
    }
  }

  /** The floats of the `k`-th packet of a stream. */
  function Slice(input: seq<real>, k: nat): (xs: seq<real>)
    requires SCRATCH * (k + 1) <= |input|
    ensures |xs| == SCRATCH
  {
    input[SCRATCH * k..SCRATCH * k + SCRATCH]
  }

  function SeqAt(firstSeq: nat, k: nat): (n: nat)
    ensures n < TWO_32
  {
    (firstSeq + k) % TWO_32
  }

  /** What has been queued after `input` arrived: one packet for every 240 pairs. */
  ghost predicate Carries(packets: seq<Packet>, firstSeq: nat, input: seq<real>) {
    packets == []
    || (var n := |packets| - 1;
        && Carries(packets[..n], firstSeq, input)
        && SCRATCH * (n + 1) <= |input|
        && packets[n] == PacketOf(SeqAt(firstSeq, n), Slice(input, n)))
  }

  lemma {:induction false} CarriesAt(packets: seq<Packet>, firstSeq: nat, input: seq<real>, k: nat)
    requires Carries(packets, firstSeq, input) && k < |packets|
    ensures SCRATCH * (k + 1) <= |input| && packets[k] == PacketOf(SeqAt(firstSeq, k), Slice(input, k))
    decreases |packets|
  {
    if k < |packets| - 1 {
      CarriesAt(packets[..|packets| - 1], firstSeq, input, k);
    }
  }

  lemma {:induction false} DecodedIsPrefix(packets: seq<Packet>, firstSeq: nat, input: seq<real>)
    requires Carries(packets, firstSeq, input)
    ensures SCRATCH * |packets| <= |input|
    ensures Decoded(packets) == Quantised(input[..SCRATCH * |packets|])
    decreases |packets|
  {
    if packets != [] {
      var n := |packets| - 1;
      DecodedIsPrefix(packets[..n], firstSeq, input);
      PacketRoundTrip(SeqAt(firstSeq, n), Slice(input, n));
      QuantisedConcat(input[..SCRATCH * n], Slice(input, n));
      assert input[..SCRATCH * n] + Slice(input, n) == input[..SCRATCH * |packets|];
    }
  }

  /** Decoding the queue and appending the scratch gives the quantised input: nothing
      is lost, repeated or reordered; and the sequence numbers are consecutive. */
  lemma StreamPreserved(packets: seq<Packet>, firstSeq: nat, input: seq<real>, scratch: seq<real>)
    requires Carries(packets, firstSeq, input)
    requires SCRATCH * |packets| <= |input| && scratch == input[SCRATCH * |packets|..]
    ensures Decoded(packets) + Quantised(scratch) == Quantised(input)
    ensures forall k :: 0 <= k < |packets| ==>
              |packets[k]| == 1444 && SequenceOf(packets[k]) == (firstSeq + k) % TWO_32
  {
    DecodedIsPrefix(packets, firstSeq, input);
    QuantisedConcat(input[..SCRATCH * |packets|], scratch);
    assert input == input[..SCRATCH * |packets|] + scratch;
    forall k | 0 <= k < |packets|
      ensures |packets[k]| == PACKET_LENGTH && SequenceOf(packets[k]) == (firstSeq + k) % TWO_32
    {
      CarriesAt(packets, firstSeq, input, k);
      PacketRoundTrip(SeqAt(firstSeq, k), Slice(input, k));
    }
  }

  /** A decoded value is within half a step of the input it carries; what exceeds full scale
      is held there. */
  ghost predicate Carried(x: real, decoded: int) {
    && (-1.0 <= x <= 1.0 ==> Nearest(x * 8388607.0, decoded))
    && (x >= 1.0 ==> decoded == 8388607)
    && (x <= -1.0 ==> decoded == -8388607)
  }

  /** All of the input but the last `waiting` values. */
  ghost predicate CarriedUpTo(input: seq<real>, decoded: seq<int>, waiting: nat) {
    |decoded| + waiting == |input| && forall j :: 0 <= j < |decoded| ==> Carried(input[j], decoded[j])
  }

  /** So the queue carries every input value of its packets, in order. */
  lemma StreamCarried(packets: seq<Packet>, firstSeq: nat, input: seq<real>)
    requires Carries(packets, firstSeq, input)
    ensures |Decoded(packets)| == 480 * |packets| <= |input|
    ensures forall j :: 0 <= j < |Decoded(packets)| ==> Carried(input[j], Decoded(packets)[j])
  {
    DecodedIsPrefix(packets, firstSeq, input);
    forall j | 0 <= j < |Decoded(packets)| ensures Carried(input[j], Decoded(packets)[j]) {
      Int24ClampNearest(input[j]);
    }
  }

  /** More input leaves the queued packets as they are. */
  lemma {:induction false} CarriesMore(packets: seq<Packet>, firstSeq: nat, input: seq<real>, piece: seq<real>)
    requires Carries(packets, firstSeq, input)
    ensures Carries(packets, firstSeq, input + piece)
    decreases |packets|
  {
    if packets != [] {
      var n := |packets| - 1;
      CarriesMore(packets[..n], firstSeq, input, piece);
      assert Slice(input + piece, n) == Slice(input, n);
    }
  }

  lemma CarriesOneMore(packets: seq<Packet>, firstSeq: nat, input: seq<real>, p: Packet)
    requires Carries(packets, firstSeq, input) && SCRATCH * (|packets| + 1) <= |input|
    requires p == PacketOf(SeqAt(firstSeq, |packets|), Slice(input, |packets|))
    ensures Carries(packets + [p], firstSeq, input)
  {
    assert (packets + [p])[..|packets|] == packets;
  }

  lemma NextSeq(firstSeq: nat, k: nat)
    ensures (SeqAt(firstSeq, k) + 1) % TWO_32 == SeqAt(firstSeq, k + 1)
  {
  }

  lemma QuantisedConcat(a: seq<real>, b: seq<real>)
    ensures Quantised(a + b) == Quantised(a) + Quantised(b)
  {
  }

  datatype SendError = OddLength

  class TxIqStream {
    const scratch: array<real>
    var scratchCount: nat
    var seqCmdTxIq: nat
    // Every packet enqueued since the last reset, sent or not.
    var queue: seq<Packet>
    // The floats accepted since the last reset, and the first sequence number after it.
    ghost var input: seq<real>
    ghost var firstSeq: nat

    /** The scratch is never left full, and holds the input's incomplete tail. */
    ghost predicate Valid()
      reads this, scratch
    {
      && scratch.Length == SCRATCH
      && scratchCount < SCRATCH
      && |input| == SCRATCH * |queue| + scratchCount
      && scratch[..scratchCount] == input[SCRATCH * |queue|..]
      && Carries(queue, firstSeq, input)
      && seqCmdTxIq == SeqAt(firstSeq, |queue|)
    }

    /** At any moment the packets and the scratch together are the quantised input. */
    lemma StreamSoFar()
      requires Valid()
      ensures Decoded(queue) + Quantised(scratch[..scratchCount]) == Quantised(input)
      ensures forall k :: 0 <= k < |queue| ==>
                |queue[k]| == PACKET_LENGTH && SequenceOf(queue[k]) == (firstSeq + k) % TWO_32
    {
      var packets, all, waiting := queue, input, scratch[..scratchCount];
      StreamPreserved(packets, firstSeq, all, waiting);
    }

    /** Every complete packet's input has been queued as its nearest 24-bit values. */
    lemma QueueCarriesInput()
      requires Valid()
      ensures CarriedUpTo(input, Decoded(queue), scratchCount)
    {
      StreamCarried(queue, firstSeq, input);
    }

    constructor ()
      ensures Valid() && input == [] && firstSeq == 0
    {
      scratch := new real[SCRATCH];
      scratchCount, seqCmdTxIq, queue := 0, 0, [];
      input, firstSeq := [], 0;
    }

    /** Buffers a block; ignored while not connected, refused when of odd length. */
    method SendTxIq(running: bool, iq: seq<real>) returns (error: Option<SendError>)
      requires Valid()
      modifies this, scratch
      ensures Valid() && firstSeq == old(firstSeq)
      ensures error == if running && |iq| % 2 != 0 then Some(OddLength) else None
      ensures input == if running && |iq| % 2 == 0 then old(input) + iq else old(input)
      ensures CarriedUpTo(input, Decoded(queue), scratchCount)
    {
      if !running {
        QueueCarriesInput();
        return None;
      }
      if |iq| % 2 != 0 {
        QueueCarriesInput();
        return Some(OddLength);
      }
      var idx := 0;
      while idx < |iq|
        invariant idx <= |iq|
        invariant Valid() && firstSeq == old(firstSeq)
        invariant input == old(input) + iq[..idx]
      {
        var capacity := scratch.Length - scratchCount;
        var copyLen := Min(capacity, |iq| - idx);
        GrowsBy(old(input), iq, idx, idx + copyLen);
        Append(iq[idx..idx + copyLen]);
        idx := idx + copyLen;
      }
      assert iq[..|iq|] == iq;
      QueueCarriesInput();
      error := None;
    }

    /** Copies a piece that fits behind the buffered floats and flushes when full. */
    method Append(piece: seq<real>)
      requires Valid() && 0 < |piece| <= SCRATCH - scratchCount
      modifies this, scratch
      ensures Valid() && firstSeq == old(firstSeq)
      ensures input == old(input) + piece
    {
      ghost var all, packets, from := input, queue, SCRATCH * |queue|;
      CopyIn(piece);
      TailGrows(all, piece, from);
      input := all + piece;
      CarriesMore(packets, firstSeq, all, piece);
      if scratchCount >= scratch.Length {
        FlushTxIq();
      }
    }

    method CopyIn(piece: seq<real>)
      requires scratch.Length == SCRATCH && scratchCount + |piece| <= SCRATCH
      modifies this`scratchCount, scratch
      ensures scratchCount == old(scratchCount) + |piece|
      ensures scratch[..scratchCount] == old(scratch[..scratchCount]) + piece
    {
      forall i | 0 <= i < |piece| {
        scratch[scratchCount + i] := piece[i];
      }
      scratchCount := scratchCount + |piece|;
    }

    method FlushTxIq()
      requires scratch.Length == SCRATCH == scratchCount
      requires |input| == SCRATCH * |queue| + SCRATCH
      requires scratch[..scratchCount] == input[SCRATCH * |queue|..]
      requires Carries(queue, firstSeq, input)
      requires seqCmdTxIq == SeqAt(firstSeq, |queue|)
      modifies this`scratchCount, this`queue, this`seqCmdTxIq
      ensures Valid()
    {
      assert scratch[..] == scratch[..SCRATCH] == Slice(input, |queue|);
      var p := new byte[PACKET_LENGTH];
      WriteBeU32(p, 0, seqCmdTxIq);
      assert p[..4] == Be32(seqCmdTxIq);
      EncodeScratch(p);
      CarriesOneMore(queue, firstSeq, input, p[..]);
      NextSeq(firstSeq, |queue|);
      seqCmdTxIq := (seqCmdTxIq + 1) % TWO_32;
      queue := queue + [p[..]];
      scratchCount := 0;
    }

    /** Writes the 240 quantised pairs behind the four sequence bytes. */
    method EncodeScratch(p: array<byte>)
      requires scratch.Length == SCRATCH && p.Length == PACKET_LENGTH
      modifies p
      ensures p[..] == old(p[..4]) + Encoded(scratch[..])
    {
      ghost var xs, head := scratch[..], p[..4];
      assert Encoded(xs[..0]) == [];
      for i := 0 to PAIRS_PER_PACKET
        invariant scratch[..] == xs
        invariant p[..4 + 6 * i] == head + Encoded(xs[..2 * i])
      {
        EncodePair(p, i, head, xs);
      }
      assert p[..PACKET_LENGTH] == p[..];
      assert xs[..SCRATCH] == xs;
    }

    method EncodePair(p: array<byte>, i: nat, ghost head: seq<byte>, ghost xs: seq<real>)
      requires i < PAIRS_PER_PACKET && p.Length == PACKET_LENGTH
      requires scratch.Length == SCRATCH && scratch[..] == xs
      requires p[..4 + 6 * i] == head + Encoded(xs[..2 * i])
      modifies p
      ensures p[..4 + 6 * (i + 1)] == head + Encoded(xs[..2 * (i + 1)])
    {
      var vi, vq := Int24Clamp(scratch[i * 2]), Int24Clamp(scratch[i * 2 + 1]);
      EncodedPair(xs, i);
      JoinedPair(head, Encoded(xs[..2 * i]), Be24(vi), Be24(vq));
      WritePair(p, 4 + i * 6, vi, vq);
    }

    /** Drops the buffered floats and every queued packet; numbering goes on. */
    method ResetTxIq()
      requires Valid()
      modifies this
      ensures Valid() && input == [] && queue == []
      ensures firstSeq == seqCmdTxIq == old(seqCmdTxIq)
    {
      scratchCount := 0;
      queue := [];
      input := [];
      firstSeq := seqCmdTxIq;
    }
  }

  method WriteBeU32(p: array<byte>, offset: nat, value: nat)
    requires offset + 4 <= p.Length
    modifies p
    ensures p[..] == old(p[..offset]) + Be32(value) + old(p[offset + 4..])
  {
    p[offset], p[offset + 1] := value / 0x100_0000 % 256, value / 0x1_0000 % 256;
    p[offset + 2], p[offset + 3] := value / 256 % 256, value % 256;
  }

  method WritePair(p: array<byte>, off: nat, vi: int, vq: int)
    requires off + 6 <= p.Length
    modifies p
    ensures p[..off + 6] == old(p[..off]) + Be24(vi) + Be24(vq)
  {
    p[off + 0], p[off + 1], p[off + 2] := vi / 0x1_0000 % 256, vi / 256 % 256, vi % 256;
    p[off + 3], p[off + 4], p[off + 5] := vq / 0x1_0000 % 256, vq / 256 % 256, vq % 256;
  }

  lemma JoinedPair<T>(head: seq<T>, done: seq<T>, a: seq<T>, b: seq<T>)
    ensures (head + done) + a + b == head + (done + a + b)
  {
  }

  lemma GrowsBy<T>(base: seq<T>, s: seq<T>, i: nat, j: nat)
    requires i <= j <= |s|
    ensures base + s[..j] == base + s[..i] + s[i..j]
  {
  }

  lemma TailGrows<T>(s: seq<T>, piece: seq<T>, from: nat)
    requires from <= |s|
    ensures (s + piece)[from..] == s[from..] + piece
  {
  }

  lemma EncodedPair(xs: seq<real>, i: nat)
    requires 2 * i + 2 <= |xs|
    ensures Encoded(xs[..2 * i + 2]) ==
            Encoded(xs[..2 * i]) + Be24(Int24Clamp(xs[2 * i])) + Be24(Int24Clamp(xs[2 * i + 1]))
  {
    assert xs[..2 * i + 2][..2 * i + 1] == xs[..2 * i + 1];
    assert xs[..2 * i + 1][..2 * i] == xs[..2 * i];
  }
}
