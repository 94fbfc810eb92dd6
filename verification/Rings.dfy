/** The bounded drop-oldest queue that both sample rings implement. */
module DropOldest {
  import opened Seqs

  /** The queue after pushing a block: the newest entries that fit. */
  function Pushed<T>(queue: seq<T>, block: seq<T>, capacity: nat): seq<T> {
    LastN(queue + block, capacity)
  }

  /** How many entries the push discarded. */
  function Discarded<T>(queue: seq<T>, block: seq<T>, capacity: nat): nat {
    |queue| + |block| - |Pushed(queue, block, capacity)|
  }

  /** A push keeps as much as fits: the longest tail of the old queue and the block. */
  lemma PushFills<T>(queue: seq<T>, block: seq<T>, capacity: nat)
    ensures var q := Pushed(queue, block, capacity);
            && |q| == Min(capacity, |queue| + |block|)
            && q == (queue + block)[|queue| + |block| - |q|..]
            && Discarded(queue, block, capacity) + |q| == |queue| + |block|
  {
  }

  /** A block and the same samples cut into two leave the same queue. */
  lemma ChunkingIrrelevant<T>(queue: seq<T>, a: seq<T>, b: seq<T>, capacity: nat)
    ensures Pushed(Pushed(queue, a, capacity), b, capacity) == Pushed(queue, a + b, capacity)
    ensures |queue| <= capacity ==>
              Discarded(queue, a, capacity) + Discarded(Pushed(queue, a, capacity), b, capacity)
              == Discarded(queue, a + b, capacity)
  {
    assert queue + (a + b) == queue + a + b;
  }

  lemma OneByOne<T>(queue: seq<T>, block: seq<T>, i: nat, capacity: nat)
    requires i < |block|
    ensures var q := Pushed(queue, block[..i], capacity);
            && Pushed(q, [block[i]], capacity) == Pushed(queue, block[..i + 1], capacity)
            && (|queue| <= capacity ==>
                  Discarded(queue, block[..i], capacity) + Discarded(q, [block[i]], capacity)
                  == Discarded(queue, block[..i + 1], capacity))
  {
    ChunkingIrrelevant(queue, block[..i], [block[i]], capacity);
    assert block[..i + 1] == block[..i] + [block[i]];
  }

  datatype QueueOp<T> = Push(block: seq<T>) | Pop | Clear

  function Step<T>(queue: seq<T>, op: QueueOp<T>, capacity: nat): seq<T> {
    match op
    case Push(block) => Pushed(queue, block, capacity)
    case Pop => if queue == [] then queue else queue[1..]
    case Clear => []
  }

  function Run<T>(ops: seq<QueueOp<T>>, capacity: nat): seq<T> {
    if ops == [] then [] else Step(Run(ops[..|ops| - 1], capacity), ops[|ops| - 1], capacity)
  }

  function Written<T>(ops: seq<QueueOp<T>>): seq<T> {
    if ops == [] then []
    else
      var op, before := ops[|ops| - 1], Written(ops[..|ops| - 1]);
      if op.Push? then before + op.block else before
  }

  /** After any run the queue is the newest part of everything ever pushed, within
      the capacity: nothing is reordered, repeated or kept past the capacity. */
  lemma {:induction false} QueueIsNewestPart<T>(ops: seq<QueueOp<T>>, capacity: nat)
    ensures NewestPart(Run(ops, capacity), Written(ops), capacity)
  {
    if ops != [] {
      var n := |ops| - 1;
      QueueIsNewestPart(ops[..n], capacity);
      StepKeepsNewestPart(Run(ops[..n], capacity), Written(ops[..n]), ops[n], capacity);
    }
  }

  ghost predicate NewestPart<T>(queue: seq<T>, written: seq<T>, capacity: nat) {
    |queue| <= capacity && |queue| <= |written| && queue == written[|written| - |queue|..]
  }

  lemma StepKeepsNewestPart<T>(queue: seq<T>, written: seq<T>, op: QueueOp<T>, capacity: nat)
    requires NewestPart(queue, written, capacity)
    ensures NewestPart(Step(queue, op, capacity), if op.Push? then written + op.block else written, capacity)
  {
    if op.Push? {
      var all := written + op.block;
      assert queue + op.block == all[|all| - |queue + op.block|..];
    }
  }
}

module Rings {
  import opened Seqs
  import opened DropOldest
  import opened Quantise

  /** An index one lap around at most, brought back into `0..capacity`. */
  function Wrap(i: int, capacity: int): (w: nat)
    requires -capacity <= i < 2 * capacity
    ensures w < capacity
  {
    if i < 0 then i + capacity else if i < capacity then i else i - capacity
  }

  lemma ModIsWrap(i: int, capacity: int)
    requires 0 <= i < 2 * capacity
    ensures i % capacity == Wrap(i, capacity)
  {
    if i >= capacity {
      assert i == capacity + (i - capacity);
    }
  }

  method WrappedNext(i: nat, capacity: nat) returns (next: nat)
    requires i < capacity
    ensures next == Wrap(i + 1, capacity)
  {
    ModIsWrap(i + 1, capacity);
    next := (i + 1) % capacity;
  }

  /** Entry `i` of the queue sits `i` slots after the oldest one, going around. */
  ghost predicate Holds<T>(slots: seq<T>, write: nat, queue: seq<T>)
    requires write < |slots|
  {
    |queue| <= |slots|
    && forall i {:trigger queue[i]} :: 0 <= i < |queue| ==>
         slots[Wrap(write - |queue| + i, |slots|)] == queue[i]
  }

  lemma HoldsPush<T>(slots: seq<T>, write: nat, queue: seq<T>, x: T)
    requires write < |slots| && Holds(slots, write, queue)
    ensures Holds(slots[write := x], Wrap(write + 1, |slots|), Pushed(queue, [x], |slots|))
  {
    var queue', write' := Pushed(queue, [x], |slots|), Wrap(write + 1, |slots|);
    var shift := if |queue| < |slots| then 0 else 1;
    assert queue' == (queue + [x])[shift..];
    forall i {:trigger queue'[i]} | 0 <= i < |queue'|
      ensures slots[write := x][Wrap(write' - |queue'| + i, |slots|)] == queue'[i]
    {
      if i < |queue'| - 1 {
        assert queue'[i] == queue[i + shift];
      }
    }
  }

  lemma HoldsFront<T>(slots: seq<T>, write: nat, queue: seq<T>)
    requires write < |slots| && Holds(slots, write, queue) && queue != []
    ensures slots[Wrap(write - |queue|, |slots|)] == queue[0]
    ensures Holds(slots, write, queue[1..])
  {
    assert Wrap(write - |queue| + 0, |slots|) == Wrap(write - |queue|, |slots|);
    forall i {:trigger queue[1..][i]} | 0 <= i < |queue[1..]|
      ensures slots[Wrap(write - |queue[1..]| + i, |slots|)] == queue[1..][i]
    {
      assert queue[1..][i] == queue[i + 1];
    }
  }

  type Pair = (int, int)

  function Pairs(iq: seq<real>): (p: seq<Pair>)
    requires |iq| % 2 == 0
    ensures |p| == |iq| / 2
  {
    seq(|iq| / 2, k requires 0 <= k < |iq| / 2 => (ToS16(iq[2 * k]), ToS16(iq[2 * k + 1])))
  }

  /** The pairs keep the order of the block, I before Q, each value the nearest 16-bit one. */
  lemma PairsNear(iq: seq<real>, k: nat)
    requires |iq| % 2 == 0 && 2 * k + 1 < |iq| && -1.0 <= iq[2 * k] <= 1.0 && -1.0 <= iq[2 * k + 1] <= 1.0
    ensures Nearest(iq[2 * k] * 32767.0, Pairs(iq)[k].0) && Nearest(iq[2 * k + 1] * 32767.0, Pairs(iq)[k].1)
  {
    S16Nearest(iq[2 * k]);
    S16Nearest(iq[2 * k + 1]);
  }

  /** The transmit ring: separate I and Q arrays, a write index and a count. */
  class TxIqRing {
    const iBuf: array<int>
    const qBuf: array<int>
    const capacity: nat
    var head: nat
    var count: nat
    var totalWritten: nat
    var totalRead: nat
    var dropped: nat
    // Pairs thrown away by Clear.
    ghost var cleared: nat
    ghost var queue: seq<Pair>

    ghost function Slots(): (s: seq<Pair>)
      requires iBuf.Length == qBuf.Length
      reads iBuf, qBuf
      ensures |s| == iBuf.Length
      ensures forall k :: 0 <= k < |s| ==> s[k] == (iBuf[k], qBuf[k])
    {
      seq(iBuf.Length, k requires 0 <= k < iBuf.Length reads iBuf, qBuf => (iBuf[k], qBuf[k]))
    }

    ghost predicate Consistent()
      reads this, iBuf, qBuf
    {
      && iBuf != qBuf
      && 0 < capacity == iBuf.Length == qBuf.Length
      && head < capacity
      && count == |queue|
      && Holds(Slots(), head, queue)
    }

    /** Every pair written was read, overwritten, cleared or is still queued. */
    ghost predicate Valid()
      reads this, iBuf, qBuf
    {
      Consistent() && totalWritten == totalRead + dropped + count + cleared
    }

    constructor (capacityPairs: nat)
      requires capacityPairs > 0
      ensures Valid() && capacity == capacityPairs
      ensures queue == [] && totalWritten == totalRead == dropped == cleared == 0
      ensures fresh(iBuf) && fresh(qBuf)
    {
      capacity := capacityPairs;
      iBuf := new int[capacityPairs];
      qBuf := new int[capacityPairs];
      head, count, totalWritten, totalRead, dropped := 0, 0, 0, 0, 0;
      cleared := 0;
      queue := [];
    }

    /** Pushes a block, overwriting the oldest pairs when full. An odd-length block is
        refused and changes nothing. */
    method Write(iq: seq<real>) returns (ok: bool)
      requires Valid()
      modifies this, iBuf, qBuf
      ensures Valid()
      ensures ok <==> |iq| % 2 == 0
      ensures ok ==>
                && queue == Pushed(old(queue), Pairs(iq), capacity)
                && dropped == old(dropped) + Discarded(old(queue), Pairs(iq), capacity)
                && totalWritten == old(totalWritten) + |iq| / 2
      ensures !ok ==> queue == old(queue) && dropped == old(dropped) && totalWritten == old(totalWritten)
      ensures totalRead == old(totalRead) && cleared == old(cleared)
    {
      if |iq| % 2 != 0 {
        return false;
      }
      WritePairs(iq);
      totalWritten := totalWritten + |iq| / 2;
      ok := true;
    }

    method WritePairs(iq: seq<real>)
      requires Consistent() && |iq| % 2 == 0
      modifies this`head, this`count, this`dropped, this`queue, iBuf, qBuf
      ensures Consistent()
      ensures queue == Pushed(old(queue), Pairs(iq), capacity)
      ensures dropped == old(dropped) + Discarded(old(queue), Pairs(iq), capacity)
    {
      ghost var block := Pairs(iq);
      ghost var n := 0;
      var k := 0;
      while k < |iq|
        invariant k == 2 * n && n <= |block|
        invariant Consistent()
        invariant queue == Pushed(old(queue), block[..n], capacity)
        invariant dropped == old(dropped) + Discarded(old(queue), block[..n], capacity)
      {
        OneByOne(old(queue), block, n, capacity);
        var i, q := ToS16(iq[k]), ToS16(iq[k + 1]);
        assert block[n] == (i, q);
        PushPair(i, q);
        k := k + 2;
        n := n + 1;
      }
      assert block[..|block|] == block;
    }

    method PushPair(i: int, q: int)
      requires Consistent()
      modifies this`head, this`count, this`dropped, this`queue, iBuf, qBuf
      ensures Consistent()
      ensures queue == Pushed(old(queue), [(i, q)], capacity)
      ensures dropped == old(dropped) + Discarded(old(queue), [(i, q)], capacity)
    {
      HoldsPush(Slots(), head, queue, (i, q));
      var next := WrappedNext(head, capacity);
      StorePair(i, q);
      head := next;
      queue := Pushed(queue, [(i, q)], capacity);
      CountPair(|queue|);
    }

    method CountPair(ghost queued: nat)
      requires count <= capacity && queued == if count < capacity then count + 1 else count
      modifies this`count, this`dropped
      ensures count == queued && dropped == old(dropped) + old(count) + 1 - queued
    {
      if count < capacity {
        count := count + 1;
      } else {
        dropped := dropped + 1;
      }
    }

    method StorePair(i: int, q: int)
      requires iBuf != qBuf && head < iBuf.Length == qBuf.Length
      modifies iBuf, qBuf
      ensures Slots() == old(Slots())[head := (i, q)]
    {
      iBuf[head] := i;
      qBuf[head] := q;
    }

    method Clear()
      requires Valid()
      modifies this
      ensures Valid() && queue == [] && cleared == old(cleared) + |old(queue)|
      ensures totalWritten == old(totalWritten) && totalRead == old(totalRead) && dropped == old(dropped)
    {
      cleared := cleared + count;
      queue := [];
      count := 0;
      head := 0;
    }

    /** Pops the oldest pair, scaled; silence when there is none. */
    method Next(amplitude: real) returns (i: int, q: int)
      requires Valid()
      modifies this
      ensures Valid()
      ensures old(queue) == [] ==> i == 0 && q == 0 && queue == [] && totalRead == old(totalRead)
      ensures old(queue) != [] ==>
                && queue == old(queue)[1..]
                && totalRead == old(totalRead) + 1
                && i == Scaled(old(queue)[0].0, amplitude)
                && q == Scaled(old(queue)[0].1, amplitude)
      ensures totalWritten == old(totalWritten) && dropped == old(dropped) && cleared == old(cleared)
    {
      if count == 0 {
        return 0, 0;
      }
      ModIsWrap(head - count + capacity, capacity);
      HoldsFront(Slots(), head, queue);
      var tail := (head - count + capacity) % capacity;
      i := Scaled(iBuf[tail], amplitude);
      q := Scaled(qBuf[tail], amplitude);
      count := count - 1;
      queue := queue[1..];
      totalRead := totalRead + 1;
    }
  }

  function ScaledBy(v: int, a: real): int {
    Truncate(Product(v as real, a))
  }

  function Product(x: real, a: real): real {
    x * a
  }

  /** A sample at the requested amplitude; near full scale it passes unchanged. */
  function Scaled(v: int, amplitude: real): int {
    if amplitude >= 0.999 then v else ScaledBy(v, Clamp(amplitude, 0.0, 1.0))
  }

  /** Scaling never leaves the 16-bit range and never flips the sign. */
  lemma ScaledMeaning(v: int, amplitude: real)
    ensures v >= 0 ==> 0 <= Scaled(v, amplitude) <= v
    ensures v <= 0 ==> v <= Scaled(v, amplitude) <= 0
  {
    ScaledByShrinks(v, Clamp(amplitude, 0.0, 1.0));
  }

  /** The scaled sample is the product, cut to an integer on the side of zero; amplitudes
      from 0.999 up leave it as it is, and zero or less silence it. */
  lemma ScaledNear(v: int, amplitude: real)
    ensures amplitude >= 0.999 ==> Scaled(v, amplitude) == v
    ensures amplitude <= 0.0 ==> Scaled(v, amplitude) == 0
    ensures 0.0 <= amplitude < 0.999 && v >= 0 ==> 0.0 <= v as real * amplitude - Scaled(v, amplitude) as real < 1.0
    ensures 0.0 <= amplitude < 0.999 && v <= 0 ==> -1.0 < v as real * amplitude - Scaled(v, amplitude) as real <= 0.0
  {
    if 0.0 <= amplitude < 0.999 {
      var x := Product(v as real, amplitude);
      SignKept(v as real, amplitude);
      TruncateNear(x);
    } else if amplitude < 0.0 {
      assert Product(v as real, 0.0) == 0.0;
    }
  }

  lemma SignKept(x: real, a: real)
    requires a >= 0.0
    ensures x >= 0.0 ==> Product(x, a) >= 0.0
    ensures x <= 0.0 ==> Product(x, a) <= 0.0
  {
  }

  lemma TruncateNear(x: real)
    ensures x >= 0.0 ==> 0.0 <= x - Truncate(x) as real < 1.0
    ensures x <= 0.0 ==> -1.0 < x - Truncate(x) as real <= 0.0
  {
  }

  lemma ScaledByShrinks(v: int, a: real)
    requires 0.0 <= a <= 1.0
    ensures v >= 0 ==> 0 <= ScaledBy(v, a) <= v
    ensures v <= 0 ==> v <= ScaledBy(v, a) <= 0
  {
    if v >= 0 {
      ScaledDown(v, a);
    }
    if v <= 0 {
      ScaledUp(v, a);
    }
  }

  lemma ScaledDown(v: int, a: real)
    requires 0.0 <= a <= 1.0 && v >= 0
    ensures 0 <= ScaledBy(v, a) <= v
  {
    Shrunk(v as real, a);
    TruncateBounded(Product(v as real, a), v);
  }

  lemma ScaledUp(v: int, a: real)
    requires 0.0 <= a <= 1.0 && v <= 0
    ensures v <= ScaledBy(v, a) <= 0
  {
    Shrunk(-(v as real), a);
    Mirrored(v as real, a);
    TruncateBounded(Product(v as real, a), v);
  }

  lemma Mirrored(x: real, a: real)
    ensures Product(-x, a) == -Product(x, a)
  {
  }

  lemma Shrunk(x: real, a: real)
    requires 0.0 <= x && 0.0 <= a <= 1.0
    ensures 0.0 <= Product(x, a) <= x
  {
    assert x * (1.0 - a) >= 0.0;
    assert x * (1.0 - a) == x - x * a;
  }

  lemma TruncateBounded(x: real, v: int)
    ensures 0.0 <= x <= v as real ==> 0 <= Truncate(x) <= v
    ensures v as real <= x <= 0.0 ==> v <= Truncate(x) <= 0
  {
  }

  function CodecSamples(mono: seq<real>): (s: seq<int>)
    ensures |s| == |mono|
  {
    seq(|mono|, k requires 0 <= k < |mono| => ToCodecS16(mono[k]))
  }

  /** The codec ring: one array with separate read and write indices and a count. */
  class RxCodecAudioRing {
    const buf: array<int>
    var head: nat
    var tail: nat
    var count: nat
    var droppedSamples: nat
    ghost var queue: seq<int>

    /** The read index is where the transmit ring would compute it from its write
        index and count, so both schemes serve the same slot. */
    ghost predicate Valid()
      reads this, buf
    {
      Consistent() && head == (tail - count + buf.Length) % buf.Length
    }

    ghost predicate Consistent()
      reads this, buf
    {
      && 0 < buf.Length
      && head < buf.Length && tail < buf.Length
      && count == |queue|
      && Holds(buf[..], tail, queue)
      && head == Wrap(tail - count, buf.Length)
    }

    constructor (capacitySamples: nat)
      requires capacitySamples > 0
      ensures Valid() && buf.Length == capacitySamples
      ensures queue == [] && droppedSamples == 0 && fresh(buf)
    {
      buf := new int[capacitySamples];
      head, tail, count, droppedSamples := 0, 0, 0, 0;
      queue := [];
      new;
      ModIsWrap(buf.Length, buf.Length);
    }

    method Write(mono: seq<real>)
      requires Valid()
      modifies this, buf
      ensures Valid()
      ensures queue == Pushed(old(queue), CodecSamples(mono), buf.Length)
      ensures droppedSamples == old(droppedSamples) + Discarded(old(queue), CodecSamples(mono), buf.Length)
    {
      ghost var block := CodecSamples(mono);
      if |mono| == 0 {
        assert queue + block == queue;
        return;
      }
      for i := 0 to |mono|
        invariant Consistent()
        invariant queue == Pushed(old(queue), block[..i], buf.Length)
        invariant droppedSamples == old(droppedSamples) + Discarded(old(queue), block[..i], buf.Length)
      {
        OneByOne(old(queue), block, i, buf.Length);
        PushSample(ToCodecS16(mono[i]));
      }
      assert block[..|block|] == block;
      ModIsWrap(tail - count + buf.Length, buf.Length);
    }

    method PushSample(v: int)
      requires Consistent()
      modifies this, buf
      ensures Consistent()
      ensures queue == Pushed(old(queue), [v], buf.Length)
      ensures droppedSamples == old(droppedSamples) + Discarded(old(queue), [v], buf.Length)
    {
      var cap := buf.Length;
      HoldsPush(buf[..], tail, queue, v);
      ghost var slots, at := buf[..], tail;
      buf[tail] := v;
      assert buf[..] == slots[at := v];
      queue := Pushed(queue, [v], cap);
      AdvanceIndices(cap, |queue|);
    }

    /** Moves the write index on, and the read index too when a sample was lost. */
    method AdvanceIndices(cap: nat, ghost queued: nat)
      requires tail < cap && count <= cap && head == Wrap(tail - count, cap)
      requires queued == if count == cap then count else count + 1
      modifies this`head, this`tail, this`count, this`droppedSamples
      ensures tail == Wrap(old(tail) + 1, cap) && count == queued <= cap && head == Wrap(tail - count, cap)
      ensures droppedSamples == old(droppedSamples) + old(count) + 1 - queued
    {
      tail := tail + 1;
      if tail == cap {
        tail := 0;
      }
      if count == cap {
        head := head + 1;
        if head == cap {
          head := 0;
        }
        droppedSamples := droppedSamples + 1;
      } else {
        count := count + 1;
      }
    }

    /** Pops the oldest sample onto both channels; silence when there is none. */
    method Next() returns (left: int, right: int)
      requires Valid()
      modifies this
      ensures Valid()
      ensures left == right == if old(queue) == [] then 0 else old(queue)[0]
      ensures queue == if old(queue) == [] then [] else old(queue)[1..]
      ensures droppedSamples == old(droppedSamples)
    {
      if count == 0 {
        return 0, 0;
      }
      HoldsFront(buf[..], tail, queue);
      var v := buf[head];
      head := head + 1;
      if head == buf.Length {
        head := 0;
      }
      count := count - 1;
      queue := queue[1..];
      ModIsWrap(tail - count + buf.Length, buf.Length);
      return v, v;
    }

    method Clear()
      requires Valid()
      modifies this
      ensures Valid() && queue == [] && droppedSamples == old(droppedSamples)
    {
      head, tail, count := 0, 0, 0;
      queue := [];
      ModIsWrap(buf.Length, buf.Length);
    }
  }
}
