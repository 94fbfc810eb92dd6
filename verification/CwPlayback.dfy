/** Rendering Morse timing symbols as transmit IQ, in one pass and in chunks. The
    trigonometry and the final cast to float are left uninterpreted. */
module CwPlayback {
  import opened Seqs

  const SAMPLES_PER_MS: nat := 48
  const RAMP_MS: nat := 5
  const CHUNK_SAMPLES: nat := 480

  datatype Symbol = Symbol(keyDown: bool, durationMs: nat)

  /** `rise(sample, ramp)` is the raised cosine 0.5 (1 - cos(pi sample / ramp));
      `inPhase(env, phase)` and `quadrature(env, phase)` are env cos(phase) and
      env sin(phase) as floats; `step` is the phase added per sample, `turn` a full
      turn. */
  datatype Tone = Tone(rise: (nat, nat) -> real, inPhase: (real, real) -> real, quadrature: (real, real) -> real,
                       turn: real, step: real)

  function TotalSamples(s: Symbol): nat {
    s.durationMs * SAMPLES_PER_MS
  }

  function RampSamples(s: Symbol): nat {
    Min(RAMP_MS * SAMPLES_PER_MS, TotalSamples(s) / 2)
  }

  /** 0 to 1 over the ramp, 1 in between, and the mirrored curve at the end. */
  function RaisedCosineEnvelope(t: Tone, sample: nat, total: nat, ramp: nat): real
    requires sample < total && ramp <= total / 2
  {
    if ramp <= sample < total - ramp then 1.0
    else if sample < ramp then t.rise(sample, ramp)
    else t.rise(ramp - (sample - (total - ramp)), ramp)
  }

  /** A ramp is only consulted when it has at least one sample, so its length never
      divides by zero. */
  lemma RampNotEmpty(sample: nat, total: nat, ramp: nat)
    requires sample < total && ramp == Min(RAMP_MS * SAMPLES_PER_MS, total / 2)
    ensures !(ramp <= sample < total - ramp) ==> ramp > 0
  {
  }

  function Advance(t: Tone, phase: real): real {
    var next := phase + t.step;
    if next > t.turn then next - t.turn else next
  }

  /** The phase of the `n`-th sample of a job. */
  function Phase(t: Tone, n: nat): real {
    if n == 0 then 0.0 else Advance(t, Phase(t, n - 1))
  }

  /** Sample `i` of a symbol at a given phase. */
  function Pair(t: Tone, s: Symbol, i: nat, phase: real): (p: seq<real>)
    requires i < TotalSamples(s)
    ensures |p| == 2
  {
    var env := if s.keyDown then RaisedCosineEnvelope(t, i, TotalSamples(s), RampSamples(s)) else 0.0;
    [t.inPhase(env, phase), t.quadrature(env, phase)]
  }

  /** The first `n` samples of a symbol whose first sample is the job's `start`-th. */
  function SymbolIq(t: Tone, s: Symbol, start: nat, n: nat): (iq: seq<real>)
    requires n <= TotalSamples(s)
    ensures |iq| == 2 * n
  {
    if n == 0 then [] else SymbolIq(t, s, start, n - 1) + Pair(t, s, n - 1, Phase(t, start + n - 1))
  }

  function SamplesIn(symbols: seq<Symbol>): nat {
    if symbols == [] then 0
    else SamplesIn(symbols[..|symbols| - 1]) + TotalSamples(symbols[|symbols| - 1])
  }

  /** The whole stream: every sample's phase depends only on its place in the job. */
  function Rendered(t: Tone, symbols: seq<Symbol>): (iq: seq<real>)
    ensures |iq| == 2 * SamplesIn(symbols)
  {
    if symbols == [] then []
    else
      var before, s := symbols[..|symbols| - 1], symbols[|symbols| - 1];
      Rendered(t, before) + SymbolIq(t, s, SamplesIn(before), TotalSamples(s))
  }

  /** The stream up to sample `n` of symbol `k`. */
  function RenderedTo(t: Tone, symbols: seq<Symbol>, k: nat, n: nat): (iq: seq<real>)
    requires k < |symbols| && n <= TotalSamples(symbols[k])
    ensures |iq| == 2 * (SamplesIn(symbols[..k]) + n)
  {
    Rendered(t, symbols[..k]) + SymbolIq(t, symbols[k], SamplesIn(symbols[..k]), n)
  }

  lemma RenderedStep(t: Tone, symbols: seq<Symbol>, k: nat)
    requires k < |symbols|
    ensures RenderedTo(t, symbols, k, 0) == Rendered(t, symbols[..k])
    ensures RenderedTo(t, symbols, k, TotalSamples(symbols[k])) == Rendered(t, symbols[..k + 1])
    ensures SamplesIn(symbols[..k + 1]) == SamplesIn(symbols[..k]) + TotalSamples(symbols[k])
  {
    assert symbols[..k + 1][..k] == symbols[..k];
  }

  lemma {:induction false} SymbolPrefix(t: Tone, s: Symbol, start: nat, n: nat, m: nat)
    requires n <= m <= TotalSamples(s)
    ensures SymbolIq(t, s, start, n) <= SymbolIq(t, s, start, m)
    decreases m
  {
    if n < m {
      SymbolPrefix(t, s, start, n, m - 1);
    }
  }

  lemma {:induction false} RenderedPrefix(t: Tone, symbols: seq<Symbol>, k: nat)
    requires k <= |symbols|
    ensures Rendered(t, symbols[..k]) <= Rendered(t, symbols)
    decreases |symbols| - k
  {
    if k < |symbols| {
      RenderedPrefix(t, symbols, k + 1);
      assert symbols[..k + 1][..k] == symbols[..k];
    } else {
      assert symbols[..k] == symbols;
    }
  }

  /** Everything written so far is the beginning of the full stream. */
  lemma RenderedToPrefix(t: Tone, symbols: seq<Symbol>, k: nat, n: nat)
    requires k < |symbols| && n <= TotalSamples(symbols[k])
    ensures RenderedTo(t, symbols, k, n) <= Rendered(t, symbols)
  {
    SymbolPrefix(t, symbols[k], SamplesIn(symbols[..k]), n, TotalSamples(symbols[k]));
    RenderedStep(t, symbols, k);
    RenderedPrefix(t, symbols, k + 1);
  }

  /** 48 pairs for every millisecond. */
  lemma {:induction false} SamplesPerMillisecond(symbols: seq<Symbol>)
    ensures SamplesIn(symbols) == SAMPLES_PER_MS * DurationMs(symbols)
  {
    if symbols != [] {
      SamplesPerMillisecond(symbols[..|symbols| - 1]);
    }
  }

  function DurationMs(symbols: seq<Symbol>): nat {
    if symbols == [] then 0
    else DurationMs(symbols[..|symbols| - 1]) + symbols[|symbols| - 1].durationMs
  }

  /** Where a sample stands in the stream, and with which phase: the carrier runs on
      through the gaps between elements. */
  lemma SampleAt(t: Tone, symbols: seq<Symbol>, k: nat, i: nat)
    requires k < |symbols| && i < TotalSamples(symbols[k])
    ensures var g := SamplesIn(symbols[..k]) + i;
            && 2 * g + 2 <= |Rendered(t, symbols)|
            && Rendered(t, symbols)[2 * g..2 * g + 2] == Pair(t, symbols[k], i, Phase(t, g))
  {
    var start := SamplesIn(symbols[..k]);
    RenderedToPrefix(t, symbols, k, i + 1);
    var upTo := RenderedTo(t, symbols, k, i + 1);
    assert upTo == RenderedTo(t, symbols, k, i) + Pair(t, symbols[k], i, Phase(t, start + i));
    assert Rendered(t, symbols)[..|upTo|] == upTo;
    assert Rendered(t, symbols)[..|upTo|][|upTo| - 2..] == Rendered(t, symbols)[|upTo| - 2..|upTo|];
  }

  /** Place `g` of the stream sounds with this envelope. */
  ghost predicate Sounds(t: Tone, iq: seq<real>, g: nat, env: real) {
    && 2 * g + 2 <= |iq|
    && iq[2 * g] == t.inPhase(env, Phase(t, g))
    && iq[2 * g + 1] == t.quadrature(env, Phase(t, g))
  }

  /** Keying: a symbol of `ms` milliseconds lasts 48 samples for each. With the key up
      the envelope is zero throughout. With the key down it is one except over the first
      and the last five milliseconds, or the two halves of a shorter symbol: it rises
      over the first and falls by the mirrored curve over the last. */
  ghost predicate KeyedAt(t: Tone, symbols: seq<Symbol>, iq: seq<real>, k: nat, i: nat)
    requires k < |symbols| && i < 48 * symbols[k].durationMs
  {
    var ms, g := symbols[k].durationMs, 48 * DurationMs(symbols[..k]) + i;
    var edge := if ms < 10 then 24 * ms else 240;
    && (!symbols[k].keyDown ==> Sounds(t, iq, g, 0.0))
    && (symbols[k].keyDown && edge <= i < 48 * ms - edge ==> Sounds(t, iq, g, 1.0))
    && (symbols[k].keyDown && i < edge ==> Sounds(t, iq, g, t.rise(i, edge)))
    && (symbols[k].keyDown && i >= 48 * ms - edge ==> Sounds(t, iq, g, t.rise(48 * ms - i, edge)))
  }

  /** The stream keys every sample of every symbol, and has no others. */
  ghost predicate Keyed(t: Tone, symbols: seq<Symbol>, iq: seq<real>) {
    && |iq| == 2 * 48 * DurationMs(symbols)
    && forall k: nat, i: nat :: k < |symbols| && i < 48 * symbols[k].durationMs ==> KeyedAt(t, symbols, iq, k, i)
  }

  lemma RenderedKeyed(t: Tone, symbols: seq<Symbol>)
    ensures Keyed(t, symbols, Rendered(t, symbols))
  {
    SamplesPerMillisecond(symbols);
    forall k: nat, i: nat | k < |symbols| && i < 48 * symbols[k].durationMs
      ensures KeyedAt(t, symbols, Rendered(t, symbols), k, i)
    {
      KeyingMeaning(t, symbols, k, i);
    }
  }

  lemma KeyingMeaning(t: Tone, symbols: seq<Symbol>, k: nat, i: nat)
    requires k < |symbols| && i < 48 * symbols[k].durationMs
    ensures KeyedAt(t, symbols, Rendered(t, symbols), k, i)
  {
    SamplesPerMillisecond(symbols[..k]);
    SampleSounds(t, symbols, k, i);
  }

  lemma SampleSounds(t: Tone, symbols: seq<Symbol>, k: nat, i: nat)
    requires k < |symbols| && i < TotalSamples(symbols[k])
    ensures var s := symbols[k];
            Sounds(t, Rendered(t, symbols), SamplesIn(symbols[..k]) + i,
                   if s.keyDown then RaisedCosineEnvelope(t, i, TotalSamples(s), RampSamples(s)) else 0.0)
  {
    var g, iq := SamplesIn(symbols[..k]) + i, Rendered(t, symbols);
    SampleAt(t, symbols, k, i);
    assert iq[2 * g] == iq[2 * g..2 * g + 2][0] && iq[2 * g + 1] == iq[2 * g..2 * g + 2][1];
  }

  lemma OneMore(n: nat, x: real)
    ensures (n + 1) as real * x == n as real * x + x
  {
  }

  /** The phase of a sample is its place times the step, up to whole turns. */
  lemma {:induction false} PhaseMeaning(t: Tone, n: nat) returns (turns: nat)
    ensures turns <= n && Phase(t, n) == n as real * t.step - turns as real * t.turn
  {
    if n == 0 {
      turns := 0;
    } else {
      turns := PhaseMeaning(t, n - 1);
      OneMore(n - 1, t.step);
      if Phase(t, n - 1) + t.step > t.turn {
        OneMore(turns, t.turn);
        turns := turns + 1;
      }
    }
  }

  /** The one-pass render. */
  method RenderForTest(t: Tone, symbols: seq<Symbol>) returns (buf: seq<real>)
    ensures buf == Rendered(t, symbols) && Keyed(t, symbols, buf)
  {
    RenderedKeyed(t, symbols);
    var phase := 0.0;
    buf := [];
    for k := 0 to |symbols|
      invariant buf == Rendered(t, symbols[..k])
      invariant phase == Phase(t, SamplesIn(symbols[..k]))
    {
      RenderedStep(t, symbols, k);
      var iq;
      iq, phase := RenderSymbol(t, symbols[k], SamplesIn(symbols[..k]), phase);
      buf := buf + iq;
    }
    assert symbols[..|symbols|] == symbols;
  }

  method RenderSymbol(t: Tone, sym: Symbol, ghost start: nat, phaseIn: real) returns (buf: seq<real>, phase: real)
    requires phaseIn == Phase(t, start)
    ensures buf == SymbolIq(t, sym, start, TotalSamples(sym))
    ensures phase == Phase(t, start + TotalSamples(sym))
  {
    var total := sym.durationMs * SAMPLES_PER_MS;
    buf, phase := [], phaseIn;
    for i := 0 to total
      invariant buf == SymbolIq(t, sym, start, i)
      invariant phase == Phase(t, start + i)
    {
      buf := buf + Pair(t, sym, i, phase);
      phase := Advance(t, phase);
    }
  }

  datatype Outcome = Refused | Finished | Aborted

  /** Ring writes of one to 480 whole pairs. */
  ghost predicate Chunks(blocks: seq<seq<real>>) {
    blocks == [] || (Chunks(blocks[..|blocks| - 1]) && ChunkOk(blocks[|blocks| - 1]))
  }

  predicate ChunkOk(b: seq<real>) {
    0 < |b| <= 2 * 480 && |b| % 2 == 0
  }

  lemma AddChunk(blocks: seq<seq<real>>, block: seq<real>)
    requires Chunks(blocks) && ChunkOk(block)
    ensures Chunks(blocks + [block])
    ensures Flatten(blocks + [block]) == Flatten(blocks) + block
  {
    assert (blocks + [block])[..|blocks|] == blocks;
    FlattenSnoc(blocks, block);
  }

  /** A chunk written after `before + done` makes it `before + (done + block)`. */
  lemma AddBlock(before: seq<real>, done: seq<real>, blocks: seq<seq<real>>, block: seq<real>)
    requires Chunks(blocks) && ChunkOk(block) && Flatten(blocks) == before + done
    ensures Chunks(blocks + [block])
    ensures Flatten(blocks + [block]) == before + (done + block)
  {
    AddChunk(blocks, block);
  }

  /** The cancellation token, once cancelled, stays so; `from` is the first look that
      finds it cancelled. */
  predicate Cancelled(from: Option<nat>, look: nat) {
    from.Some? && from.value <= look
  }

  /** The chunks of a symbol: ten milliseconds each, the last one shorter. */
  function ChunksOf(s: Symbol): nat {
    (s.durationMs + 9) / 10
  }

  function ChunksIn(symbols: seq<Symbol>): nat {
    if symbols == [] then 0 else ChunksIn(symbols[..|symbols| - 1]) + ChunksOf(symbols[|symbols| - 1])
  }

  /** How often an undisturbed job looks at the token: before each symbol, before and after
      each chunk, and once at the end. */
  function Looks(symbols: seq<Symbol>): nat {
    |symbols| + 2 * ChunksIn(symbols) + 1
  }

  /** So many chunks have brought a symbol this far. */
  predicate Cut(total: nat, chunks: nat, written: nat) {
    written == Min(480 * chunks, total) && (chunks > 0 ==> 480 * (chunks - 1) < total)
  }

  lemma NextCut(total: nat, chunks: nat, written: nat)
    requires Cut(total, chunks, written) && written < total
    ensures Cut(total, chunks + 1, written + Min(480, total - written))
  {
  }

  lemma ChunkCount(s: Symbol, chunks: nat)
    requires Cut(TotalSamples(s), chunks, TotalSamples(s))
    ensures chunks == ChunksOf(s)
  {
  }

  lemma ChunksStep(symbols: seq<Symbol>, k: nat)
    requires k < |symbols|
    ensures ChunksIn(symbols[..k + 1]) == ChunksIn(symbols[..k]) + ChunksOf(symbols[k])
  {
    assert symbols[..k + 1][..k] == symbols[..k];
  }

  lemma {:induction false} ChunksGrow(symbols: seq<Symbol>, k: nat)
    requires k <= |symbols|
    ensures ChunksIn(symbols[..k]) <= ChunksIn(symbols)
    decreases |symbols| - k
  {
    if k < |symbols| {
      ChunksStep(symbols, k);
      ChunksGrow(symbols, k + 1);
    } else {
      assert symbols[..k] == symbols;
    }
  }

  /** Plays a job in chunks; `blocks` are the writes to the transmit ring. A job is aborted
      exactly when the token is cancelled by its last look, and writes no chunk after the
      look that finds it so. */
  method PlayJob(t: Tone, symbols: seq<Symbol>, moxGranted: bool, cancelFrom: Option<nat>)
    returns (outcome: Outcome, blocks: seq<seq<real>>)
    ensures outcome == Refused <==> !moxGranted
    ensures outcome == Refused ==> blocks == []
    ensures Flatten(blocks) <= Rendered(t, symbols)
    ensures outcome == Finished ==>
              && Flatten(blocks) == Rendered(t, symbols)
              && Keyed(t, symbols, Flatten(blocks))
    ensures outcome == Aborted <==> moxGranted && cancelFrom.Some? && cancelFrom.value <= Looks(symbols)
    ensures moxGranted && cancelFrom.None? ==> outcome == Finished
    ensures outcome == Finished ==> |blocks| == ChunksIn(symbols)
    ensures cancelFrom.Some? && blocks != [] ==> 2 * |blocks| < cancelFrom.value
    ensures Chunks(blocks)
  {
    blocks := [];
    if !moxGranted {
      return Refused, blocks;
    }
    var phase, polls := 0.0, 0;
    var iq := new real[2 * CHUNK_SAMPLES];
    var aborted;
    for k := 0 to |symbols|
      invariant PlayedTo(t, symbols, k, phase, polls, blocks)
      invariant polls > 0 ==> !Cancelled(cancelFrom, polls)
    {
      aborted, phase, polls, blocks := PlayNext(t, symbols, k, phase, polls, cancelFrom, iq, blocks);
      if aborted {
        return Aborted, blocks;
      }
    }
    assert symbols[..|symbols|] == symbols;
    RenderedKeyed(t, symbols);
    polls := polls + 1;
    outcome := if Cancelled(cancelFrom, polls) then Aborted else Finished;
  }

  /** The first `k` symbols have been played without a cancellation. */
  ghost predicate PlayedTo(t: Tone, symbols: seq<Symbol>, k: nat, phase: real, polls: nat, blocks: seq<seq<real>>) {
    && k <= |symbols| && Chunks(blocks) && Flatten(blocks) == Rendered(t, symbols[..k])
    && phase == Phase(t, SamplesIn(symbols[..k]))
    && |blocks| == ChunksIn(symbols[..k]) && polls == k + 2 * |blocks|
  }

  /** One more symbol of a job, with the look before it. */
  method PlayNext(t: Tone, symbols: seq<Symbol>, k: nat, phaseIn: real, pollsIn: nat,
                  cancelFrom: Option<nat>, iq: array<real>, before: seq<seq<real>>)
    returns (aborted: bool, phase: real, polls: nat, blocks: seq<seq<real>>)
    requires k < |symbols| && iq.Length == 2 * CHUNK_SAMPLES && PlayedTo(t, symbols, k, phaseIn, pollsIn, before)
    requires pollsIn > 0 ==> !Cancelled(cancelFrom, pollsIn)
    modifies iq
    ensures !aborted ==> PlayedTo(t, symbols, k + 1, phase, polls, blocks)
    ensures aborted ==> Flatten(blocks) <= Rendered(t, symbols) && Chunks(blocks) && polls <= Looks(symbols)
    ensures aborted ==> blocks == [] || !Cancelled(cancelFrom, 2 * |blocks|)
    ensures aborted <==> Cancelled(cancelFrom, polls)
  {
    phase, polls, blocks := phaseIn, pollsIn + 1, before;
    ChunksGrow(symbols, k);
    if Cancelled(cancelFrom, polls) {
      RenderedPrefix(t, symbols, k);
      return true, phase, polls, blocks;
    }
    ghost var n;
    aborted, phase, polls, blocks, n := PlaySymbol(t, symbols[k], SamplesIn(symbols[..k]), phase, polls, cancelFrom, iq, blocks);
    if aborted {
      SymbolStopped(t, symbols, k, n, blocks, polls);
    } else {
      SymbolPlayed(t, symbols, k, phase, polls, blocks);
    }
  }

  lemma SymbolPlayed(t: Tone, symbols: seq<Symbol>, k: nat, phase: real, polls: nat, blocks: seq<seq<real>>)
    requires k < |symbols| && phase == Phase(t, SamplesIn(symbols[..k]) + TotalSamples(symbols[k]))
    requires WrittenTo(t, symbols[k], SamplesIn(symbols[..k]), TotalSamples(symbols[k]), Rendered(t, symbols[..k]), blocks)
    requires |blocks| == ChunksIn(symbols[..k]) + ChunksOf(symbols[k]) && polls == k + 1 + 2 * |blocks|
    ensures PlayedTo(t, symbols, k + 1, phase, polls, blocks)
  {
    SymbolWritten(t, symbols, k, TotalSamples(symbols[k]), blocks);
    ChunksStep(symbols, k);
  }

  lemma SymbolStopped(t: Tone, symbols: seq<Symbol>, k: nat, n: nat, blocks: seq<seq<real>>, polls: nat)
    requires k < |symbols|
    requires WrittenTo(t, symbols[k], SamplesIn(symbols[..k]), n, Rendered(t, symbols[..k]), blocks)
    requires polls <= k + 1 + 2 * (ChunksIn(symbols[..k]) + ChunksOf(symbols[k]))
    ensures Flatten(blocks) <= Rendered(t, symbols) && Chunks(blocks) && polls <= Looks(symbols)
  {
    SymbolWritten(t, symbols, k, n, blocks);
    ChunksStep(symbols, k);
    ChunksGrow(symbols, k + 1);
  }

  /** What has been written of one symbol, after what was there before it. */
  ghost predicate WrittenTo(t: Tone, sym: Symbol, start: nat, n: nat, before: seq<real>, blocks: seq<seq<real>>) {
    n <= TotalSamples(sym) && Chunks(blocks) && Flatten(blocks) == before + SymbolIq(t, sym, start, n)
  }

  lemma SymbolWritten(t: Tone, symbols: seq<Symbol>, k: nat, n: nat, blocks: seq<seq<real>>)
    requires k < |symbols|
    requires WrittenTo(t, symbols[k], SamplesIn(symbols[..k]), n, Rendered(t, symbols[..k]), blocks)
    ensures Flatten(blocks) <= Rendered(t, symbols) && Chunks(blocks)
    ensures n == TotalSamples(symbols[k]) ==>
              && Flatten(blocks) == Rendered(t, symbols[..k + 1]) <= Rendered(t, symbols)
              && SamplesIn(symbols[..k + 1]) == SamplesIn(symbols[..k]) + n
  {
    RenderedStep(t, symbols, k);
    RenderedToPrefix(t, symbols, k, n);
  }

  /** The chunk loop of one symbol whose first sample is the job's `start`-th; `n` of
      its samples are written. */
  method PlaySymbol(t: Tone, sym: Symbol, ghost start: nat, phaseIn: real, pollsIn: nat,
                    cancelFrom: Option<nat>, iq: array<real>, before: seq<seq<real>>)
    returns (aborted: bool, phase: real, polls: nat, blocks: seq<seq<real>>, ghost n: nat)
    requires iq.Length == 2 * CHUNK_SAMPLES && phaseIn == Phase(t, start) && Chunks(before)
    requires !Cancelled(cancelFrom, pollsIn)
    modifies iq
    ensures WrittenTo(t, sym, start, n, Flatten(before), blocks)
    ensures !aborted ==> n == TotalSamples(sym) && phase == Phase(t, start + n)
    ensures !aborted ==> |blocks| == |before| + ChunksOf(sym) && polls == pollsIn + 2 * ChunksOf(sym)
    ensures aborted ==> |before| <= |blocks| && 2 * (|blocks| - |before|) <= polls - pollsIn <= 2 * ChunksOf(sym)
    ensures aborted <==> Cancelled(cancelFrom, polls)
    ensures aborted ==> pollsIn < polls && !Cancelled(cancelFrom, polls - 1)
  {
    var total := sym.durationMs * SAMPLES_PER_MS;
    var written := 0;
    phase, polls, blocks := phaseIn, pollsIn, before;
    ghost var chunks := 0;
    while written < total
      invariant Cut(total, chunks, written)
      invariant |blocks| == |before| + chunks && polls == pollsIn + 2 * chunks
      invariant !Cancelled(cancelFrom, polls)
      invariant WrittenTo(t, sym, start, written, Flatten(before), blocks)
      invariant phase == Phase(t, start + written)
    {
      polls := polls + 1;
      if Cancelled(cancelFrom, polls) {
        return true, phase, polls, blocks, written;
      }
      var count := Min(CHUNK_SAMPLES, total - written);
      phase, blocks := PlayChunk(t, sym, start, written, count, phase, iq, Flatten(before), blocks);
      NextCut(total, chunks, written);
      written := written + count;
      chunks := chunks + 1;
      polls := polls + 1;
      if Cancelled(cancelFrom, polls) {
        return true, phase, polls, blocks, written;
      }
    }
    ChunkCount(sym, chunks);
    aborted, n := false, total;
  }

  method PlayChunk(t: Tone, sym: Symbol, ghost start: nat, written: nat, count: nat, phaseIn: real,
                   iq: array<real>, ghost before: seq<real>, blocksIn: seq<seq<real>>)
    returns (phase: real, blocks: seq<seq<real>>)
    requires written + count <= TotalSamples(sym) && 0 < count <= CHUNK_SAMPLES && iq.Length == 2 * CHUNK_SAMPLES
    requires phaseIn == Phase(t, start + written)
    requires WrittenTo(t, sym, start, written, before, blocksIn)
    modifies iq
    ensures phase == Phase(t, start + written + count) && |blocks| == |blocksIn| + 1
    ensures WrittenTo(t, sym, start, written + count, before, blocks)
  {
    var block;
    phase, block := FillChunk(t, sym, start, written, count, phaseIn, iq);
    AddBlock(before, SymbolIq(t, sym, start, written), blocksIn, block);
    blocks := blocksIn + [block];
  }

  /** The sample loop of one chunk, carrying the phase on; `block` is what the ring
      is given. */
  method FillChunk(t: Tone, sym: Symbol, ghost start: nat, written: nat, count: nat, phaseIn: real, iq: array<real>)
    returns (phase: real, block: seq<real>)
    requires written + count <= TotalSamples(sym) && 0 < count <= CHUNK_SAMPLES && iq.Length == 2 * CHUNK_SAMPLES
    requires phaseIn == Phase(t, start + written)
    modifies iq
    ensures |block| == 2 * count
    ensures phase == Phase(t, start + written + count)
    ensures SymbolIq(t, sym, start, written + count) == SymbolIq(t, sym, start, written) + block
  {
    phase := phaseIn;
    ghost var done := [];
    for i := 0 to count
      invariant phase == Phase(t, start + written + i)
      invariant |done| == 2 * i && iq[..2 * i] == done
      invariant SymbolIq(t, sym, start, written + i) == SymbolIq(t, sym, start, written) + done
    {
      var pair := Pair(t, sym, written + i, phase);
      OneMoreSample(t, sym, start, written, i, done);
      PutPair(iq, i, pair, done);
      done := done + pair;
      phase := Advance(t, phase);
    }
    block := iq[..2 * count];
  }

  lemma OneMoreSample(t: Tone, sym: Symbol, start: nat, written: nat, i: nat, done: seq<real>)
    requires written + i < TotalSamples(sym)
    requires SymbolIq(t, sym, start, written + i) == SymbolIq(t, sym, start, written) + done
    ensures SymbolIq(t, sym, start, written + i + 1)
            == SymbolIq(t, sym, start, written) + (done + Pair(t, sym, written + i, Phase(t, start + written + i)))
  {
  }

  method PutPair(iq: array<real>, i: nat, pair: seq<real>, ghost done: seq<real>)
    requires 2 * i + 2 <= iq.Length && |pair| == 2 && |done| == 2 * i && iq[..2 * i] == done
    modifies iq
    ensures iq[..2 * i + 2] == done + pair
  {
    iq[2 * i] := pair[0];
    iq[2 * i + 1] := pair[1];
  }

  // ---- How far the phase accumulator stays bounded --------------------------

  ghost predicate BoundedBy(t: Tone, bound: real) {
    forall n: nat {:trigger Phase(t, n)} :: -bound <= Phase(t, n) <= bound
  }

  /** The wrap-around keeps the phase bounded exactly when one step is between zero
      and a full turn: it only ever subtracts, so a negative offset drifts without
      end. */
  lemma PhaseBoundedIff(t: Tone)
    requires t.turn > 0.0
    ensures (exists bound :: BoundedBy(t, bound)) <==> 0.0 <= t.step <= t.turn
  {
    if 0.0 <= t.step <= t.turn {
      forall n: nat {:trigger Phase(t, n)} ensures -t.turn <= Phase(t, n) <= t.turn {
        PhaseWithinTurn(t, n);
      }
      assert BoundedBy(t, t.turn);
    } else {
      forall bound ensures !BoundedBy(t, bound) {
        var n := Escapes(t, bound);
      }
    }
  }

  /** Outside that range the phase passes every bound. */
  lemma Escapes(t: Tone, bound: real) returns (n: nat)
    requires t.turn > 0.0 && !(0.0 <= t.step <= t.turn)
    ensures !(-bound <= Phase(t, n) <= bound)
  {
    if t.step < 0.0 {
      n := FarEnough(bound, -t.step);
      PhaseNegative(t, n);
      assert n as real * -t.step == -(n as real * t.step);
    } else {
      n := FarEnough(bound, t.step - t.turn);
      PhaseTooFast(t, n);
    }
  }

  lemma {:induction false} PhaseWithinTurn(t: Tone, n: nat)
    requires t.turn > 0.0 && 0.0 <= t.step <= t.turn
    ensures 0.0 <= Phase(t, n) <= t.turn
  {
    if n > 0 {
      PhaseWithinTurn(t, n - 1);
    }
  }

  /** With a negative step no wrap ever happens. */
  lemma {:induction false} PhaseNegative(t: Tone, n: nat)
    requires t.turn > 0.0 && t.step < 0.0
    ensures Phase(t, n) == n as real * t.step <= 0.0
  {
    if n > 0 {
      PhaseNegative(t, n - 1);
      assert n as real * t.step == (n - 1) as real * t.step + t.step;
    }
  }

  lemma {:induction false} PhaseTooFast(t: Tone, n: nat)
    requires t.turn > 0.0 && t.step > t.turn
    ensures Phase(t, n) >= n as real * (t.step - t.turn)
  {
    if n > 0 {
      PhaseTooFast(t, n - 1);
      var d := t.step - t.turn;
      assert n as real * d == (n - 1) as real * d + d;
    }
  }

  lemma FarEnough(bound: real, drift: real) returns (n: nat)
    requires drift > 0.0
    ensures n as real * drift > bound
  {
    var q := bound / drift;
    n := if q < 0.0 then 0 else q.Floor + 1;
    if q < 0.0 {
      assert bound == q * drift;
      assert bound < 0.0;
    } else {
      assert n as real > q;
      assert n as real * drift > q * drift;
      assert q * drift == bound;
    }
  }
}
