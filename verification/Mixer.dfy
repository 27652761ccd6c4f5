/** The integer mixer. */
module Mixer {
  // One-shot voices and a looping bed, summed into clamped 16-bit stereo.

  import opened Prelude
  import opened Space

  const SAMPLES_PER_TICK: nat := 800
  const PAN_FULL_MM: int := 4000
  const OCCLUDED_GAIN_MILLI: nat := 250
  const I16_MAX: int := 0x7FFF
  const I16_MIN: int := -0x8000

  datatype Voice = Voice(blob: nat, at: nat, gain: nat, pos: Option<Vec3>, occluded: bool)

  datatype Bed = Bed(blob: nat, gain: nat)

  /** Decoded grains by blob; a blob whose header does not validate has none. */
  datatype Sonic = Sonic(voices: seq<Voice>, bed: Option<Bed>, grains: map<nat, seq<int>>, eyeX: int)

  type U32 = n: nat | n <= U32_MAX

  datatype Limits = Limits(maxVoices: nat, maxGrainFrames: U32)

  datatype Side = Left | Right

  /** Rust division truncates toward zero. */
  function TruncDiv(a: int, b: int): int
    requires b > 0
  {
    if a >= 0 then a / b else -((-a) / b)
  }

  function SatI16(v: int): int { Max(I16_MIN, Min(v, I16_MAX)) }

  /** `pan_milli`. */
  function PanMilli(s: Sonic, pos: Option<Vec3>, side: Side): (m: int)
    ensures 0 <= m <= 1000
  {
    if pos.None? then 1000
    else
      var dx := ClampI32(pos.value.x - s.eyeX);
      var pan := if dx <= -PAN_FULL_MM then -1000 else if dx >= PAN_FULL_MM then 1000
                 else TruncDiv(dx * 1000, PAN_FULL_MM);
      if side.Left? then 1000 - Max(pan, 0) else 1000 + Min(pan, 0)
  }

  /** `voice_gain_milli`. */
  function VoiceGain(v: Voice): nat {
    if v.occluded then v.gain * OCCLUDED_GAIN_MILLI / 1000 else v.gain
  }

  /** What one sample adds: `add_sample` before the accumulator. */
  function Scaled(sample: int, gain: nat, side: int): int {
    TruncDiv(TruncDiv(sample * gain, 1000) * side, 1000)
  }

  // ---------------------------------------------------------------------------------------------
  // The field widths.

  ghost predicate Typed(s: Sonic) {
    && (forall b :: b in s.grains ==> forall i :: 0 <= i < |s.grains[b]| ==> IsI16(s.grains[b][i]))
    && (forall i :: 0 <= i < |s.voices| ==> s.voices[i].gain <= U16_MAX)
    && (s.bed.Some? ==> s.bed.value.gain <= U16_MAX)
  }

  const PEAK: int := 2147450

  lemma ThousandBound(a: int)
    requires -PEAK * 1000 - 1000 < a < PEAK * 1000 + 1000
    ensures -PEAK <= TruncDiv(a, 1000) <= PEAK
  {
  }

  lemma ProductBound(a: nat, m: nat, x: nat, y: nat)
    requires a <= m && x <= y
    ensures a * x <= m * y
  {
    assert (m - a) * x >= 0 && m * (y - x) >= 0;
    assert m * y - a * x == (m - a) * x + m * (y - x);
  }

  /** The size of a product, whatever the sign of one factor. */
  lemma SignedProduct(v: int, m: int, x: nat, y: nat)
    requires -m <= v <= m && x <= y
    ensures -(m * y) <= v * x <= m * y
  {
    var a: nat := if v < 0 then -v else v;
    ProductBound(a, m, x, y);
    assert v * x == a * x || v * x == -(a * x);
  }

  /** No intermediate product saturates `i32`, and one voice adds at most the peak. */
  lemma ScaledBound(sample: int, gain: nat, side: int)
    requires IsI16(sample) && gain <= U16_MAX && 0 <= side <= 1000
    ensures IsI32(sample * gain) && IsI32(TruncDiv(sample * gain, 1000) * side)
    ensures -PEAK <= Scaled(sample, gain, side) <= PEAK
  {
    SignedProduct(sample, 0x8000, gain, U16_MAX);
    ThousandBound(sample * gain);
    var g := TruncDiv(sample * gain, 1000);
    SignedProduct(g, PEAK, side, 1000);
    ThousandBound(g * side);
    hide TruncDiv;
  }

  // ---------------------------------------------------------------------------------------------
  // What is heard at one absolute frame.

  predicate Playable(s: Sonic, lim: Limits, blob: nat) {
    blob in s.grains && 0 < |s.grains[blob]| <= lim.maxGrainFrames
  }

  /** The voice's contribution at absolute frame `f`, zero before it starts and after it ends.  No window is open
      past the last tick, so a voice set for that tick is never heard. */
  function VoiceAt(s: Sonic, lim: Limits, v: Voice, f: nat, side: Side): int {
    if !Playable(s, lim, v.blob) || v.at >= U64_MAX || f < v.at * SAMPLES_PER_TICK
       || f - v.at * SAMPLES_PER_TICK >= |s.grains[v.blob]| then 0
    else Scaled(s.grains[v.blob][f - v.at * SAMPLES_PER_TICK], VoiceGain(v), PanMilli(s, v.pos, side))
  }

  /** The bed loops from frame zero of the world; `b` is how far it has run. */
  function BedAt(s: Sonic, lim: Limits, b: nat): int {
    if s.bed.None? || !Playable(s, lim, s.bed.value.blob) then 0
    else
      var pcm := s.grains[s.bed.value.blob];
      Scaled(Looped(pcm, 0, b), s.bed.value.gain, 1000)
  }

  /** How far the bed has run when a window opens: the product stops at the last `u64`. */
  function BedStart(now: nat): nat { Min(now * SAMPLES_PER_TICK, U64_MAX) }

  /** Sample `i` of an endless repetition that starts at `start`. */
  function Looped(pcm: seq<int>, start: nat, i: nat): int
    requires pcm != []
  {
    pcm[(start + i) % |pcm|]
  }

  /** Saturating accumulation in manifest order. */
  function Accumulated(s: Sonic, lim: Limits, voices: seq<Voice>, f: nat, side: Side): int {
    if voices == [] then 0
    else
      ClampI32(Accumulated(s, lim, voices[..|voices| - 1], f, side) + VoiceAt(s, lim, voices[|voices| - 1], f, side))
  }

  /** What is heard at frame `f` with the bed at `b`. */
  function SampleOf(s: Sonic, lim: Limits, voices: seq<Voice>, f: nat, b: nat, side: Side): int {
    SatI16(ClampI32(Accumulated(s, lim, voices, f, side) + BedAt(s, lim, b)))
  }

  /** Where in the window the voice starts and where in its grain the window opens; both products stop at
      the last `u64`. */
  function DestOf(v: Voice, now: nat): nat {
    Min((if v.at > now then v.at - now else 0) * SAMPLES_PER_TICK, U64_MAX)
  }

  function PlayheadOf(v: Voice, now: nat): nat {
    Min((if v.at < now then now - v.at else 0) * SAMPLES_PER_TICK, U64_MAX)
  }

  /** The voice counts against the cap of the window. */
  predicate Audible(s: Sonic, lim: Limits, v: Voice, now: nat, ticks: nat) {
    && Playable(s, lim, v.blob) && v.at < Min(now + ticks, U64_MAX)
    && PlayheadOf(v, now) < |s.grains[v.blob]|
  }

  /** The first `max` audible voices. */
  function Kept(s: Sonic, lim: Limits, voices: seq<Voice>, now: nat, ticks: nat, max: nat): (kept: seq<Voice>)
    ensures |kept| <= max
  {
    if voices == [] || max == 0 then []
    else if Audible(s, lim, voices[0], now, ticks) then [voices[0]] + Kept(s, lim, voices[1..], now, ticks, max - 1)
    else Kept(s, lim, voices[1..], now, ticks, max)
  }

  function SideOf(k: nat): Side { if k % 2 == 0 then Left else Right }

  /** `mix_n`: interleaved samples of the window. */
  function MixOf(s: Sonic, lim: Limits, now: nat, ticks: nat): (pcm: seq<int>)
    ensures |pcm| == 2 * ticks * SAMPLES_PER_TICK
  {
    var kept := Kept(s, lim, s.voices, now, ticks, lim.maxVoices);
    seq(2 * ticks * SAMPLES_PER_TICK, (k: nat) =>
      SampleOf(s, lim, kept, now * SAMPLES_PER_TICK + k / 2, BedStart(now) + k / 2, SideOf(k)))
  }

  // ---------------------------------------------------------------------------------------------
  // Chunk invariance.

  function AudibleCount(s: Sonic, lim: Limits, voices: seq<Voice>, now: nat, ticks: nat): nat {
    if voices == [] then 0
    else (if Audible(s, lim, voices[0], now, ticks) then 1 else 0) + AudibleCount(s, lim, voices[1..], now, ticks)
  }

  /** A voice outside the window adds nothing inside it. */
  lemma InaudibleSilent(s: Sonic, lim: Limits, v: Voice, now: nat, ticks: nat, f: nat, side: Side)
    requires !Audible(s, lim, v, now, ticks)
    requires now * SAMPLES_PER_TICK <= f < (now + ticks) * SAMPLES_PER_TICK
    ensures VoiceAt(s, lim, v, f, side) == 0
  {
    hide Scaled, PanMilli, VoiceGain;
  }

  lemma {:induction false} AccumulateFront(s: Sonic, lim: Limits, voices: seq<Voice>, f: nat, side: Side)
    requires voices != [] && VoiceAt(s, lim, voices[0], f, side) == 0
    ensures Accumulated(s, lim, voices, f, side) == Accumulated(s, lim, voices[1..], f, side)
    decreases |voices|
  {
    hide VoiceAt;
    if |voices| > 1 {
      var init := voices[..|voices| - 1];
      AccumulateFront(s, lim, init, f, side);
      assert init[1..] == voices[1..][..|voices| - 2];
      assert voices[1..][|voices| - 2] == voices[|voices| - 1];
    } else {
      assert voices[..0] == [] && voices[1..] == [];
    }
  }

  /** Accumulation from a running value. */
  function Onto(s: Sonic, lim: Limits, acc: int, voices: seq<Voice>, f: nat, side: Side): int
    decreases |voices|
  {
    if voices == [] then acc
    else Onto(s, lim, ClampI32(acc + VoiceAt(s, lim, voices[0], f, side)), voices[1..], f, side)
  }

  lemma {:induction false} OntoSnoc(s: Sonic, lim: Limits, acc: int, voices: seq<Voice>, v: Voice, f: nat, side: Side)
    ensures Onto(s, lim, acc, voices + [v], f, side)
      == ClampI32(Onto(s, lim, acc, voices, f, side) + VoiceAt(s, lim, v, f, side))
    decreases |voices|
  {
    hide VoiceAt;
    if voices == [] {
      assert [] + [v] == [v];
      assert [v][1..] == [];
    } else {
      assert (voices + [v])[1..] == voices[1..] + [v];
      OntoSnoc(s, lim, ClampI32(acc + VoiceAt(s, lim, voices[0], f, side)), voices[1..], v, f, side);
    }
  }

  lemma {:induction false} AccumulatedIsOnto(s: Sonic, lim: Limits, voices: seq<Voice>, f: nat, side: Side)
    ensures Accumulated(s, lim, voices, f, side) == Onto(s, lim, 0, voices, f, side)
    decreases |voices|
  {
    hide VoiceAt;
    if voices != [] {
      var init, last := voices[..|voices| - 1], voices[|voices| - 1];
      AccumulatedIsOnto(s, lim, init, f, side);
      OntoSnoc(s, lim, 0, init, last, f, side);
      assert voices == init + [last];
    }
  }

  lemma {:induction false} OntoKept(s: Sonic, lim: Limits, acc: int, voices: seq<Voice>, now: nat, ticks: nat, max: nat,
                                    f: nat, side: Side)
    requires IsI32(acc) && AudibleCount(s, lim, voices, now, ticks) <= max
    requires now * SAMPLES_PER_TICK <= f < (now + ticks) * SAMPLES_PER_TICK
    ensures Onto(s, lim, acc, Kept(s, lim, voices, now, ticks, max), f, side) == Onto(s, lim, acc, voices, f, side)
    decreases |voices|
  {
    hide VoiceAt, Audible;
    if voices != [] {
      var v := voices[0];
      if Audible(s, lim, v, now, ticks) {
        var rest := Kept(s, lim, voices[1..], now, ticks, max - 1);
        assert ([v] + rest)[1..] == rest;
        OntoKept(s, lim, ClampI32(acc + VoiceAt(s, lim, v, f, side)), voices[1..], now, ticks, max - 1, f, side);
      } else {
        InaudibleSilent(s, lim, v, now, ticks, f, side);
        OntoKept(s, lim, acc, voices[1..], now, ticks, max, f, side);
        KeptSkips(s, lim, voices, now, ticks, max);
      }
    }
  }

  lemma KeptSkips(s: Sonic, lim: Limits, voices: seq<Voice>, now: nat, ticks: nat, max: nat)
    requires voices != [] && !Audible(s, lim, voices[0], now, ticks)
    ensures Kept(s, lim, voices, now, ticks, max) == Kept(s, lim, voices[1..], now, ticks, max)
  {
    hide Audible;
  }

  /** While the cap does not bite, what is kept sounds like everything. */
  lemma KeptIsAll(s: Sonic, lim: Limits, now: nat, ticks: nat, f: nat, b: nat, side: Side)
    requires AudibleCount(s, lim, s.voices, now, ticks) <= lim.maxVoices
    requires now * SAMPLES_PER_TICK <= f < (now + ticks) * SAMPLES_PER_TICK
    ensures SampleOf(s, lim, Kept(s, lim, s.voices, now, ticks, lim.maxVoices), f, b, side)
      == SampleOf(s, lim, s.voices, f, b, side)
  {
    hide VoiceAt, BedAt;
    AccumulatedIsOnto(s, lim, s.voices, f, side);
    AccumulatedIsOnto(s, lim, Kept(s, lim, s.voices, now, ticks, lim.maxVoices), f, side);
    OntoKept(s, lim, 0, s.voices, now, ticks, lim.maxVoices, f, side);
  }

  /** A sub-window hears no more voices than the window. */
  lemma {:induction false} SubWindow(s: Sonic, lim: Limits, voices: seq<Voice>, now: nat, ticks: nat, from: nat, n: nat)
    requires now <= from && from + n <= now + ticks
    ensures AudibleCount(s, lim, voices, from, n) <= AudibleCount(s, lim, voices, now, ticks)
    decreases |voices|
  {
    if voices != [] {
      SubWindow(s, lim, voices[1..], now, ticks, from, n);
    }
  }

  /** A split changes nothing but where the second part finds the bed: the window is the concatenation of its
      parts exactly when what is heard there is the same at both places. */
  lemma ChunkIff(s: Sonic, lim: Limits, now: nat, t1: nat, t2: nat)
    requires AudibleCount(s, lim, s.voices, now, t1 + t2) <= lim.maxVoices
    ensures MixOf(s, lim, now, t1 + t2) == MixOf(s, lim, now, t1) + MixOf(s, lim, now + t1, t2)
      <==> forall k: nat :: k < 2 * t2 * SAMPLES_PER_TICK ==> HeardAlike(s, lim, now, t1, k)
  {
    SubWindow(s, lim, s.voices, now, t1 + t2, now, t1);
    SubWindow(s, lim, s.voices, now, t1 + t2, now + t1, t2);
    var whole, a, b := MixOf(s, lim, now, t1 + t2), MixOf(s, lim, now, t1), MixOf(s, lim, now + t1, t2);
    hide SampleOf, Kept, AudibleCount, MixOf;
    forall k: nat | k < |a|
      ensures whole[k] == (a + b)[k]
    {
      FirstPart(s, lim, now, t1, t2, k);
    }
    forall k: nat | k < |b|
      ensures whole[|a| + k] == (a + b)[|a| + k] <==> HeardAlike(s, lim, now, t1, k)
    {
      SecondPart(s, lim, now, t1, t2, k);
    }
    if forall k: nat :: k < |b| ==> HeardAlike(s, lim, now, t1, k) {
      forall k: nat | k < |whole|
        ensures whole[k] == (a + b)[k]
      {
        if k >= |a| {
          assert HeardAlike(s, lim, now, t1, k - |a|);
        }
      }
    }
  }

  /** Sample `k` of the second part sounds the same with the bed where the whole window has it and where the part
      does. */
  predicate HeardAlike(s: Sonic, lim: Limits, now: nat, t1: nat, k: nat) {
    var f := (now + t1) * SAMPLES_PER_TICK + k / 2;
    SampleOf(s, lim, s.voices, f, BedStart(now) + t1 * SAMPLES_PER_TICK + k / 2, SideOf(k))
      == SampleOf(s, lim, s.voices, f, BedStart(now + t1) + k / 2, SideOf(k))
  }

  lemma FirstPart(s: Sonic, lim: Limits, now: nat, t1: nat, t2: nat, k: nat)
    requires AudibleCount(s, lim, s.voices, now, t1 + t2) <= lim.maxVoices
    requires AudibleCount(s, lim, s.voices, now, t1) <= lim.maxVoices
    requires k < 2 * t1 * SAMPLES_PER_TICK
    ensures MixOf(s, lim, now, t1 + t2)[k] == MixOf(s, lim, now, t1)[k]
  {
    hide SampleOf, Kept, AudibleCount;
    var f, b := now * SAMPLES_PER_TICK + k / 2, BedStart(now) + k / 2;
    KeptIsAll(s, lim, now, t1 + t2, f, b, SideOf(k));
    KeptIsAll(s, lim, now, t1, f, b, SideOf(k));
  }

  lemma SecondPart(s: Sonic, lim: Limits, now: nat, t1: nat, t2: nat, k: nat)
    requires AudibleCount(s, lim, s.voices, now, t1 + t2) <= lim.maxVoices
    requires AudibleCount(s, lim, s.voices, now + t1, t2) <= lim.maxVoices
    requires k < 2 * t2 * SAMPLES_PER_TICK
    ensures MixOf(s, lim, now, t1 + t2)[2 * t1 * SAMPLES_PER_TICK + k] == MixOf(s, lim, now + t1, t2)[k]
      <==> HeardAlike(s, lim, now, t1, k)
  {
    hide SampleOf, Kept, AudibleCount;
    var f := (now + t1) * SAMPLES_PER_TICK + k / 2;
    var at := 2 * t1 * SAMPLES_PER_TICK + k;
    assert at / 2 == t1 * SAMPLES_PER_TICK + k / 2 && at % 2 == k % 2;
    KeptIsAll(s, lim, now, t1 + t2, f, BedStart(now) + at / 2, SideOf(k));
    KeptIsAll(s, lim, now + t1, t2, f, BedStart(now + t1) + k / 2, SideOf(k));
  }

  /** Mixing is chunk-invariant, sample for sample, whenever the audible voices fit the cap and the second part
      opens before the sample count stops at `u64`. */
  lemma ChunkInvariant(s: Sonic, lim: Limits, now: nat, t1: nat, t2: nat)
    requires AudibleCount(s, lim, s.voices, now, t1 + t2) <= lim.maxVoices
    requires (now + t1) * SAMPLES_PER_TICK <= U64_MAX
    ensures MixOf(s, lim, now, t1 + t2) == MixOf(s, lim, now, t1) + MixOf(s, lim, now + t1, t2)
  {
    ChunkIff(s, lim, now, t1, t2);
    hide SampleOf, MixOf, AudibleCount;
  }

  /** Past that point every window starts the bed at the same sample. */
  lemma BedSlips()
    ensures var s := Sonic([], Some(Bed(0, 1000)), map[0 := [0, 0, 1]], 0);
      var lim, now := Limits(1, 3), U64_MAX - 1;
      && AudibleCount(s, lim, s.voices, now, 2) == 0
      && MixOf(s, lim, now, 2) != MixOf(s, lim, now, 1) + MixOf(s, lim, now + 1, 1)
  {
    var s := Sonic([], Some(Bed(0, 1000)), map[0 := [0, 0, 1]], 0);
    var lim, now := Limits(1, 3), U64_MAX - 1;
    var f := now * SAMPLES_PER_TICK + SAMPLES_PER_TICK;
    assert BedAt(s, lim, U64_MAX + SAMPLES_PER_TICK) == 1 && BedAt(s, lim, U64_MAX) == 0;
    assert MixOf(s, lim, now, 2)[2 * SAMPLES_PER_TICK] == SampleOf(s, lim, [], f, U64_MAX + SAMPLES_PER_TICK, Left) == 1;
    assert MixOf(s, lim, now + 1, 1)[0] == SampleOf(s, lim, [], f, U64_MAX, Left) == 0;
  }

  // ---------------------------------------------------------------------------------------------
  // Exactness.

  /** The sum without saturation. */
  function Sum(s: Sonic, lim: Limits, voices: seq<Voice>, f: nat, side: Side): int {
    if voices == [] then 0
    else Sum(s, lim, voices[..|voices| - 1], f, side) + VoiceAt(s, lim, voices[|voices| - 1], f, side)
  }

  lemma VoiceBound(s: Sonic, lim: Limits, v: Voice, f: nat, side: Side)
    requires Typed(s) && v.gain <= U16_MAX
    ensures -PEAK <= VoiceAt(s, lim, v, f, side) <= PEAK
  {
    hide Scaled, PanMilli;
    if VoiceAt(s, lim, v, f, side) != 0 {
      ScaledBound(s.grains[v.blob][f - v.at * SAMPLES_PER_TICK], VoiceGain(v), PanMilli(s, v.pos, side));
    }
  }

  lemma BedBound(s: Sonic, lim: Limits, b: nat)
    requires Typed(s)
    ensures -PEAK <= BedAt(s, lim, b) <= PEAK
  {
    hide Scaled;
    if s.bed.Some? && Playable(s, lim, s.bed.value.blob) {
      var pcm := s.grains[s.bed.value.blob];
      ScaledBound(pcm[b % |pcm|], s.bed.value.gain, 1000);
    }
  }

  lemma {:induction false} SumExact(s: Sonic, lim: Limits, voices: seq<Voice>, f: nat, side: Side)
    requires Typed(s) && |voices| <= 999 && forall i :: 0 <= i < |voices| ==> voices[i].gain <= U16_MAX
    ensures -PEAK * |voices| <= Sum(s, lim, voices, f, side) <= PEAK * |voices|
    ensures Accumulated(s, lim, voices, f, side) == Sum(s, lim, voices, f, side)
    decreases |voices|
  {
    hide VoiceAt, Typed;
    if voices != [] {
      var last := voices[|voices| - 1];
      SumExact(s, lim, voices[..|voices| - 1], f, side);
      VoiceBound(s, lim, last, f, side);
    }
  }

  /** With at most 999 voices and the bed no accumulation saturates: a sample is one clamp of an exact
      sum. */
  lemma SampleExact(s: Sonic, lim: Limits, voices: seq<Voice>, f: nat, b: nat, side: Side)
    requires Typed(s) && |voices| <= 999 && forall i :: 0 <= i < |voices| ==> voices[i].gain <= U16_MAX
    ensures SampleOf(s, lim, voices, f, b, side) == SatI16(Sum(s, lim, voices, f, side) + BedAt(s, lim, b))
  {
    hide Typed, BedAt;
    SumExact(s, lim, voices, f, side);
    BedBound(s, lim, b);
  }

  lemma {:induction false} SumRemove(s: Sonic, lim: Limits, voices: seq<Voice>, i: nat, f: nat, side: Side)
    requires i < |voices|
    ensures Sum(s, lim, voices, f, side)
      == Sum(s, lim, voices[..i] + voices[i + 1..], f, side) + VoiceAt(s, lim, voices[i], f, side)
    decreases |voices|
  {
    hide VoiceAt;
    var n := |voices| - 1;
    if i < n {
      var init := voices[..n];
      SumRemove(s, lim, init, i, f, side);
      var less := voices[..i] + voices[i + 1..];
      assert less[..|less| - 1] == init[..i] + init[i + 1..];
      assert less[|less| - 1] == voices[n];
    } else {
      assert voices[..i] + voices[i + 1..] == voices[..n];
    }
  }

  lemma WithoutOne(a: seq<Voice>, b: seq<Voice>, i: nat)
    requires a != [] && i < |b| && b[i] == a[|a| - 1] && multiset(a) == multiset(b)
    ensures multiset(a[..|a| - 1]) == multiset(b[..i] + b[i + 1..])
  {
    var n := |a| - 1;
    assert a == a[..n] + [a[n]];
    assert b == b[..i] + ([b[i]] + b[i + 1..]);
    assert multiset(a) == multiset(a[..n]) + multiset{a[n]};
    assert multiset(b) == multiset(b[..i]) + (multiset{b[i]} + multiset(b[i + 1..]));
    assert multiset(b[..i] + b[i + 1..]) == multiset(b) - multiset{b[i]};
  }

  lemma {:induction false} SumOrder(s: Sonic, lim: Limits, a: seq<Voice>, b: seq<Voice>, f: nat, side: Side)
    requires multiset(a) == multiset(b)
    ensures Sum(s, lim, a, f, side) == Sum(s, lim, b, f, side)
    decreases |a|
  {
    hide VoiceAt;
    assert |multiset(a)| == |a| && |multiset(b)| == |b|;
    if a != [] {
      var n := |a| - 1;
      assert a[n] in multiset(a);
      assert a[n] in multiset(b);
      var i :| 0 <= i < |b| && b[i] == a[n];
      SumRemove(s, lim, b, i, f, side);
      WithoutOne(a, b, i);
      SumOrder(s, lim, a[..n], b[..i] + b[i + 1..], f, side);
    }
  }

  /** And the order of the voices does not matter. */
  lemma VoiceOrderIrrelevant(s: Sonic, lim: Limits, a: seq<Voice>, b: seq<Voice>, f: nat, bed: nat, side: Side)
    requires Typed(s) && |a| <= 999 && multiset(a) == multiset(b)
    requires forall i :: 0 <= i < |a| ==> a[i].gain <= U16_MAX
    ensures SampleOf(s, lim, a, f, bed, side) == SampleOf(s, lim, b, f, bed, side)
  {
    hide Typed, VoiceAt, BedAt;
    assert |multiset(a)| == |a| && |multiset(b)| == |b|;
    forall i | 0 <= i < |b|
      ensures b[i].gain <= U16_MAX
    {
      assert b[i] in multiset(a);
    }
    SampleExact(s, lim, a, f, bed, side);
    SampleExact(s, lim, b, f, bed, side);
    SumOrder(s, lim, a, b, f, side);
  }

  // ---------------------------------------------------------------------------------------------
  // The mixer as it runs: voices added in place to an interleaved accumulator.

  /** `add_sample`, with the saturations the program writes. */
  method AddSample(acc: array<int>, frame: nat, sample: int, gain: nat, left: int, right: int)
    requires 2 * frame + 1 < acc.Length
    requires IsI16(sample) && gain <= U16_MAX && 0 <= left <= 1000 && 0 <= right <= 1000
    modifies acc
    ensures acc[2 * frame] == ClampI32(old(acc[2 * frame]) + Scaled(sample, gain, left))
    ensures acc[2 * frame + 1] == ClampI32(old(acc[2 * frame + 1]) + Scaled(sample, gain, right))
    ensures forall k :: 0 <= k < acc.Length && k != 2 * frame && k != 2 * frame + 1 ==> acc[k] == old(acc[k])
  {
    ScaledBound(sample, gain, left);
    ScaledBound(sample, gain, right);
    var g := TruncDiv(ClampI32(sample * gain), 1000);
    acc[2 * frame] := ClampI32(acc[2 * frame] + TruncDiv(ClampI32(g * left), 1000));
    acc[2 * frame + 1] := ClampI32(acc[2 * frame + 1] + TruncDiv(ClampI32(g * right), 1000));
  }

  /** The sample of a grain that lands on frame `i`, zero outside it. */
  function Landing(pcm: seq<int>, dest: nat, playhead: nat, gain: nat, side: int, i: nat): int {
    if dest <= i && playhead + (i - dest) < |pcm| then Scaled(pcm[playhead + (i - dest)], gain, side) else 0
  }

  method MixOneshot(acc: array<int>, pcm: seq<int>, dest: nat, playhead: nat, gain: nat, left: int, right: int)
    requires acc.Length % 2 == 0 && gain <= U16_MAX && 0 <= left <= 1000 && 0 <= right <= 1000
    requires forall i :: 0 <= i < |pcm| ==> IsI16(pcm[i])
    requires forall k :: 0 <= k < acc.Length ==> IsI32(acc[k])
    modifies acc
    ensures forall i: nat :: 2 * i + 1 < acc.Length ==>
      acc[2 * i] == ClampI32(old(acc[2 * i]) + Landing(pcm, dest, playhead, gain, left, i))
    ensures forall i: nat :: 2 * i + 1 < acc.Length ==>
      acc[2 * i + 1] == ClampI32(old(acc[2 * i + 1]) + Landing(pcm, dest, playhead, gain, right, i))
  {
    hide Scaled, IsI16;
    var n := acc.Length / 2;
    var i := dest;
    while i < n && playhead + (i - dest) < |pcm|
      invariant i >= dest
      invariant forall j: nat :: j < i && j < n ==>
        acc[2 * j] == ClampI32(old(acc[2 * j]) + Landing(pcm, dest, playhead, gain, left, j))
      invariant forall j: nat :: j < i && j < n ==>
        acc[2 * j + 1] == ClampI32(old(acc[2 * j + 1]) + Landing(pcm, dest, playhead, gain, right, j))
      invariant forall j: nat :: i <= j < n ==> acc[2 * j] == old(acc[2 * j]) && acc[2 * j + 1] == old(acc[2 * j + 1])
    {
      AddSample(acc, i, pcm[playhead + (i - dest)], gain, left, right);
      i := i + 1;
    }
  }

  method MixLoop(acc: array<int>, pcm: seq<int>, start: nat, gain: nat)
    requires acc.Length % 2 == 0 && gain <= U16_MAX && pcm != []
    requires forall i :: 0 <= i < |pcm| ==> IsI16(pcm[i])
    modifies acc
    ensures forall i: nat :: 2 * i + 1 < acc.Length ==>
      && acc[2 * i] == ClampI32(old(acc[2 * i]) + Scaled(Looped(pcm, start, i), gain, 1000))
      && acc[2 * i + 1] == ClampI32(old(acc[2 * i + 1]) + Scaled(Looped(pcm, start, i), gain, 1000))
  {
    hide Scaled, IsI16;
    var n := acc.Length / 2;
    var src := start % |pcm|;
    for i := 0 to n
      invariant src == (start + i) % |pcm|
      invariant forall j: nat :: j < i ==>
        && acc[2 * j] == ClampI32(old(acc[2 * j]) + Scaled(Looped(pcm, start, j), gain, 1000))
        && acc[2 * j + 1] == ClampI32(old(acc[2 * j + 1]) + Scaled(Looped(pcm, start, j), gain, 1000))
      invariant forall j: nat :: i <= j < n ==> acc[2 * j] == old(acc[2 * j]) && acc[2 * j + 1] == old(acc[2 * j + 1])
    {
      AddSample(acc, i, pcm[src], gain, 1000, 1000);
      NextIndex(start + i, |pcm|);
      src := src + 1;
      if src == |pcm| {
        src := 0;
      }
    }
  }

  lemma NextIndex(x: nat, m: nat)
    requires m > 0
    ensures (x + 1) % m == if x % m + 1 == m then 0 else x % m + 1
  {
    var q, r := x / m, x % m;
    assert x == m * q + r;
    if r + 1 == m {
      assert x + 1 == m * (q + 1);
      ModIs(x + 1, m, q + 1, 0);
    } else {
      ModIs(x + 1, m, q, r + 1);
    }
  }

  lemma ModIs(x: nat, m: nat, q: nat, r: nat)
    requires m > 0 && x == m * q + r && r < m
    ensures x % m == r
  {
    DivisorIs(m, x / m, x % m, q, r);
  }

  /** Euclidean division has one result. */
  lemma DivisorIs(m: nat, p: nat, t: nat, q: nat, r: nat)
    requires t < m && r < m && m * p + t == m * q + r
    ensures p == q && t == r
  {
    if p > q {
      ProductBound(m, m, q + 1, p);
    } else if p < q {
      ProductBound(m, m, p + 1, q);
    }
  }

  /** Window-relative placement is absolute placement: no frame of a window notices where the products stop. */
  lemma LandingIs(s: Sonic, lim: Limits, v: Voice, now: nat, i: nat, side: Side)
    requires Playable(s, lim, v.blob) && v.at < U64_MAX && i < U64_MAX - U32_MAX
    ensures Landing(s.grains[v.blob], DestOf(v, now), PlayheadOf(v, now), VoiceGain(v), PanMilli(s, v.pos, side), i)
      == VoiceAt(s, lim, v, now * SAMPLES_PER_TICK + i, side)
  {
    hide Scaled, PanMilli, VoiceGain;
  }

  /** The accumulator holds what `kept` sounds like from frame `base` on. */
  ghost predicate Mixed(acc: seq<int>, s: Sonic, lim: Limits, kept: seq<Voice>, base: nat) {
    && |acc| % 2 == 0
    && (forall i: nat :: 2 * i + 1 < |acc| ==> acc[2 * i] == Accumulated(s, lim, kept, base + i, Left))
    && (forall i: nat :: 2 * i + 1 < |acc| ==> acc[2 * i + 1] == Accumulated(s, lim, kept, base + i, Right))
    && (forall k :: 0 <= k < |acc| ==> IsI32(acc[k]))
  }

  lemma MixedStep(before: seq<int>, after: seq<int>, s: Sonic, lim: Limits, kept: seq<Voice>, v: Voice, now: nat)
    requires Playable(s, lim, v.blob) && Mixed(before, s, lim, kept, now * SAMPLES_PER_TICK) && |after| == |before|
    requires |after| <= 2 * U32_MAX * SAMPLES_PER_TICK && v.at < U64_MAX
    requires forall i: nat :: 2 * i + 1 < |after| ==>
      after[2 * i] == ClampI32(before[2 * i] + Landing(s.grains[v.blob], DestOf(v, now), PlayheadOf(v, now),
                                                       VoiceGain(v), PanMilli(s, v.pos, Left), i))
    requires forall i: nat :: 2 * i + 1 < |after| ==>
      after[2 * i + 1] == ClampI32(before[2 * i + 1] + Landing(s.grains[v.blob], DestOf(v, now), PlayheadOf(v, now),
                                                               VoiceGain(v), PanMilli(s, v.pos, Right), i))
    ensures Mixed(after, s, lim, kept + [v], now * SAMPLES_PER_TICK)
  {
    hide Landing, VoiceAt, PanMilli, VoiceGain, DestOf, PlayheadOf, Playable;
    var more := kept + [v];
    assert more[..|more| - 1] == kept && more[|more| - 1] == v;
    forall i: nat | 2 * i + 1 < |after|
      ensures after[2 * i] == Accumulated(s, lim, more, now * SAMPLES_PER_TICK + i, Left)
      ensures after[2 * i + 1] == Accumulated(s, lim, more, now * SAMPLES_PER_TICK + i, Right)
    {
      LandingIs(s, lim, v, now, i, Left);
      LandingIs(s, lim, v, now, i, Right);
    }
    forall k | 0 <= k < |after|
      ensures IsI32(after[k])
    {
      if k % 2 == 0 {
        assert k == 2 * (k / 2);
      } else {
        assert k == 2 * (k / 2) + 1;
      }
    }
  }

  lemma ModAdd(x: nat, i: nat, m: nat)
    requires m > 0
    ensures (x % m + i) % m == (x + i) % m
  {
    var r := x % m;
    Quotients(x, i, m, x / m, r, (r + i) / m, (r + i) % m);
  }

  lemma Quotients(x: nat, i: nat, m: nat, q: nat, r: nat, p: nat, t: nat)
    requires m > 0 && t < m && x == m * q + r && r + i == m * p + t
    ensures (x + i) % m == t
  {
    Distributes(m, q, p);
    ModIs(x + i, m, q + p, t);
  }

  lemma Distributes(m: nat, q: nat, p: nat)
    ensures m * (q + p) == m * q + m * p
  {
  }

  lemma LoopedShift(pcm: seq<int>, x: nat)
    requires pcm != []
    ensures forall i: nat :: Looped(pcm, x % |pcm|, i) == Looped(pcm, 0, x + i)
  {
    forall i: nat
      ensures Looped(pcm, x % |pcm|, i) == Looped(pcm, 0, x + i)
    {
      ModAdd(x, i, |pcm|);
    }
  }

  lemma FrameSamples(acc: seq<int>, pcm: seq<int>, s: Sonic, lim: Limits, kept: seq<Voice>, now: nat, ticks: nat)
    requires kept == Kept(s, lim, s.voices, now, ticks, lim.maxVoices)
    requires |acc| == 2 * ticks * SAMPLES_PER_TICK && |pcm| == |acc|
    requires forall i: nat :: 2 * i + 1 < |acc| ==>
      var f, b := now * SAMPLES_PER_TICK + i, BedStart(now) + i;
      && acc[2 * i] == ClampI32(Accumulated(s, lim, kept, f, Left) + BedAt(s, lim, b))
      && acc[2 * i + 1] == ClampI32(Accumulated(s, lim, kept, f, Right) + BedAt(s, lim, b))
    requires forall k :: 0 <= k < |pcm| ==> pcm[k] == SatI16(acc[k])
    ensures pcm == MixOf(s, lim, now, ticks)
  {
    hide Accumulated, BedAt, BedStart, Kept;
    forall k: nat | k < |pcm|
      ensures pcm[k] == SampleOf(s, lim, kept, now * SAMPLES_PER_TICK + k / 2, BedStart(now) + k / 2, SideOf(k))
    {
      var i: nat := k / 2;
      var f, b := now * SAMPLES_PER_TICK + i, BedStart(now) + i;
      assert acc[2 * i] == ClampI32(Accumulated(s, lim, kept, f, Left) + BedAt(s, lim, b));
      assert acc[2 * i + 1] == ClampI32(Accumulated(s, lim, kept, f, Right) + BedAt(s, lim, b));
      assert k == 2 * i || k == 2 * i + 1;
    }
  }

  /** The voice loop of `mix_n`. */
  method MixVoices(s: Sonic, lim: Limits, now: nat, ticks: U32, acc: array<int>) returns (ghost kept: seq<Voice>, voices: nat)
    requires Typed(s) && acc.Length == 2 * ticks * SAMPLES_PER_TICK && forall k :: 0 <= k < acc.Length ==> acc[k] == 0
    modifies acc
    ensures kept == Kept(s, lim, s.voices, now, ticks, lim.maxVoices) && voices == |kept|
    ensures Mixed(acc[..], s, lim, kept, now * SAMPLES_PER_TICK)
  {
    hide Mixed, Audible, Landing, PanMilli, VoiceGain, Typed, DestOf, PlayheadOf, Kept;
    ghost var base := now * SAMPLES_PER_TICK;
    kept, voices := [], 0;
    SilentMixed(acc[..], s, lim, base);
    assert s.voices[0..] == s.voices;
    for k := 0 to |s.voices|
      invariant Mixed(acc[..], s, lim, kept, base) && voices == |kept| <= lim.maxVoices
      invariant Kept(s, lim, s.voices, now, ticks, lim.maxVoices)
        == kept + Kept(s, lim, s.voices[k..], now, ticks, lim.maxVoices - voices)
    {
      var v := s.voices[k];
      KeptNext(s, lim, kept, k, now, ticks);
      if voices >= lim.maxVoices {
        return;
      }
      if !Audible(s, lim, v, now, ticks) {
        continue;
      }
      VoiceTyped(s, lim, v, k, now, ticks);
      MixedRange(acc[..], s, lim, kept, base);
      ghost var before := acc[..];
      MixOneshot(acc, s.grains[v.blob], DestOf(v, now), PlayheadOf(v, now), VoiceGain(v), PanMilli(s, v.pos, Left),
                 PanMilli(s, v.pos, Right));
      MixedStep(before, acc[..], s, lim, kept, v, now);
      kept, voices := kept + [v], voices + 1;
    }
    KeptNone(s, lim, kept, now, ticks, lim.maxVoices - voices);
  }

  /** How the first voice not yet looked at changes what is still to be kept. */
  lemma KeptNext(s: Sonic, lim: Limits, kept: seq<Voice>, k: nat, now: nat, ticks: nat)
    requires k < |s.voices| && |kept| <= lim.maxVoices
    ensures var v, left := s.voices[k], lim.maxVoices - |kept|;
      kept + Kept(s, lim, s.voices[k..], now, ticks, left) ==
        if left == 0 then kept
        else if Audible(s, lim, v, now, ticks) then kept + [v] + Kept(s, lim, s.voices[k + 1..], now, ticks, left - 1)
        else kept + Kept(s, lim, s.voices[k + 1..], now, ticks, left)
  {
    hide Audible;
    var v, left := s.voices[k], lim.maxVoices - |kept|;
    assert s.voices[k..][0] == v && s.voices[k..][1..] == s.voices[k + 1..];
    if left == 0 {
      assert kept + [] == kept;
    } else if Audible(s, lim, v, now, ticks) {
      var rest := Kept(s, lim, s.voices[k + 1..], now, ticks, left - 1);
      assert kept + ([v] + rest) == kept + [v] + rest;
    }
  }

  lemma KeptNone(s: Sonic, lim: Limits, kept: seq<Voice>, now: nat, ticks: nat, left: nat)
    ensures kept + Kept(s, lim, s.voices[|s.voices|..], now, ticks, left) == kept
  {
  }

  lemma VoiceTyped(s: Sonic, lim: Limits, v: Voice, k: nat, now: nat, ticks: nat)
    requires Typed(s) && k < |s.voices| && v == s.voices[k] && Audible(s, lim, v, now, ticks)
    ensures Playable(s, lim, v.blob) && VoiceGain(v) <= U16_MAX && v.at < U64_MAX
    ensures forall i :: 0 <= i < |s.grains[v.blob]| ==> IsI16(s.grains[v.blob][i])
  {
  }

  lemma MixedRange(acc: seq<int>, s: Sonic, lim: Limits, kept: seq<Voice>, base: nat)
    requires Mixed(acc, s, lim, kept, base)
    ensures |acc| % 2 == 0 && forall k :: 0 <= k < |acc| ==> IsI32(acc[k])
  {
  }

  lemma SilentMixed(acc: seq<int>, s: Sonic, lim: Limits, base: nat)
    requires |acc| % 2 == 0 && forall k :: 0 <= k < |acc| ==> acc[k] == 0
    ensures Mixed(acc, s, lim, [], base)
  {
  }

  /** The bed, added last. */
  method MixBed(s: Sonic, lim: Limits, now: nat, acc: array<int>)
    requires Typed(s) && acc.Length % 2 == 0 && forall k :: 0 <= k < acc.Length ==> IsI32(acc[k])
    modifies acc
    ensures forall i: nat :: 2 * i + 1 < acc.Length ==>
      var b := BedAt(s, lim, BedStart(now) + i);
      acc[2 * i] == ClampI32(old(acc[2 * i]) + b) && acc[2 * i + 1] == ClampI32(old(acc[2 * i + 1]) + b)
  {
    hide Scaled, IsI16, Looped, BedStart;
    if s.bed.Some? && Playable(s, lim, s.bed.value.blob) {
      var pcm := s.grains[s.bed.value.blob];
      MixLoop(acc, pcm, BedStart(now) % |pcm|, s.bed.value.gain);
      LoopedShift(pcm, BedStart(now));
    }
  }

  /** `mix_n`, at any tick. */
  method MixN(s: Sonic, lim: Limits, now: nat, ticks: U32) returns (pcm: seq<int>, voices: nat)
    requires Typed(s) && lim.maxVoices <= U16_MAX
    ensures pcm == MixOf(s, lim, now, ticks)
    ensures voices == if ticks == 0 then 0 else |Kept(s, lim, s.voices, now, ticks, lim.maxVoices)|
  {
    hide Accumulated, BedAt, BedStart, Kept, Audible, Typed;
    if ticks == 0 {
      return [], 0;
    }
    var acc := new int[2 * ticks * SAMPLES_PER_TICK](_ => 0);
    ghost var kept;
    kept, voices := MixVoices(s, lim, now, ticks, acc);
    MixedRange(acc[..], s, lim, kept, now * SAMPLES_PER_TICK);
    ghost var mixed := acc[..];
    assert forall k :: 0 <= k < acc.Length ==> acc[k] == mixed[k];
    MixBed(s, lim, now, acc);
    pcm := Saturated(acc);
    FrameSamples(acc[..], pcm, s, lim, kept, now, ticks);
  }

  method Saturated(acc: array<int>) returns (pcm: seq<int>)
    ensures |pcm| == acc.Length && forall k :: 0 <= k < acc.Length ==> pcm[k] == SatI16(acc[k])
  {
    pcm := [];
    for k := 0 to acc.Length
      invariant |pcm| == k && forall j :: 0 <= j < k ==> pcm[j] == SatI16(acc[j])
    {
      pcm := pcm + [SatI16(acc[k])];
    }
  }
}
