module Resample {
  /** Streaming 24 kHz -> 8 kHz decimation (owen-voice/app/resample.py).

      The filter taps are an arbitrary real kernel of length 63; samples are exact integers. The
      whole-input form `Decimate` is the definition; `Decimator` is the incremental form, which
      must agree with it however the bytes are cut. */

  import opened Bytes

  const DECIM: nat := 3
  const TAPS: nat := 63

  type Kernel = k: seq<real> | |k| == TAPS witness seq(TAPS, _ => 0.0)

  // --- numpy primitives --------------------------------------------------------------

  /** One "valid" convolution value: the window against the reversed taps. */
  function Conv(kernel: seq<real>, window: seq<int>): real
    requires |kernel| == |window|
  {
    if window == [] then 0.0
    else window[0] as real * kernel[|kernel| - 1] + Conv(kernel[..|kernel| - 1], window[1..])
  }

  function Convolve(kernel: Kernel, buf: seq<int>): (y: seq<real>)
    requires |buf| >= TAPS
    ensures |y| == |buf| - TAPS + 1
  {
    seq(|buf| - TAPS + 1, i requires 0 <= i <= |buf| - TAPS => Conv(kernel, buf[i..i + TAPS]))
  }

  function Ceil3(n: nat): nat { (n + 2) / 3 }

  /** y[phase], y[phase + 3], y[phase + 6], ... */
  function Strided(y: seq<real>, phase: nat): seq<real>
    requires phase < DECIM
  {
    var count := StrideCount(|y|, phase);
    seq(count, k requires 0 <= k < count => y[phase + 3 * k])
  }

  /** Clip to 16 bits, then drop the fraction towards zero. */
  function Clip(v: real): sample {
    if v < -32768.0 then -32768
    else if v > 32767.0 then 32767
    else if v >= 0.0 then v.Floor
    else -((-v).Floor)
  }

  /** `s` is `v` without its fraction, or the nearer end of the 16-bit range. */
  predicate IsClipped(s: int, v: real) {
    && (v >= 32767.0 ==> s == 32767)
    && (v <= -32768.0 ==> s == -32768)
    && (-32768.0 <= v <= 32767.0 ==>
          && (0.0 <= s as real <= v || v <= s as real <= 0.0)
          && -1.0 < v - s as real < 1.0)
  }

  lemma {:induction false} ClipIs(v: real)
    ensures IsClipped(Clip(v), v)
  {
  }

  function ClipAll(y: seq<real>): seq<sample> {
    seq(|y|, i requires 0 <= i < |y| => Clip(y[i]))
  }

  // --- the whole-input form ----------------------------------------------------------

  function Silence(): (z: seq<int>)
    ensures |z| == TAPS - 1
  {
    seq(TAPS - 1, _ => 0)
  }

  function Padded(xs: seq<int>): (p: seq<int>)
    ensures |p| == |xs| + 2 * (TAPS - 1)
  {
    Silence() + xs + Silence()
  }

  /** The 63 samples that end at input position `i`, with silence outside the input. */
  function Window(xs: seq<int>, i: nat): (w: seq<int>)
    requires i < |xs| + TAPS - 1
    ensures |w| == TAPS
  {
    Padded(xs)[i..i + TAPS]
  }

  /** Filtered output at input positions 0, 3, 6, ... below `upto`. */
  function FirOutputs(kernel: Kernel, xs: seq<int>, upto: nat): (r: seq<sample>)
    requires upto <= |xs| + TAPS - 1
    ensures |r| == Ceil3(upto)
  {
    seq(Ceil3(upto), k requires 0 <= k < Ceil3(upto) => Clip(Conv(kernel, Window(xs, 3 * k))))
  }

  function Mean3(a: sample, b: sample, c: sample): sample { (a + b + c) / 3 }

  /** The means of the first `groups` groups of three samples. */
  function BoxOutputs(xs: seq<sample>, groups: nat): (r: seq<sample>)
    requires 3 * groups <= |xs|
    ensures |r| == groups
  {
    seq(groups, k requires 0 <= k < groups => Mean3(xs[3 * k], xs[3 * k + 1], xs[3 * k + 2]))
  }

  function PadToGroup(xs: seq<sample>): (r: seq<sample>)
    ensures |r| == 3 * Ceil3(|xs|) && xs <= r
  {
    xs + seq(3 * Ceil3(|xs|) - |xs|, _ => 0)
  }

  /** One-shot decimation of a complete byte string. */
  function Decimate(kernel: Kernel, numpy: bool, pcm24: bytes): bytes {
    var xs := Samples(pcm24);
    EncodeSamples(if numpy then FirOutputs(kernel, xs, |xs| + TAPS - 1)
                  else BoxOutputs(PadToGroup(xs), Ceil3(|xs|)))
  }

  /** What is already determined once `fed` has arrived. */
  function Determined(kernel: Kernel, numpy: bool, fed: bytes): bytes {
    var xs := Samples(fed);
    EncodeSamples(if numpy then FirOutputs(kernel, xs, |xs|) else BoxOutputs(xs, |xs| / 3))
  }

  /** With N whole samples in, the filter gives ceil((N + 62) / 3) samples, and output k is the
      clipped 63-sample window at input position 3k. */
  lemma {:induction false} FirShape(kernel: Kernel, pcm24: bytes)
    ensures |Samples(Decimate(kernel, true, pcm24))| == Ceil3(|pcm24| / 2 + 62)
    ensures forall k :: 0 <= k < Ceil3(|pcm24| / 2 + 62) ==>
      IsClipped(Samples(Decimate(kernel, true, pcm24))[k], Conv(kernel, Window(Samples(pcm24), 3 * k)))
  {
    hide Conv, Clip, Window, EncodeSamples, IsClipped;
    var xs := Samples(pcm24);
    var out := FirOutputs(kernel, xs, |xs| + TAPS - 1);
    assert Decimate(kernel, true, pcm24) == EncodeSamples(out);
    hide Samples, Decimate;
    SamplesOfEncoding(out);
    forall k | 0 <= k < |out|
      ensures IsClipped(out[k], Conv(kernel, Window(xs, 3 * k)))
    {
      ClipIs(Conv(kernel, Window(xs, 3 * k)));
    }
  }

  /** The 63 samples that end at input position `i`: sample `j` of the window is input sample i - 62 + j, or
      silence where there is none. */
  lemma {:induction false} WindowIs(xs: seq<int>, i: nat, j: nat)
    requires i < |xs| + TAPS - 1 && j < TAPS
    ensures Window(xs, i)[j] == if 0 <= i - 62 + j < |xs| then xs[i - 62 + j] else 0
  {
  }

  /** The convolution is the sum of products that runs through the taps backwards: it adds up, and a single
      sample meets the tap at the mirrored place. */
  lemma {:induction false} ConvAdds(kernel: seq<real>, a: seq<int>, b: seq<int>, sum: seq<int>)
    requires |kernel| == |a| == |b| == |sum| && forall i :: 0 <= i < |sum| ==> sum[i] == a[i] + b[i]
    ensures Conv(kernel, sum) == Conv(kernel, a) + Conv(kernel, b)
    decreases |kernel|
  {
    if sum != [] {
      var last := kernel[|kernel| - 1];
      ConvAdds(kernel[..|kernel| - 1], a[1..], b[1..], sum[1..]);
      Distribute(a[0] as real, b[0] as real, last);
    }
  }

  lemma {:induction false} Distribute(x: real, y: real, k: real)
    ensures (x + y) * k == x * k + y * k
  {
  }

  lemma {:induction false} ConvOfSilence(kernel: seq<real>, a: seq<int>)
    requires |kernel| == |a| && forall i :: 0 <= i < |a| ==> a[i] == 0
    ensures Conv(kernel, a) == 0.0
    decreases |kernel|
  {
    if a != [] {
      ConvOfSilence(kernel[..|kernel| - 1], a[1..]);
    }
  }

  lemma {:induction false} ConvOfOneSample(kernel: seq<real>, a: seq<int>, j: nat)
    requires |kernel| == |a| && j < |a| && forall i :: 0 <= i < |a| && i != j ==> a[i] == 0
    ensures Conv(kernel, a) == a[j] as real * kernel[|kernel| - 1 - j]
    decreases |kernel|
  {
    if j == 0 {
      ConvOfSilence(kernel[..|kernel| - 1], a[1..]);
    } else {
      ConvOfOneSample(kernel[..|kernel| - 1], a[1..], j - 1);
    }
  }

  /** `m` is the mean of the three rounded down, and so lies between the least and the greatest. */
  predicate IsFloorMean(m: int, a: int, b: int, c: int) {
    && 3 * m <= a + b + c < 3 * m + 3
    && (a <= m || b <= m || c <= m)
    && (m <= a || m <= b || m <= c)
  }

  lemma {:induction false} Mean3Floors(a: sample, b: sample, c: sample)
    ensures IsFloorMean(Mean3(a, b, c), a, b, c)
  {
  }

  /** The fallback gives ceil(N / 3) samples, the floored means of the groups of three (the last
      group filled up with silence); a mean of 16-bit samples is a 16-bit sample. */
  lemma {:induction false} BoxShape(kernel: Kernel, pcm24: bytes)
    ensures var xs := PadToGroup(Samples(pcm24)); var out := Samples(Decimate(kernel, false, pcm24));
      && |out| == Ceil3(|pcm24| / 2)
      && forall k :: 0 <= k < |out| ==> IsFloorMean(out[k], xs[3 * k], xs[3 * k + 1], xs[3 * k + 2])
  {
    hide FirOutputs, EncodeSamples, IsFloorMean, Mean3, Ceil3;
    var xs := PadToGroup(Samples(pcm24));
    var out := BoxOutputs(xs, Ceil3(|Samples(pcm24)|));
    assert Samples(Decimate(kernel, false, pcm24)) == out by { SamplesOfEncoding(out); }
    forall k | 0 <= k < |out|
      ensures IsFloorMean(out[k], xs[3 * k], xs[3 * k + 1], xs[3 * k + 2])
    {
      Mean3Floors(xs[3 * k], xs[3 * k + 1], xs[3 * k + 2]);
    }
  }

  // --- why the streamed form may stop and resume -------------------------------------

  /** The last 62 samples heard, silence before the first. */
  function Tail(xs: seq<int>): (t: seq<int>)
    ensures |t| == TAPS - 1
  {
    (Silence() + xs)[|xs|..]
  }

  /** How far the next output lies beyond position `n`. */
  function PhaseAt(n: int): (p: nat)
    ensures p < DECIM
  {
    (-n) % 3
  }

  function StrideCount(n: nat, phase: nat): nat {
    if phase < n then Ceil3(n - phase) else 0
  }

  /** The only modular arithmetic: positions a, a + 1, ..., a + n - 1 hold the multiples of three
      that the phase says they hold. */
  lemma {:induction false} PhaseArithmetic(a: nat, n: nat)
    ensures a + PhaseAt(a) == 3 * Ceil3(a)
    ensures Ceil3(a + n) == Ceil3(a) + StrideCount(n, PhaseAt(a))
    ensures PhaseAt(a + n) == (PhaseAt(a) - n) % 3
  {
    hide PhaseAt, Ceil3, StrideCount;
    Rounding(a);
    StridesCount(a, n);
    PhaseMoves(a, n);
  }

  lemma {:induction false} Ceil3Is(m: nat, q: int)
    requires 3 * q - 2 <= m <= 3 * q
    ensures Ceil3(m) == q
  {
  }

  lemma {:induction false} StridesCount(a: nat, n: nat)
    ensures Ceil3(a + n) == Ceil3(a) + StrideCount(n, PhaseAt(a))
  {
    hide PhaseAt, Ceil3;
    Rounding(a);
    var p := PhaseAt(a);
    if p < n {
      Rounding(n - p);
      Ceil3Is(a + n, Ceil3(a) + Ceil3(n - p));
    } else {
      Ceil3Is(a + n, Ceil3(a));
    }
  }

  lemma {:induction false} ModIs(x: int, r: int, q: int)
    requires x == 3 * q + r && 0 <= r < 3
    ensures x % 3 == r
  {
  }

  lemma {:induction false} PhaseMoves(a: nat, n: nat)
    ensures PhaseAt(a + n) == (PhaseAt(a) - n) % 3
  {
    var b: int := a;
    var q := (-b) / 3;
    var p := PhaseAt(a);
    assert -b == 3 * q + p;
    hide PhaseAt;
    var x := p - n;
    assert x == 3 * (x / 3) + x % 3;
    PhaseIs(a + n, x % 3, q + x / 3);
  }

  lemma {:induction false} PhaseIs(m: int, r: int, q: int)
    requires -m == 3 * q + r && 0 <= r < 3
    ensures PhaseAt(m) == r
  {
    ModIs(-m, r, q);
  }

  lemma {:induction false} Rounding(m: int)
    ensures 0 <= PhaseAt(m) <= 2 && exists q :: m + PhaseAt(m) == 3 * q
    ensures m >= 0 ==> m + PhaseAt(m) == 3 * Ceil3(m)
    ensures PhaseAt(m) == (-m) % 3
  {
    assert m + PhaseAt(m) == 3 * -((-m) / 3);
  }

  /** If `buf` is the padded stream from position `a` on, the strided convolution of `buf` is
      exactly the next stretch of output. */
  lemma {:induction false} Resume(kernel: Kernel, xs: seq<int>, a: nat, buf: seq<int>, n: nat)
    requires |buf| == n + TAPS - 1 && n >= 1 && a + n <= |xs| + TAPS - 1
    requires buf == Padded(xs)[a..a + |buf|]
    ensures FirOutputs(kernel, xs, a + n)
         == FirOutputs(kernel, xs, a) + ClipAll(Strided(Convolve(kernel, buf), PhaseAt(a)))
  {
    hide Conv, Clip, Ceil3, PhaseAt, Padded;
    PhaseArithmetic(a, n);
    var y := Convolve(kernel, buf);
    var p := PhaseAt(a);
    var next := ClipAll(Strided(y, p));
    forall k | 0 <= k < |next|
      ensures FirOutputs(kernel, xs, a + n)[Ceil3(a) + k] == next[k]
    {
      var i := p + 3 * k;
      StrideInRange(n, p, k);
      assert 3 * (Ceil3(a) + k) == a + i;
      Slices(Padded(xs), a, a + |buf|, i, i + TAPS);
    }
    assert FirOutputs(kernel, xs, a) == FirOutputs(kernel, xs, a + n)[..Ceil3(a)];
  }

  lemma {:induction false} Slices<T>(s: seq<T>, lo: nat, hi: nat, i: nat, j: nat)
    requires lo <= hi <= |s| && i <= j <= hi - lo
    ensures s[lo..hi][i..j] == s[lo + i..lo + j]
  {
    var l, r := s[lo..hi][i..j], s[lo + i..lo + j];
    forall k | 0 <= k < j - i
      ensures l[k] == r[k]
    {
      assert l[k] == s[lo..hi][i + k] == s[lo + (i + k)];
    }
    assert l == r;
  }

  lemma {:induction false} StrideInRange(n: nat, phase: nat, k: nat)
    requires k < StrideCount(n, phase)
    ensures phase + 3 * k < n
  {
  }

  /** Later samples do not change an output whose window lies in the past. */
  lemma {:induction false} EarlierOutputsStand(kernel: Kernel, xs: seq<int>, more: seq<int>)
    ensures FirOutputs(kernel, xs + more, |xs|) == FirOutputs(kernel, xs, |xs|)
  {
    hide Conv, Clip;
    forall k | 0 <= k < Ceil3(|xs|)
      ensures Window(xs + more, 3 * k) == Window(xs, 3 * k)
    {
    }
  }

  lemma {:induction false} FeedStep(kernel: Kernel, xs: seq<int>, x: seq<int>)
    requires x != []
    ensures FirOutputs(kernel, xs + x, |xs + x|) == FirOutputs(kernel, xs, |xs|)
         + ClipAll(Strided(Convolve(kernel, Tail(xs) + x), PhaseAt(|xs|)))
  {
    hide Conv, Clip, FirOutputs, Convolve, Strided, ClipAll, PhaseAt;
    var buf := Tail(xs) + x;
    assert buf == Padded(xs + x)[|xs|..|xs| + |buf|];
    Resume(kernel, xs + x, |xs|, buf, |x|);
    EarlierOutputsStand(kernel, xs, x);
  }

  /** The carried state after the step. */
  lemma {:induction false} CarryStep(xs: seq<int>, x: seq<int>)
    ensures Tail(xs + x) == (Tail(xs) + x)[|x|..]
    ensures PhaseAt(|xs + x|) == (PhaseAt(|xs|) - |x|) % 3
  {
    PhaseArithmetic(|xs|, |x|);
  }

  lemma {:induction false} FlushStep(kernel: Kernel, xs: seq<int>)
    ensures FirOutputs(kernel, xs, |xs| + TAPS - 1) == FirOutputs(kernel, xs, |xs|)
         + ClipAll(Strided(Convolve(kernel, Tail(xs) + Silence()), PhaseAt(|xs|)))
  {
    hide Conv, Clip, FirOutputs, Convolve, Strided, ClipAll, PhaseAt;
    var buf := Tail(xs) + Silence();
    assert buf == Padded(xs)[|xs|..|xs| + |buf|];
    Resume(kernel, xs, |xs|, buf, TAPS - 1);
  }

  /** The box fallback: whole groups of the carried remainder plus the new samples. */
  lemma {:induction false} BoxStep(xs: seq<sample>, x: seq<sample>)
    ensures var done := 3 * (|xs| / 3); var buf := xs[done..] + x;
      && |xs + x| / 3 == |xs| / 3 + |buf| / 3
      && BoxOutputs(xs + x, |xs + x| / 3) == BoxOutputs(xs, |xs| / 3) + BoxOutputs(buf, |buf| / 3)
  {
    hide Mean3;
    var g := |xs| / 3;
    var buf := xs[3 * g..] + x;
    var h := |buf| / 3;
    assert |xs + x| / 3 == g + h;
    assert xs + x == xs[..3 * g] + buf;
    BoxConcat(xs[..3 * g], buf, g, h);
    assert BoxOutputs(xs[..3 * g], g) == BoxOutputs(xs, g);
  }

  lemma {:induction false} BoxConcat(a: seq<sample>, b: seq<sample>, g: nat, h: nat)
    requires |a| == 3 * g && 3 * h <= |b|
    ensures BoxOutputs(a + b, g + h) == BoxOutputs(a, g) + BoxOutputs(b, h)
  {
    hide Mean3;
    forall k | 0 <= k < h
      ensures BoxOutputs(a + b, g + h)[g + k] == BoxOutputs(b, h)[k]
    {
      assert 3 * (g + k) == |a| + 3 * k;
    }
  }

  /** The half sample at the end of an odd number of bytes. */
  function OddByte(data: bytes): bytes { data[2 * (|data| / 2)..] }

  lemma {:induction false} OddByteCases(data: bytes)
    ensures |data| % 2 == 1 ==> OddByte(data) == data[|data| - 1..] && 2 * (|data| / 2) == |data| - 1
    ensures |data| % 2 == 0 ==> OddByte(data) == [] && 2 * (|data| / 2) == |data|
  {
  }

  /** Carrying the half sample into the next chunk cuts the stream between two samples. */
  lemma {:induction false} CarryHalfSample(fed: bytes, chunk: bytes)
    ensures var data := OddByte(fed) + chunk; var whole := data[..2 * (|data| / 2)];
      && Samples(fed + chunk) == Samples(fed) + Samples(whole)
      && OddByte(fed + chunk) == OddByte(data)
      && (fed + chunk)[..2 * (|fed + chunk| / 2)] == fed[..2 * (|fed| / 2)] + whole
  {
    var even := fed[..2 * (|fed| / 2)];
    var data := OddByte(fed) + chunk;
    var whole := data[..2 * (|data| / 2)];
    assert fed == even + OddByte(fed);
    Associate(even, OddByte(fed), chunk);
    EvenPart(even, data);
    EvenPart(even, OddByte(fed));
    SamplesAppend(even, whole);
    SamplesOfEvenPart(fed);
    SamplesOfEvenPart(fed + chunk);
  }

  lemma {:induction false} EvenPart(a: bytes, b: bytes)
    requires |a| % 2 == 0
    ensures (a + b)[..2 * (|a + b| / 2)] == a + b[..2 * (|b| / 2)] && OddByte(a + b) == OddByte(b)
  {
    assert 2 * (|a + b| / 2) == |a| + 2 * (|b| / 2);
  }

  lemma {:induction false} SamplesOfEvenPart(data: bytes)
    ensures Samples(data[..2 * (|data| / 2)]) == Samples(data)
  {
  }

  lemma {:induction false} FirFeed(kernel: Kernel, fed: bytes, fed': bytes, x: seq<sample>)
    requires Samples(fed') == Samples(fed) + x && x != []
    ensures var xs := Samples(fed);
      Determined(kernel, true, fed') == Determined(kernel, true, fed)
        + EncodeSamples(ClipAll(Strided(Convolve(kernel, Tail(xs) + x), PhaseAt(|xs|))))
  {
    hide FirOutputs, EncodeSamples, Convolve, Strided, ClipAll, Tail, PhaseAt, Samples;
    var xs := Samples(fed);
    FeedStep(kernel, xs, x);
    EncodeSamplesAppend(FirOutputs(kernel, xs, |xs|), ClipAll(Strided(Convolve(kernel, Tail(xs) + x), PhaseAt(|xs|))));
  }

  lemma {:induction false} FirFlush(kernel: Kernel, fed: bytes)
    ensures var xs := Samples(fed);
      Decimate(kernel, true, fed) == Determined(kernel, true, fed)
        + EncodeSamples(ClipAll(Strided(Convolve(kernel, Tail(xs) + Silence()), PhaseAt(|xs|))))
  {
    hide FirOutputs, EncodeSamples, Convolve, Strided, ClipAll, Tail, PhaseAt, Samples;
    var xs := Samples(fed);
    FlushStep(kernel, xs);
    EncodeSamplesAppend(FirOutputs(kernel, xs, |xs|), ClipAll(Strided(Convolve(kernel, Tail(xs) + Silence()), PhaseAt(|xs|))));
  }

  /** The bytes of the whole samples not yet in a full group of three. */
  function Ungrouped(fed: bytes): (r: bytes)
    ensures |r| % 2 == 0
  {
    fed[6 * (|fed| / 2 / 3)..2 * (|fed| / 2)]
  }

  lemma {:induction false} UngroupedSamples(fed: bytes)
    ensures Samples(Ungrouped(fed)) == Samples(fed)[3 * (|fed| / 2 / 3)..]
  {
    var u := Ungrouped(fed);
    var g := |fed| / 2 / 3;
    forall i | 0 <= i < |u| / 2
      ensures Samples(u)[i] == Samples(fed)[3 * g + i]
    {
      assert u[2 * i] == fed[6 * g + 2 * i] && u[2 * i + 1] == fed[6 * g + 2 * i + 1];
    }
  }

  lemma {:induction false} UngroupedStep(fed: bytes, fed': bytes, data: bytes)
    requires |data| % 2 == 0
    requires fed'[..2 * (|fed'| / 2)] == fed[..2 * (|fed| / 2)] + data
    ensures var buf := Ungrouped(fed) + data; Ungrouped(fed') == buf[6 * (|buf| / 2 / 3)..]
  {
    hide Samples;
    var buf := Ungrouped(fed) + data;
    var g := |fed| / 2 / 3;
    assert |fed'| / 2 == |fed| / 2 + |data| / 2;
    assert |fed'| / 2 / 3 == g + |buf| / 2 / 3;
    assert fed'[..2 * (|fed'| / 2)] == fed[..6 * g] + buf;
    assert Ungrouped(fed') == (fed[..6 * g] + buf)[6 * g + 6 * (|buf| / 2 / 3)..];
  }

  lemma {:induction false} DeterminedByBox(kernel: Kernel, fed: bytes)
    ensures Determined(kernel, false, fed) == EncodeSamples(BoxOutputs(Samples(fed), |Samples(fed)| / 3))
    ensures Decimate(kernel, false, fed) == EncodeSamples(BoxOutputs(PadToGroup(Samples(fed)), Ceil3(|Samples(fed)|)))
  {
  }

  lemma {:induction false} BoxFeed(kernel: Kernel, fed: bytes, fed': bytes, data: bytes)
    requires |data| % 2 == 0 && Samples(fed') == Samples(fed) + Samples(data)
    ensures var buf := Samples(Ungrouped(fed) + data);
      Determined(kernel, false, fed') == Determined(kernel, false, fed) + EncodeSamples(BoxOutputs(buf, |buf| / 3))
  {
    hide *;
    var xs, buf := Samples(fed), Samples(Ungrouped(fed) + data);
    UngroupedSamples(fed);
    SamplesAppend(Ungrouped(fed), data);
    BoxStep(xs, Samples(data));
    EncodeSamplesAppend(BoxOutputs(xs, |xs| / 3), BoxOutputs(buf, |buf| / 3));
    DeterminedByBox(kernel, fed);
    DeterminedByBox(kernel, fed');
  }

  lemma {:induction false} PadIsSilence(xs: seq<sample>, k: nat)
    requires k == (-|xs|) % 3
    ensures Samples(Zeros(2 * k)) == PadToGroup(xs)[|xs|..]
    ensures |PadToGroup(xs)| / 3 == Ceil3(|xs|)
  {
    assert 3 * Ceil3(|xs|) - |xs| == k;
    assert |Samples(Zeros(2 * k))| == k;
  }

  lemma {:induction false} BoxFlush(kernel: Kernel, fed: bytes, pad: nat)
    requires pad == (-|Ungrouped(fed)|) % 6
    ensures var full := Samples(Ungrouped(fed) + Zeros(pad));
      Decimate(kernel, false, fed) == Determined(kernel, false, fed) + EncodeSamples(BoxOutputs(full, |full| / 3))
  {
    var xs := Samples(fed);
    UngroupedSamples(fed);
    assert |Ungrouped(fed)| == 2 * (|xs| - 3 * (|xs| / 3));
    var k := (-|xs|) % 3;
    assert pad == 2 * k;
    hide *;
    PadIsSilence(xs, k);
    SamplesAppend(Ungrouped(fed), Zeros(pad));
    BoxStep(xs, Samples(Zeros(pad)));
    assert PadToGroup(xs) == xs + Samples(Zeros(pad));
    var full := Samples(Ungrouped(fed) + Zeros(pad));
    EncodeSamplesAppend(BoxOutputs(xs, |xs| / 3), BoxOutputs(full, |full| / 3));
    DeterminedByBox(kernel, fed);
  }

  /** A chunk that completes no sample determines nothing. */
  lemma {:induction false} HalfSampleOnly(kernel: Kernel, numpy: bool, fed: bytes, fed': bytes)
    requires Samples(fed') == Samples(fed) + Samples([])
    ensures Samples(fed') == Samples(fed)
    ensures Determined(kernel, numpy, fed') == Determined(kernel, numpy, fed)
    ensures fed'[..2 * (|fed'| / 2)] == fed[..2 * (|fed| / 2)] + [] ==> Ungrouped(fed') == Ungrouped(fed)
  {
    assert Samples([]) == [];
    UngroupedPrefix(fed);
    UngroupedPrefix(fed');
  }

  lemma {:induction false} UngroupedPrefix(fed: bytes)
    ensures Ungrouped(fed) == Ungrouped(fed[..2 * (|fed| / 2)])
  {
  }

  lemma {:induction false} OddByteOnly(fed: bytes)
    ensures Samples(OddByte(fed)) == [] && Ungrouped(OddByte(fed)) == []
    ensures OddByte(OddByte(fed)) == OddByte(fed)
    ensures Tail([]) == Silence() && PhaseAt(0) == 0
  {
  }

  lemma {:induction false} SomeSamples(data: bytes)
    requires |data| >= 2
    ensures Samples(data) != []
  {
  }

  lemma {:induction false} WholeGroups(buf: bytes, groups: nat)
    requires 6 * groups <= |buf|
    ensures |Samples(buf[..6 * groups])| / 3 == groups
    ensures BoxOutputs(Samples(buf[..6 * groups]), groups) == BoxOutputs(Samples(buf), groups)
    ensures groups == 0 ==> EncodeSamples(BoxOutputs(Samples(buf), 0)) == []
  {
    hide Mean3;
    assert Samples(buf[..6 * groups]) == Samples(buf)[..3 * groups];
  }

  // --- the source's class ------------------------------------------------------------

  lemma {:induction false} NoGroup(xs: seq<sample>)
    ensures EncodeSamples(BoxOutputs(xs, 0)) == []
  {
  }

  /** The loop of `_box`: one 16-bit mean for every three samples. */
  method Box(pcm24: bytes) returns (out: bytes)
    ensures out == EncodeSamples(BoxOutputs(Samples(pcm24), |Samples(pcm24)| / 3))
  {
    hide EncodeSamples, Mean3, Samples;
    out := [];
    var n := |pcm24| / 2;
    var s := Samples(pcm24);
    NoGroup(s);
    if n == 0 { return; }
    var i := 0;
    ghost var g := 0;
    while i < n - 2
      invariant i == 3 * g && 0 <= i <= n
      invariant out == EncodeSamples(BoxOutputs(s, g))
    {
      var m := Mean3(s[i], s[i + 1], s[i + 2]);
      assert BoxOutputs(s, g + 1) == BoxOutputs(s, g) + [m];
      EncodeSamplesAppend(BoxOutputs(s, g), [m]);
      out := out + EncodeSamples([m]);
      i := i + DECIM;
      g := g + 1;
    }
    assert g == n / 3;
  }

  class Decimator {
    const kernel: Kernel
    const numpy: bool
    var phase: nat
    var byteRem: bytes
    var tail: seq<int>
    var rem: bytes
    // Every byte fed since the last flush, preceded by the half sample that flush left behind.
    ghost var fed: bytes

    ghost predicate Valid()
      reads this
    {
      && byteRem == OddByte(fed)
      && (numpy ==> tail == Tail(Samples(fed)) && phase == PhaseAt(|Samples(fed)|))
      && (!numpy ==> rem == Ungrouped(fed))
    }

    constructor (kernel: Kernel, numpy: bool)
      ensures Valid() && fed == [] && this.kernel == kernel && this.numpy == numpy
    {
      this.kernel, this.numpy := kernel, numpy;
      phase, byteRem, tail, rem, fed := 0, [], Silence(), [], [];
    }

    method Feed(pcm24: bytes) returns (out: bytes)
      requires Valid()
      modifies this
      ensures Valid() && fed == old(fed) + pcm24
      ensures Determined(kernel, numpy, fed) == Determined(kernel, numpy, old(fed)) + out
    {
      hide Samples, FirOutputs, BoxOutputs, Convolve, Strided, ClipAll, Conv, Tail, PhaseAt, Determined, Decimate, EncodeSamples, Ungrouped, OddByte;
      ghost var was := fed;
      CarryHalfSample(fed, pcm24);
      var data := byteRem + pcm24;
      OddByteCases(data);
      fed := fed + pcm24;
      if |data| % 2 == 1 {
        byteRem := data[|data| - 1..];
        data := data[..|data| - 1];
      } else {
        byteRem := [];
      }
      assert data == (old(byteRem) + pcm24)[..2 * (|old(byteRem) + pcm24| / 2)];
      if data == [] {
        HalfSampleOnly(kernel, numpy, was, fed);
        return [];
      }
      if !numpy {
        BoxFeed(kernel, was, fed, data);
        UngroupedStep(was, fed, data);
        out := FeedBox(data);
        return;
      }
      var x := Samples(data);
      SomeSamples(data);
      CarryStep(Samples(was), x);
      FirFeed(kernel, was, fed, x);
      out := FeedFilter(x);
    }

    /** The filter's part of `feed`. With a full tail and at least one sample the source's early return for a
        short buffer is never taken. */
    method FeedFilter(x: seq<sample>) returns (out: bytes)
      requires |tail| == TAPS - 1 && phase < DECIM && x != []
      modifies this`tail, this`phase
      ensures out == EncodeSamples(ClipAll(Strided(Convolve(kernel, old(tail) + x), old(phase))))
      ensures tail == (old(tail) + x)[|x|..] && phase == (old(phase) - |x|) % 3
    {
      hide Convolve, Strided, ClipAll, EncodeSamples;
      var buf := tail + x;
      assert TAPS <= |buf|;
      var y := Convolve(kernel, buf);
      out := EncodeSamples(ClipAll(Strided(y, phase)));
      phase := (phase - |y|) % DECIM;
      tail := buf[|buf| - (TAPS - 1)..];
    }

    method FeedBox(pcm24: bytes) returns (out: bytes)
      requires |pcm24| % 2 == 0 && |rem| % 2 == 0
      modifies this`rem
      ensures var buf := old(rem) + pcm24;
        && rem == buf[6 * (|buf| / 2 / 3)..]
        && out == EncodeSamples(BoxOutputs(Samples(buf), |Samples(buf)| / 3))
    {
      hide Samples, BoxOutputs, EncodeSamples;
      var buf := rem + pcm24;
      var groups := |buf| / 2 / DECIM;
      var used := groups * DECIM * 2;
      rem := buf[used..];
      WholeGroups(buf, groups);
      if used == 0 { return []; }
      out := Box(buf[..used]);
    }

    /** Drains the filter. A half sample stays behind: it is not cleared, so a flushed object
        behaves like a new one exactly when an even number of bytes was fed. */
    method Flush() returns (out: bytes)
      requires Valid()
      modifies this
      ensures Valid() && fed == OddByte(old(fed))
      ensures Decimate(kernel, numpy, old(fed)) == Determined(kernel, numpy, old(fed)) + out
    {
      hide Samples, FirOutputs, BoxOutputs, Convolve, Strided, ClipAll, Conv, Tail, PhaseAt, Determined, Decimate, EncodeSamples, Ungrouped;
      ghost var was := fed;
      OddByteOnly(fed);
      fed := OddByte(fed);
      if !numpy {
        var pad := (-|rem|) % (DECIM * 2);
        BoxFlush(kernel, was, pad);
        out := Box(rem + Zeros(pad));
        rem := [];
        return;
      }
      FirFlush(kernel, was);
      var buf := tail + Silence();
      tail := Silence();
      var y := Convolve(kernel, buf);
      out := EncodeSamples(ClipAll(Strided(y, phase)));
      phase := 0;
    }
  }

  lemma {:induction false} NothingDetermined(kernel: Kernel, numpy: bool)
    ensures Determined(kernel, numpy, []) == []
  {
  }

  /** `decimate`: feed everything, then flush. */
  method DecimateOnce(kernel: Kernel, numpy: bool, pcm24: bytes) returns (out: bytes)
    ensures out == Decimate(kernel, numpy, pcm24)
  {
    hide *;
    NothingDetermined(kernel, numpy);
    var d := new Decimator(kernel, numpy);
    var head := d.Feed(pcm24);
    var rest := d.Flush();
    assert [] + pcm24 == pcm24;
    out := head + rest;
  }

  /** A streamed synthesis: whatever the chunking, the audio is that of the whole input. */
  method DecimateChunks(kernel: Kernel, numpy: bool, chunks: seq<bytes>) returns (out: bytes)
    ensures out == Decimate(kernel, numpy, Flatten(chunks))
  {
    var d := new Decimator(kernel, numpy);
    out := [];
    for i := 0 to |chunks|
      invariant d.Valid() && fresh(d) && d.kernel == kernel && d.numpy == numpy
      invariant d.fed == Flatten(chunks[..i])
      invariant out == Determined(kernel, numpy, d.fed)
    {
      FlattenTake(chunks, i);
      var piece := d.Feed(chunks[i]);
      out := out + piece;
    }
    assert chunks[..|chunks|] == chunks;
    var rest := d.Flush();
    out := out + rest;
  }
}
