/** The sidebar spectrum visualizer (frontend/src/components/sidebar/left-visualizer.tsx):
    a single animation loop that draws live frequency bars from the shared
    analyser, or a synthetic animation when it has none to sample. */
module LeftVisualizer {
  import opened Base
  import opened PlayerStore

  /** An unsigned 8-bit sample, as held by a Uint8Array. */
  newtype byte = x: int | 0 <= x < 256

  /** `window.devicePixelRatio || 1`: a zero ratio falls back to 1. */
  function PixelRatio(raw: real): (dpr: real)
    ensures dpr != 0.0
    ensures raw != 0.0 ==> dpr == raw
    ensures raw == 0.0 ==> dpr == 1.0
  {
    if raw != 0.0 then raw else 1.0
  }

  /** The number of bars on a canvas `w` device pixels wide: one per 12 CSS
      pixels, never fewer than 24 nor more than 48. */
  function BarCount(w: int, dpr: real): (n: int)
    requires dpr != 0.0
    ensures 24 <= n <= 48
    ensures 24 <= (w as real / (12.0 * dpr)).Floor <= 48 ==> n == (w as real / (12.0 * dpr)).Floor
    ensures (w as real / (12.0 * dpr)).Floor < 24 ==> n == 24
    ensures (w as real / (12.0 * dpr)).Floor > 48 ==> n == 48
  {
    MinInt(48, MaxInt(24, (w as real / (12.0 * dpr)).Floor))
  }

  /** A wider canvas never gets fewer bars. */
  lemma BarCountMonotone(w1: int, w2: int, dpr: real)
    requires dpr > 0.0 && w1 <= w2
    ensures BarCount(w1, dpr) <= BarCount(w2, dpr)
  {
    var d := 12.0 * dpr;
    assert w2 as real / d - w1 as real / d == (w2 - w1) as real / d;
  }

  /** The clamped sample interval [s, e) of one bar, from the raw logarithmic
      bounds `start` and `end` and the last bin index `maxIndex`. */
  function ClampBucket(start: int, end: int, maxIndex: int): (b: (int, int))
    ensures b.0 + 1 <= b.1
    ensures maxIndex >= 2 ==> 1 <= b.0 && b.1 <= maxIndex
    ensures 1 <= start < end <= maxIndex ==> b == (start, end)
  {
    var s := MaxInt(1, MinInt(start, maxIndex - 1));
    var e := MaxInt(s + 1, MinInt(end, maxIndex));
    (s, e)
  }

  /** `freq[j] || 0`: a read outside the buffer yields 0. */
  function BinAt(freq: seq<byte>, j: int): int {
    if 0 <= j < |freq| then freq[j] as int else 0
  }

  /** The sum of the samples at indices s .. e-1. */
  function SumRange(freq: seq<byte>, s: int, e: int): int
    decreases e - s
  {
    if s >= e then 0 else SumRange(freq, s, e - 1) + BinAt(freq, e - 1)
  }

  /** Every sample is at most 255, so a sum over n indices is at most 255 n. */
  lemma {:induction false} SumRangeBounds(freq: seq<byte>, s: int, e: int)
    requires s <= e
    ensures 0 <= SumRange(freq, s, e) <= 255 * (e - s)
    decreases e - s
  {
    if s < e {
      SumRangeBounds(freq, s, e - 1);
    }
  }

  /** A bar's height fraction: the bucket's mean magnitude over 255, clamped
      to [0, 1]. */
  function Level(sum: int, count: int): (level: real)
    requires count >= 1
    ensures 0.0 <= level <= 1.0
  {
    Min(1.0, Max(0.0, (sum as real / count as real) / 255.0))
  }

  /** For a genuine bucket sum the clamp is inactive: the level is exactly the
      mean sample divided by 255. */
  lemma LevelIsMean(sum: int, count: int)
    requires count >= 1 && 0 <= sum <= 255 * count
    ensures Level(sum, count) * 255.0 * (count as real) == sum as real
  {
    var m := sum as real / count as real;
    assert count as real > 0.0;
    assert m * count as real == sum as real;
    assert m <= 255.0 by {
      var c := count as real;
      assert (255.0 - m) * c == 255.0 * c - sum as real >= 0.0;
    }
    assert 0.0 <= m;
    assert Level(sum, count) == m / 255.0;
  }

  /** The level of bar `i`; `edges(i)` stands for the logarithmic bin bound
      `Math.floor(Math.pow(maxIndex, i / BAR_COUNT))`. */
  function BarLevel(freq: seq<byte>, edges: int -> int, i: int): (level: real)
    ensures 0.0 <= level <= 1.0
  {
    var b := ClampBucket(edges(i), edges(i + 1), |freq| - 1);
    Level(SumRange(freq, b.0, b.1), b.1 - b.0)
  }

  /** On a buffer of at least 3 bins every bar reads only samples at indices
      1 .. |freq|-2 and its level is their mean over 255. */
  lemma BarLevelIsBucketMean(freq: seq<byte>, edges: int -> int, i: int)
    requires |freq| >= 3
    ensures var b := ClampBucket(edges(i), edges(i + 1), |freq| - 1);
      1 <= b.0 < b.1 <= |freq| - 1 &&
      BarLevel(freq, edges, i) * 255.0 * ((b.1 - b.0) as real) == SumRange(freq, b.0, b.1) as real
  {
    var b := ClampBucket(edges(i), edges(i + 1), |freq| - 1);
    SumRangeBounds(freq, b.0, b.1);
    LevelIsMean(SumRange(freq, b.0, b.1), b.1 - b.0);
  }

  /** The inner summation loop of one bar. */
  method BucketSum(freq: array<byte>, s: int, e: int) returns (sum: int)
    ensures sum == SumRange(freq[..], s, e)
  {
    sum := 0;
    if s >= e {
      return;
    }
    var j := s;
    while j < e
      invariant s <= j <= e
      invariant sum == SumRange(freq[..], s, j)
      decreases e - j
    {
      sum := sum + (if 0 <= j < freq.Length then freq[j] as int else 0);
      j := j + 1;
    }
  }

  /** The levels of all `barCount` live bars of one frame. */
  method SampleBars(freq: array<byte>, barCount: int, edges: int -> int) returns (levels: seq<real>)
    requires barCount >= 0
    ensures |levels| == barCount
    ensures forall i :: 0 <= i < barCount ==> levels[i] == BarLevel(freq[..], edges, i)
  {
    levels := [];
    var maxIndex := freq.Length - 1;
    for i := 0 to barCount
      invariant |levels| == i
      invariant forall k :: 0 <= k < i ==> levels[k] == BarLevel(freq[..], edges, k)
    {
      var b := ClampBucket(edges(i), edges(i + 1), maxIndex);
      var sum := BucketSum(freq, b.0, b.1);
      levels := levels + [Level(sum, b.1 - b.0)];
    }
  }

  /** Half the tallest bar: 90% of the capsule, which is 70% of the canvas height. */
  function MaxBarHalfHeight(h: real): real {
    (h * 0.7 * 0.9) / 2.0
  }

  /** A live bar, drawn `level * maxBarH` above and below the centre line,
      stays within 90% of the capsule height. */
  lemma LiveBarFitsCapsule(level: real, h: real)
    requires 0.0 <= level <= 1.0 && h >= 0.0
    ensures 0.0 <= 2.0 * (level * MaxBarHalfHeight(h)) <= 0.9 * (h * 0.7)
  {
    var m := MaxBarHalfHeight(h);
    assert 0.0 <= m;
    assert level * m <= m by {
      assert (1.0 - level) * m >= 0.0;
    }
  }

  /** `sharedAnalyser || analyserRef.current || null`: the shared analyser
      wins, the component's own one is the fallback. */
  function ResolveAnalyser(shared: Option<AnalyserNode>, local: Option<AnalyserNode>): (r: Option<AnalyserNode>)
    ensures r.Some? <==> shared.Some? || local.Some?
    ensures shared.Some? ==> r == shared
    ensures shared.None? ==> r == local
  {
    if shared.Some? then shared else local
  }

  /** What a started loop captured from the render that started it. */
  datatype LoopClosure = LoopClosure(shared: Option<AnalyserNode>, fallbackMode: bool)

  /** `analyser && !fallbackMode` in `draw`: the loop samples the analyser.
      The component's own analyser reference is never assigned, so only the
      shared analyser can be resolved. */
  predicate SamplesLive(c: LoopClosure) {
    ResolveAnalyser(c.shared, None).Some? && !c.fallbackMode
  }

  /** The loop the dependency effect starts, as written: it captures the
      fallback mode of the render, not the one the effect has just requested. */
  function DepsClosure(renderFallback: bool, shared: Option<AnalyserNode>): LoopClosure {
    LoopClosure(shared, renderFallback)
  }

  /** The loop the dependency effect starts when it hands over the mode it
      requests (fallback exactly when no analyser is shared). */
  function DepsClosureFresh(shared: Option<AnalyserNode>): LoopClosure {
    LoopClosure(shared, shared.None?)
  }

  /** As written, a loop started for a shared analyser samples it only when
      the render that started it was not already in fallback mode. */
  lemma DepsClosureSamplesIff(renderFallback: bool, shared: Option<AnalyserNode>)
    ensures SamplesLive(DepsClosure(renderFallback, shared)) <==> shared.Some? && !renderFallback
  {
  }

  /** The discrepancy: an analyser appearing while the rendered mode is still
      fallback gets a loop that ignores it. */
  lemma StaleClosureIgnoresAnalyser(a: AnalyserNode)
    ensures !SamplesLive(DepsClosure(true, Some(a)))
  {
  }

  /** Corrected, the loop samples live data exactly when an analyser is shared. */
  lemma FreshClosureSamplesIffShared(shared: Option<AnalyserNode>)
    ensures SamplesLive(DepsClosureFresh(shared)) <==> shared.Some?
  {
  }

  /** What one call of `draw` paints. */
  datatype DrawnFrame =
    | LiveBars(levels: seq<real>)
    | FallbackBars(step: nat, bars: int)

  /** The component's drawing state. */
  class Visualizer {
    /** The `fallbackMode` state as last set. */
    var fallbackMode: bool
    /** The `fallbackMode` seen by the render whose effects run next. */
    var renderFallback: bool
    /** `cleanupRef.current != null`. */
    var cleanupRegistered: bool
    /** Animation loops that still have a frame scheduled. */
    var liveLoops: nat
    /** What the most recently started loop captured. */
    var closure: Option<LoopClosure>
    /** That loop's frequency buffer `freq`; null when it started without an analyser. */
    var freq: array?<byte>
    /** That loop's fallback phase `t`, counted in steps of 0.02. */
    var phase: nat

    /** At most one loop runs, and a running loop can be cancelled. */
    ghost predicate Valid()
      reads this
    {
      liveLoops <= 1 && (liveLoops == 1 ==> cleanupRegistered && closure.Some?)
    }

    /** The component before its first commit: `useState(false)`, no loop. */
    constructor ()
      ensures Valid()
      ensures !fallbackMode && !renderFallback && !cleanupRegistered && liveLoops == 0
    {
      fallbackMode := false;
      renderFallback := false;
      cleanupRegistered := false;
      liveLoops := 0;
      closure := None;
      freq := null;
      phase := 0;
    }

    /** A re-render: effects that run after it see the current state. */
    method Rerender()
      modifies this`renderFallback
      ensures renderFallback == fallbackMode
    {
      renderFallback := fallbackMode;
    }

    /** The registered cleanup: cancels the scheduled frame; the reference
        itself stays set. */
    method CancelLoop()
      requires Valid()
      modifies this`liveLoops
      ensures Valid() && liveLoops == 0
    {
      if cleanupRegistered {
        liveLoops := 0;
      }
    }

    /** `startDrawing`: stop the previous loop, then start one that captures
        `shared` and `captured` when a canvas and a 2-D context exist. */
    method StartDrawing(shared: Option<AnalyserNode>, captured: bool, canvas: bool, ctx2d: bool)
      requires Valid()
      modifies this`cleanupRegistered, this`liveLoops, this`closure, this`freq, this`phase
      ensures Valid()
      ensures canvas && ctx2d ==>
        liveLoops == 1 && cleanupRegistered && closure == Some(LoopClosure(shared, captured)) && phase == 0
      ensures canvas && ctx2d && shared.Some? ==>
        freq != null && fresh(freq) && freq.Length == shared.value.binCount
      ensures canvas && ctx2d && shared.None? ==> freq == null
      ensures !(canvas && ctx2d) ==>
        liveLoops == 0 && !cleanupRegistered &&
        closure == old(closure) && freq == old(freq) && phase == old(phase)
    {
      CancelLoop();
      if !canvas || !ctx2d {
        cleanupRegistered := false;
        return;
      }
      var analyser := ResolveAnalyser(shared, None);
      if analyser.Some? {
        freq := new byte[analyser.value.binCount];
      } else {
        freq := null;
      }
      phase := 0;
      closure := Some(LoopClosure(shared, captured));
      liveLoops := liveLoops + 1;
      cleanupRegistered := true;
    }

    /** The effect on `[sharedAnalyser, track?.id, track?.url]`, as written;
        React first runs the previous run's cleanup. */
    method OnDepsChange(shared: Option<AnalyserNode>, canvas: bool, ctx2d: bool)
      requires Valid()
      modifies this`fallbackMode, this`cleanupRegistered, this`liveLoops, this`closure, this`freq, this`phase
      ensures Valid() && fallbackMode == shared.None?
      ensures canvas && ctx2d ==>
        liveLoops == 1 && closure == Some(DepsClosure(renderFallback, shared))
      ensures canvas && ctx2d && shared.Some? ==>
        freq != null && fresh(freq) && freq.Length == shared.value.binCount
      ensures canvas && ctx2d && shared.None? ==> freq == null
      ensures !(canvas && ctx2d) ==> liveLoops == 0 && !cleanupRegistered
    {
      CancelLoop();
      fallbackMode := shared.None?;
      StartDrawing(shared, renderFallback, canvas, ctx2d);
    }

    /** The same effect with the requested mode handed to the loop. */
    method OnDepsChangeFresh(shared: Option<AnalyserNode>, canvas: bool, ctx2d: bool)
      requires Valid()
      modifies this`fallbackMode, this`cleanupRegistered, this`liveLoops, this`closure, this`freq, this`phase
      ensures Valid() && fallbackMode == shared.None?
      ensures canvas && ctx2d ==>
        liveLoops == 1 && closure == Some(DepsClosureFresh(shared))
      ensures canvas && ctx2d && shared.Some? ==>
        freq != null && fresh(freq) && freq.Length == shared.value.binCount
      ensures canvas && ctx2d && shared.None? ==> freq == null
      ensures !(canvas && ctx2d) ==> liveLoops == 0 && !cleanupRegistered
    {
      CancelLoop();
      fallbackMode := shared.None?;
      StartDrawing(shared, shared.None?, canvas, ctx2d);
    }

    /** The mount-only effect: when no loop is registered, request fallback
        mode and start one. */
    method OnMount(shared: Option<AnalyserNode>, canvas: bool, ctx2d: bool)
      requires Valid()
      modifies this`fallbackMode, this`cleanupRegistered, this`liveLoops, this`closure, this`freq, this`phase
      ensures Valid()
      ensures old(cleanupRegistered) ==>
        fallbackMode == old(fallbackMode) && cleanupRegistered && liveLoops == old(liveLoops) &&
        closure == old(closure) && freq == old(freq) && phase == old(phase)
      ensures !old(cleanupRegistered) ==> fallbackMode
      ensures !old(cleanupRegistered) && canvas && ctx2d ==>
        liveLoops == 1 && closure == Some(LoopClosure(shared, renderFallback))
      ensures !old(cleanupRegistered) && !(canvas && ctx2d) ==> liveLoops == 0 && !cleanupRegistered
    {
      if !cleanupRegistered {
        fallbackMode := true;
        StartDrawing(shared, renderFallback, canvas, ctx2d);
      }
    }

    /** Unmounting runs both effects' cleanups: no loop keeps running. */
    method Unmount()
      requires Valid()
      modifies this`liveLoops
      ensures Valid() && liveLoops == 0
    {
      CancelLoop();
    }

    /** One call of `draw` on a canvas `w` device pixels wide; `spectrum` is
        what the analyser reports, one sample per bin. */
    method DrawFrame(w: int, dpr: real, spectrum: seq<byte>, edges: int -> int) returns (f: DrawnFrame)
      requires Valid() && liveLoops == 1 && dpr != 0.0
      requires closure.value.shared.Some? ==> |spectrum| == closure.value.shared.value.binCount
      modifies this`freq, this`phase, freq
      ensures Valid() && liveLoops == 1 && closure == old(closure)
      ensures f.LiveBars? <==> SamplesLive(closure.value)
      ensures f.LiveBars? ==>
        freq != null && freq[..] == spectrum && phase == old(phase) &&
        |f.levels| == BarCount(w, dpr) &&
        (forall i :: 0 <= i < |f.levels| ==> f.levels[i] == BarLevel(spectrum, edges, i))
      ensures f.FallbackBars? ==>
        f.step == phase == old(phase) + 1 && f.bars == BarCount(w, dpr) && freq == old(freq)
    {
      var barCount := BarCount(w, dpr);
      var analyser := ResolveAnalyser(closure.value.shared, None);
      if analyser.Some? && !closure.value.fallbackMode {
        var buf: array<byte>;
        if freq == null || freq.Length != analyser.value.binCount {
          buf := new byte[analyser.value.binCount];
          freq := buf;
        } else {
          buf := freq;
        }
        for k := 0 to buf.Length
          modifies buf
          invariant buf[..k] == spectrum[..k]
        {
          buf[k] := spectrum[k];
        }
        assert buf[..] == spectrum;
        var levels := SampleBars(buf, barCount, edges);
        f := LiveBars(levels);
      } else {
        phase := phase + 1;
        f := FallbackBars(phase, barCount);
      }
    }
  }

  /** Mounted while no analyser is shared, then the analyser appears: as
      written, the loop started for it still draws the fallback animation. */
  method StaleClosureScenario(a: AnalyserNode, w: int, spectrum: seq<byte>, edges: int -> int)
    returns (f: DrawnFrame)
    requires |spectrum| == a.binCount
    ensures f.FallbackBars?
  {
    var v := new Visualizer();
    v.OnDepsChange(None, true, true);
    v.OnMount(None, true, true);
    v.Rerender();
    v.OnDepsChange(Some(a), true, true);
    f := v.DrawFrame(w, 1.0, spectrum, edges);
  }

  /** The same sequence with the corrected effect draws live bars. */
  method FreshClosureScenario(a: AnalyserNode, w: int, spectrum: seq<byte>, edges: int -> int)
    returns (f: DrawnFrame)
    requires |spectrum| == a.binCount
    ensures f.LiveBars?
  {
    var v := new Visualizer();
    v.OnDepsChangeFresh(None, true, true);
    v.OnMount(None, true, true);
    v.Rerender();
    v.OnDepsChangeFresh(Some(a), true, true);
    f := v.DrawFrame(w, 1.0, spectrum, edges);
  }
}
