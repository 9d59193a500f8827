/** The transport bar (frontend/src/components/sound-bar.tsx): the playback
    controller, the Web Audio output graph and its routing policy, the waveform
    loop's lifecycle and the pure helpers it displays with. */
module SoundBar {
  import opened Base
  import opened PlayerStore

  // ---------------------------------------------------------------------------
  // Media error codes

  /** The name shown for a media error code (MediaError.code, absent when the
      element reports no error object). */
  function ErrorName(code: Option<int>): string {
    if code == Some(1) then "ABORTED"
    else if code == Some(2) then "NETWORK"
    else if code == Some(3) then "DECODE"
    else if code == Some(4) then "SRC_NOT_SUPPORTED"
    else "UNKNOWN"
  }

  /** The four standard codes, recovered from their names. */
  function StandardCode(name: string): Option<int> {
    if name == "ABORTED" then Some(1)
    else if name == "NETWORK" then Some(2)
    else if name == "DECODE" then Some(3)
    else if name == "SRC_NOT_SUPPORTED" then Some(4)
    else None
  }

  /** The standard codes 1 to 4 get pairwise distinct names that give the code
      back; every other code, and a missing one, is UNKNOWN. */
  lemma ErrorNameRoundTrip(code: Option<int>)
    ensures code.Some? && 1 <= code.value <= 4 ==> StandardCode(ErrorName(code)) == code
    ensures !(code.Some? && 1 <= code.value <= 4) <==> ErrorName(code) == "UNKNOWN"
    ensures ErrorName(code) in {"ABORTED", "NETWORK", "DECODE", "SRC_NOT_SUPPORTED", "UNKNOWN"}
  {
  }

  /** The message recorded by the error handler. */
  function AudioErrorMessage(code: Option<int>): (msg: string)
    ensures |msg| > |"Audio error: "| && msg[..|"Audio error: "|] == "Audio error: "
    ensures msg[|"Audio error: "|..] == ErrorName(code)
  {
    "Audio error: " + ErrorName(code)
  }

  /** The message recorded when both play attempts of the play button fail. */
  const PlaybackFailedMessage: string :=
    "Playback failed. Open the track in a new tab to verify it plays."

  // ---------------------------------------------------------------------------
  // formatTime

  /** Truncation toward zero, as JavaScript's `%` uses for its quotient. */
  function Trunc(x: real): int {
    if x >= 0.0 then x.Floor else -((-x).Floor)
  }

  /** JavaScript's `a % b` on numbers: the remainder of truncated division. */
  function JsRem(a: real, b: real): real
    requires b != 0.0
  {
    a - b * (Trunc(a / b) as real)
  }

  function DigitChar(d: int): char
    requires 0 <= d < 10
  {
    "0123456789"[d]
  }

  predicate IsDigit(c: char) {
    '0' <= c <= '9'
  }

  predicate AllDigits(s: string) {
    forall i :: 0 <= i < |s| ==> IsDigit(s[i])
  }

  /** Number.prototype.toString for a non-negative integer. */
  function NatToString(n: nat): string
    decreases n
  {
    if n < 10 then [DigitChar(n)] else NatToString(n / 10) + [DigitChar(n % 10)]
  }

  /** Number.prototype.toString for an integer. */
  function IntToString(i: int): string {
    if i < 0 then "-" + NatToString(-i) else NatToString(i)
  }

  /** String.prototype.padStart(2, "0"). */
  function PadStart2(s: string): string {
    if |s| >= 2 then s else seq(2 - |s|, _ => '0') + s
  }

  /** The "mm:ss" clock: Math.floor(time / 60) and Math.floor(time % 60),
      each padded to two characters. */
  function FormatTime(time: real): string {
    var minutes := (time / 60.0).Floor;
    var seconds := JsRem(time, 60.0).Floor;
    PadStart2(IntToString(minutes)) + ":" + PadStart2(IntToString(seconds))
  }

  /** The decimal value of a digit string. */
  function DigitsValue(s: string): int
    decreases |s|
  {
    if s == [] then 0
    else DigitsValue(s[..|s| - 1]) * 10 + ((s[|s| - 1] as int) - ('0' as int))
  }

  /** The index of the first occurrence of `c` in `s`, if any. */
  function IndexOf(s: string, c: char): (k: Option<nat>)
    ensures k.Some? ==> k.value < |s| && s[k.value] == c && c !in s[..k.value]
    ensures k.None? ==> c !in s
    decreases |s|
  {
    if s == [] then None
    else if s[0] == c then Some(0)
    else match IndexOf(s[1..], c)
      case None => None
      case Some(j) => assert s[..j + 1] == [s[0]] + s[1..][..j]; Some(j + 1)
  }

  /** Reads a "minutes:seconds" clock back into its two numbers. */
  function ParseClock(s: string): Option<(int, int)> {
    match IndexOf(s, ':')
    case None => None
    case Some(k) =>
      if k > 0 && AllDigits(s[..k]) && k + 1 < |s| && AllDigits(s[k + 1..])
      then Some((DigitsValue(s[..k]), DigitsValue(s[k + 1..])))
      else None
  }

  lemma DigitCharValue(d: int)
    requires 0 <= d < 10
    ensures IsDigit(DigitChar(d)) && (DigitChar(d) as int) - ('0' as int) == d
  {
  }

  lemma {:induction false} NatToStringDigits(n: nat)
    ensures |NatToString(n)| >= 1 && AllDigits(NatToString(n))
    ensures DigitsValue(NatToString(n)) == n
    decreases n
  {
    if n < 10 {
      DigitCharValue(n);
    } else {
      NatToStringDigits(n / 10);
      DigitCharValue(n % 10);
      var p := NatToString(n / 10);
      var s := p + [DigitChar(n % 10)];
      assert NatToString(n) == s;
      assert s[..|s| - 1] == p;
      assert s[|s| - 1] == DigitChar(n % 10);
      assert DigitsValue(s) == (n / 10) * 10 + n % 10;
    }
  }

  lemma {:induction false} LeadingZeroValue(s: string)
    ensures DigitsValue(['0'] + s) == DigitsValue(s)
    decreases |s|
  {
    if s != [] {
      assert (['0'] + s)[..|['0'] + s| - 1] == ['0'] + s[..|s| - 1];
      LeadingZeroValue(s[..|s| - 1]);
    }
  }

  /** Padding adds leading zeros only: the digits and their value survive. */
  lemma PadStart2Digits(n: nat)
    ensures |PadStart2(NatToString(n))| >= 2 && AllDigits(PadStart2(NatToString(n)))
    ensures DigitsValue(PadStart2(NatToString(n))) == n
  {
    var s := NatToString(n);
    NatToStringDigits(n);
    if |s| < 2 {
      assert PadStart2(s) == ['0'] + s;
      LeadingZeroValue(s);
    }
  }

  /** For a non-negative time the two JavaScript floors are the integer
      quotient and remainder of the whole seconds by 60. */
  lemma FloorsOfTime(time: real)
    requires time >= 0.0
    ensures (time / 60.0).Floor == time.Floor / 60
    ensures JsRem(time, 60.0).Floor == time.Floor % 60
  {
    var n := time.Floor;
    var q, r := n / 60, n % 60;
    assert n as real <= time < n as real + 1.0;
    assert n == 60 * q + r && 0 <= r < 60;
    assert q as real <= time / 60.0 < q as real + 1.0;
    assert Trunc(time / 60.0) == q;
    assert time - 60.0 * (q as real) == time - (60 * q) as real;
    assert (r as real) <= time - 60.0 * (q as real) < (r as real) + 1.0;
  }

  /** The clock of a non-negative time reads back as its whole minutes and its
      seconds within the minute: minutes * 60 + seconds is the whole number of
      seconds, and the seconds are below 60. */
  lemma FormatTimeRoundTrip(time: real)
    requires time >= 0.0
    ensures ParseClock(FormatTime(time)) == Some((time.Floor / 60, time.Floor % 60))
    ensures var c := ParseClock(FormatTime(time)).value;
      c.0 * 60 + c.1 == time.Floor && 0 <= c.1 < 60
  {
    FloorsOfTime(time);
    var m, s := time.Floor / 60, time.Floor % 60;
    var a, b := PadStart2(NatToString(m)), PadStart2(NatToString(s));
    PadStart2Digits(m);
    PadStart2Digits(s);
    var clock := a + ":" + b;
    assert FormatTime(time) == clock;
    assert ':' !in a by {
      forall i | 0 <= i < |a| ensures a[i] != ':' { assert IsDigit(a[i]); }
    }
    assert clock[..|a|] == a;
    assert IndexOf(clock, ':') == Some(|a|);
    assert clock[|a| + 1..] == b;
  }

  // ---------------------------------------------------------------------------
  // Clamps and the volume mapping

  /** The time a click at relative position `ratio` seeks to:
      max(0, min(duration * ratio, duration)). */
  function SeekTarget(duration: real, ratio: real): (t: real)
    ensures duration >= 0.0 ==> 0.0 <= t <= duration
    ensures 0.0 <= duration * ratio <= duration ==> t == duration * ratio
    ensures duration >= 0.0 && duration * ratio < 0.0 ==> t == 0.0
    ensures duration >= 0.0 && duration * ratio > duration ==> t == duration
  {
    // both branches are the clamp; the split lets the prover see the upper bound
    if duration >= 0.0 && duration * ratio > duration then
      assert Min(duration * ratio, duration) == duration;
      Max(0.0, Min(duration * ratio, duration))
    else
      Max(0.0, Min(duration * ratio, duration))
  }

  /** The played fraction painted over the waveform while the duration is known. */
  function Progress(currentTime: real, duration: real): (p: real)
    requires duration > 0.0
    ensures 0.0 <= p <= 1.0
    ensures 0.0 <= currentTime <= duration ==> p == currentTime / duration
    ensures currentTime >= duration ==> p == 1.0
    ensures currentTime <= 0.0 ==> p == 0.0
  {
    Min(1.0, Max(0.0, currentTime / duration))
  }

  /** Progress never moves backwards when the playhead moves forwards. */
  lemma ProgressMonotone(t1: real, t2: real, duration: real)
    requires duration > 0.0 && t1 <= t2
    ensures Progress(t1, duration) <= Progress(t2, duration)
  {
    assert t1 / duration <= t2 / duration by {
      assert t2 / duration - t1 / duration == (t2 - t1) / duration;
    }
  }

  /** The output level for the slider value `(volume[0] ?? 100) / 100`:
      an empty slider value means full volume, and 0 stays 0. */
  function VolumeLevel(volume: seq<int>): (level: real)
    ensures |volume| == 0 ==> level == 1.0
    ensures |volume| > 0 ==> level * 100.0 == volume[0] as real
    ensures |volume| > 0 && 0 <= volume[0] <= 100 ==> 0.0 <= level <= 1.0
  {
    (if |volume| > 0 then volume[0] else 100) as real / 100.0
  }

  // ---------------------------------------------------------------------------
  // ---------------------------------------------------------------------------
  // The controller

  /** What the wiring step of the graph build did: everything connected, the
      gain node could not be created, or a connect call threw. */
  datatype WiringOutcome = Wired | GainCreationFails | ConnectFails

  /** When the graph build makes a new MediaElementAudioSourceNode.
      ReuseAnySource is the check as written (`if (!sourceRef.current)`): any
      source made before is reused, even one made for an `<audio>` element that
      has since been unmounted. SourcePerElement is the evidently intended
      check: a source is reused only if it belongs to the element now rendered. */
  datatype SourcePolicy = ReuseAnySource | SourcePerElement

  /** Where the play button's fallback sends the output after it has
      disconnected the analyser and discarded the source. KeepRouting is the
      fallback as written: graph mode and the element's mute are left as they
      were. RouteToElement is the evidently intended one: the element takes
      over the output, unmuted at the slider volume, and no analyser is
      shared, as after a wiring failure. */
  datatype FallbackRouting = KeepRouting | RouteToElement

  /** Whether a graph build under `policy` keeps the existing source, given
      whether one exists, the element it was made for, and the element now
      rendered. */
  predicate SourceKept(policy: SourcePolicy, present: bool, sourceGen: nat, elementGen: nat)
  {
    present && (policy == ReuseAnySource || sourceGen == elementGen)
  }

  /** The analyser size the graph requests (fftSize 2048), as frequency bins. */
  const AnalyserBins: nat := 1024

  /** The sound bar's state and refs. The `<audio>` element is rendered only
      while the selected track has a truthy url, so it can be unmounted and a
      new one mounted in its place: `elementGen` numbers the elements, and
      `elementMuted`, `elementVolume` and `src` are the latest one's. Its
      currentTime and the component's currentTime are one field. */
  class Player {
    const store: Store
    // playback state
    var isPlaying: bool
    var currentTime: real
    var duration: real
    var playError: Option<string>
    var volume: seq<int>
    // the audio element
    var elementMounted: bool
    var elementGen: nat
    var src: Option<string>
    var elementMuted: bool
    var elementVolume: real
    // the output graph
    var usingWebAudio: bool
    var sourcePresent: bool
    var sourceGen: nat
    var analyser: Option<AnalyserNode>
    var gain: Option<real>
    var vizDisabled: bool
    var loopActive: bool
    var paintDuration: real
    var graphCleanup: bool
    var nodesCreated: nat

    /** Invariant of the routing policy. The element is muted only while the
        player is in graph mode (a remounted element starts unmuted, so graph
        mode does not imply a muted element); the graph path always has a gain
        node and an analyser, and a registered cleanup that will undo it; the
        analyser published in the store is present exactly in graph mode, and
        is then this player's analyser; a waveform loop runs only under a
        registered cleanup. */
    ghost predicate Valid()
      reads this, store
    {
      && store.Valid()
      && (elementMuted ==> usingWebAudio)
      && (usingWebAudio ==> gain.Some? && analyser.Some? && graphCleanup)
      && (store.externalAnalyser.Some? <==> usingWebAudio)
      && (usingWebAudio ==> store.externalAnalyser == analyser)
      && (loopActive ==> graphCleanup)
    }

    /** True when the `<audio>` element is rendered: a track with a truthy url. */
    predicate HasSource()
      reads this, store
    {
      store.track.Some? && Truthy(store.track.value.url)
    }

    /** The graph's source node was made for the element now rendered. */
    predicate SourceIsCurrent()
      reads this
    {
      sourcePresent && sourceGen == elementGen
    }

    /** Whether a graph build under `policy` would keep the present source. */
    predicate KeepsSource(policy: SourcePolicy)
      reads this
    {
      SourceKept(policy, sourcePresent, sourceGen, elementGen)
    }

    /** Nothing can be heard from the rendered element: it is muted, so its
        sound could only reach the speakers through the graph, but the graph's
        source belongs to another element. */
    predicate Silenced()
      reads this, store
    {
      HasSource() && elementMuted && !SourceIsCurrent()
    }

    /** The waveform loop's progress fill as written: `draw` compares against
        the `duration` captured when the graph was built (`paintDuration`), so
        the fill is painted only if that duration was known. */
    function PaintedProgress(): (p: Option<real>)
      reads this
      ensures p.Some? <==> loopActive && paintDuration > 0.0
      ensures p.Some? ==> 0.0 <= p.value <= 1.0
      ensures p.Some? && 0.0 <= currentTime <= paintDuration ==>
        p.value * paintDuration == currentTime
    {
      if loopActive && paintDuration > 0.0 then Some(Progress(currentTime, paintDuration)) else None
    }

    /** The evidently intended progress fill: against the duration of the
        track now loaded. */
    function PaintedProgressCurrent(): (p: Option<real>)
      reads this
      ensures p.Some? <==> loopActive && duration > 0.0
      ensures p.Some? ==> 0.0 <= p.value <= 1.0
      ensures p.Some? && 0.0 <= currentTime <= duration ==> p.value * duration == currentTime
    {
      if loopActive && duration > 0.0 then Some(Progress(currentTime, duration)) else None
    }

    /** The component's initial state, over a store with no shared analyser. */
    constructor (store: Store)
      requires store.Valid() && store.externalAnalyser == None
      ensures this.store == store && Valid()
      ensures !isPlaying && currentTime == 0.0 && duration == 0.0 && playError == None
      ensures volume == [100] && !elementMounted && elementGen == 0
      ensures !usingWebAudio && !elementMuted && !sourcePresent && sourceGen == 0
      ensures analyser == None && gain == None && !loopActive && !graphCleanup
      ensures paintDuration == 0.0 && nodesCreated == 0
    {
      this.store := store;
      isPlaying, currentTime, duration, playError := false, 0.0, 0.0, None;
      volume := [100];
      elementMounted, elementGen := false, 0;
      src, elementMuted, elementVolume := None, false, 1.0;
      usingWebAudio, sourcePresent, sourceGen, analyser, gain := false, false, 0, None, None;
      vizDisabled, loopActive, paintDuration := false, false, 0.0;
      graphCleanup, nodesCreated := false, 0;
    }

    /** "timeupdate": the displayed time follows the element. */
    method OnTimeUpdate(t: real)
      requires Valid()
      modifies this`currentTime
      ensures Valid() && currentTime == t
    {
      currentTime := t;
    }

    /** "loadedmetadata": the duration is taken unless it is NaN (None). */
    method OnLoadedMetadata(d: Option<real>)
      requires Valid()
      modifies this`duration
      ensures Valid()
      ensures duration == (if d.Some? then d.value else old(duration))
    {
      if d.Some? {
        duration := d.value;
      }
    }

    /** "ended": stopped and rewound, whatever the state was. */
    method OnEnded()
      requires Valid()
      modifies this`isPlaying, this`currentTime
      ensures Valid() && !isPlaying && currentTime == 0.0
    {
      isPlaying := false;
      currentTime := 0.0;
    }

    /** "error": the mapped reason is recorded; nothing is retried. */
    method OnError(code: Option<int>)
      requires Valid()
      modifies this`playError
      ensures Valid() && playError == Some(AudioErrorMessage(code))
    {
      playError := Some(AudioErrorMessage(code));
    }

    /** The DOM phase of a commit, before any effect runs: the `<audio>`
        element is rendered exactly while the track has a url. A newly mounted
        element is a new node, unmuted, at full volume and without a source;
        none of the effects that set those runs just because it was mounted. */
    method SyncElement()
      requires Valid()
      modifies this`elementMounted, this`elementGen, this`elementMuted,
        this`elementVolume, this`src
      ensures Valid() && elementMounted == HasSource()
      ensures HasSource() && !old(elementMounted) ==>
        elementGen == old(elementGen) + 1 && !elementMuted && elementVolume == 1.0 && src == None
      ensures !(HasSource() && !old(elementMounted)) ==>
        elementGen == old(elementGen) && elementMuted == old(elementMuted)
        && elementVolume == old(elementVolume) && src == old(src)
    {
      if HasSource() && !elementMounted {
        elementGen := elementGen + 1;
        elementMuted, elementVolume, src := false, 1.0, None;
      }
      elementMounted := HasSource();
    }

    /** The load effect, run whenever the store's track changes: a track with a
        url resets the clock and becomes the element's source; one without a
        url changes nothing. */
    method LoadTrack()
      requires Valid()
      modifies this`currentTime, this`duration, this`src, this`isPlaying
      ensures Valid()
      ensures HasSource() ==>
        currentTime == 0.0 && duration == 0.0 && !isPlaying && src == store.track.value.url
      ensures !HasSource() ==>
        currentTime == old(currentTime) && duration == old(duration)
        && isPlaying == old(isPlaying) && src == old(src)
    {
      if HasSource() {
        currentTime := 0.0;
        duration := 0.0;
        src := store.track.value.url;
        isPlaying := false;
      }
    }

    /** The autoplay effect: with a source, clears the error and marks the
        player playing when play() resolves; a rejected play() is ignored. */
    method Autoplay(playOk: bool)
      requires Valid()
      modifies this`playError, this`isPlaying
      ensures Valid()
      ensures HasSource() ==> playError == None && isPlaying == (playOk || old(isPlaying))
      ensures !HasSource() ==> playError == old(playError) && isPlaying == old(isPlaying)
    {
      if HasSource() {
        playError := None;
        if playOk {
          isPlaying := true;
        }
      }
    }

    /** The volume effect: the new level goes to the gain node in graph mode,
        otherwise to the element, which is unmuted; never to both. */
    method SetVolume(v: seq<int>)
      requires Valid()
      modifies this`volume, this`gain, this`elementVolume, this`elementMuted
      ensures Valid() && volume == v
      ensures HasSource() && usingWebAudio ==>
        gain == Some(VolumeLevel(v)) && elementVolume == old(elementVolume)
        && elementMuted == old(elementMuted)
      ensures HasSource() && !usingWebAudio ==>
        elementVolume == VolumeLevel(v) && !elementMuted && gain == old(gain)
      ensures !HasSource() ==>
        gain == old(gain) && elementVolume == old(elementVolume)
        && elementMuted == old(elementMuted)
    {
      volume := v;
      if HasSource() {
        if usingWebAudio && gain.Some? {
          gain := Some(VolumeLevel(v));
        } else {
          elementVolume := VolumeLevel(v);
          elementMuted := false;
        }
      }
    }

    /** The part of the graph build after the source exists: a fresh analyser
        replaces the previous one; then the gain node is created and everything
        connected, or the element takes over the output. The waveform loop
        started here keeps `renderDuration`, the duration of the render that
        ran the effect. */
    method WireGraph(wiring: WiringOutcome, ctx2d: bool, renderDuration: real)
      requires Valid() && !graphCleanup && sourcePresent
      modifies this`analyser, this`nodesCreated, this`gain, this`usingWebAudio,
        this`elementMuted, this`elementVolume, this`vizDisabled, this`graphCleanup,
        this`loopActive, this`paintDuration, store
      ensures Valid() && graphCleanup && loopActive == ctx2d && paintDuration == renderDuration
      ensures analyser == Some(AnalyserNode(old(nodesCreated), AnalyserBins))
      ensures store.track == old(store.track)
      ensures store.autoplayRequestId == old(store.autoplayRequestId)
      ensures wiring == Wired ==>
        usingWebAudio && elementMuted && vizDisabled == old(vizDisabled)
        && gain == Some(VolumeLevel(volume)) && store.externalAnalyser == analyser
        && store.history == old(store.history) + [StoreOp.SetExternalAnalyser(analyser)]
      ensures wiring != Wired ==>
        vizDisabled && !usingWebAudio && !elementMuted && store.externalAnalyser == None
        && elementVolume == VolumeLevel(volume) && store.history == old(store.history)
    {
      analyser := Some(AnalyserNode(nodesCreated, AnalyserBins));
      nodesCreated := nodesCreated + 1;
      if wiring == Wired {
        gain := Some(VolumeLevel(volume));
        store.SetExternalAnalyser(analyser);
        usingWebAudio := true;
        elementMuted := true;
      } else {
        if wiring == ConnectFails {
          gain := Some(VolumeLevel(volume));
        }
        vizDisabled := true;
        usingWebAudio := false;
        elementMuted := false;
        elementVolume := VolumeLevel(volume);
      }
      graphCleanup := true;
      loopActive := ctx2d;
      paintDuration := renderDuration;
    }

    /** The graph effect, run when the track id changes, after the previous
        run's cleanup (if any). `policy` decides whether the present source is
        kept; `sourceCreated` is the outcome of createMediaElementSource when
        a new one is made; `wiring` the outcome of creating and connecting the
        gain node; `ctx2d` whether the canvas gave a 2D context (without one no
        waveform loop starts); `renderDuration` the `duration` of the render. */
    method BuildGraph(policy: SourcePolicy, sourceCreated: bool, wiring: WiringOutcome,
                      ctx2d: bool, renderDuration: real)
      requires Valid() && !graphCleanup
      modifies this`sourcePresent, this`sourceGen, this`analyser, this`nodesCreated,
        this`gain, this`usingWebAudio, this`elementMuted, this`elementVolume,
        this`vizDisabled, this`graphCleanup, this`loopActive, this`paintDuration, store
      ensures Valid()
      ensures store.track == old(store.track)
      ensures store.autoplayRequestId == old(store.autoplayRequestId)
      ensures !HasSource() ==>
        usingWebAudio == old(usingWebAudio) && elementMuted == old(elementMuted)
        && !graphCleanup && sourcePresent == old(sourcePresent) && sourceGen == old(sourceGen)
        && store.history == old(store.history)
      ensures HasSource() && !old(KeepsSource(policy)) && !sourceCreated ==>
        vizDisabled && !usingWebAudio && !elementMuted && !graphCleanup && !loopActive
        && sourcePresent == old(sourcePresent) && sourceGen == old(sourceGen)
        && store.history == old(store.history)
      ensures HasSource() && (old(KeepsSource(policy)) || sourceCreated) ==>
        sourcePresent && graphCleanup && loopActive == ctx2d && paintDuration == renderDuration
        && analyser == Some(AnalyserNode(old(nodesCreated), AnalyserBins))
      ensures HasSource() && old(KeepsSource(policy)) ==> sourceGen == old(sourceGen)
      ensures HasSource() && !old(KeepsSource(policy)) && sourceCreated ==> sourceGen == elementGen
      ensures HasSource() && (old(KeepsSource(policy)) || sourceCreated) && wiring == Wired ==>
        usingWebAudio && elementMuted && !vizDisabled
        && gain == Some(VolumeLevel(volume)) && store.externalAnalyser == analyser
        && store.history == old(store.history) + [StoreOp.SetExternalAnalyser(analyser)]
      ensures HasSource() && (old(KeepsSource(policy)) || sourceCreated) && wiring != Wired ==>
        vizDisabled && !usingWebAudio && !elementMuted && store.externalAnalyser == None
        && elementVolume == VolumeLevel(volume) && store.history == old(store.history)
    {
      if !HasSource() {
        return;
      }
      vizDisabled := false;
      if !KeepsSource(policy) {
        if !sourceCreated {
          vizDisabled := true;
          usingWebAudio := false;
          elementMuted := false;
          return;
        }
        sourcePresent, sourceGen := true, elementGen;
      }
      WireGraph(wiring, ctx2d, renderDuration);
    }

    /** The graph effect's cleanup: cancels the pending frame, leaves graph
        mode, unmutes the element and clears the shared analyser. */
    method TeardownGraph()
      requires Valid() && graphCleanup
      modifies this`loopActive, this`usingWebAudio, this`elementMuted, this`graphCleanup, store
      ensures Valid()
      ensures !loopActive && !usingWebAudio && !elementMuted && !graphCleanup
      ensures store.externalAnalyser == None
      ensures store.history == old(store.history) + [StoreOp.SetExternalAnalyser(None)]
      ensures store.track == old(store.track)
      ensures store.autoplayRequestId == old(store.autoplayRequestId)
    {
      loopActive := false;
      usingWebAudio := false;
      elementMuted := false;
      store.SetExternalAnalyser(None);
      graphCleanup := false;
    }

    /** Click-to-seek: ignored while the duration is 0; otherwise the clamped
        target becomes the current time. Play/pause state is untouched. */
    method CanvasClick(ratio: real)
      requires Valid()
      modifies this`currentTime
      ensures Valid()
      ensures !HasSource() || duration == 0.0 ==> currentTime == old(currentTime)
      ensures HasSource() && duration > 0.0 ==>
        currentTime == SeekTarget(duration, ratio) && 0.0 <= currentTime <= duration
    {
      if HasSource() && duration != 0.0 {
        currentTime := SeekTarget(duration, ratio);
      }
    }

    /** The play button. `firstOk` and `retryOk` are the outcomes of the two
        play() calls; `attempts` counts the calls made; `fallback` says where
        the output goes once the failed first call has discarded the source. */
    method TogglePlay(firstOk: bool, retryOk: bool, fallback: FallbackRouting)
      returns (attempts: nat)
      requires Valid()
      modifies this`playError, this`isPlaying, this`vizDisabled, this`sourcePresent,
        this`usingWebAudio, this`elementMuted, this`elementVolume, store
      ensures Valid() && attempts <= 2
      ensures store.track == old(store.track)
      ensures store.autoplayRequestId == old(store.autoplayRequestId)
      ensures !HasSource() ==>
        attempts == 0 && isPlaying == old(isPlaying) && playError == old(playError)
        && sourcePresent == old(sourcePresent) && vizDisabled == old(vizDisabled)
      ensures HasSource() && old(isPlaying) ==>
        attempts == 0 && !isPlaying && playError == None
        && sourcePresent == old(sourcePresent) && vizDisabled == old(vizDisabled)
      ensures HasSource() && !old(isPlaying) ==>
        attempts == (if firstOk then 1 else 2)
        && isPlaying == (firstOk || retryOk)
        && playError == (if firstOk || retryOk then None else Some(PlaybackFailedMessage))
      ensures HasSource() && !old(isPlaying) && firstOk ==>
        sourcePresent == old(sourcePresent) && vizDisabled == old(vizDisabled)
      ensures HasSource() && !old(isPlaying) && !firstOk ==> vizDisabled && !sourcePresent
      ensures HasSource() && !old(isPlaying) && !firstOk && fallback == RouteToElement ==>
        !usingWebAudio && !elementMuted && elementVolume == VolumeLevel(volume)
        && store.externalAnalyser == None
        && store.history == old(store.history) + [StoreOp.SetExternalAnalyser(None)]
      ensures !(HasSource() && !old(isPlaying) && !firstOk && fallback == RouteToElement) ==>
        usingWebAudio == old(usingWebAudio) && elementMuted == old(elementMuted)
        && elementVolume == old(elementVolume) && store.history == old(store.history)
    {
      attempts := 0;
      if !HasSource() {
        return;
      }
      playError := None;
      if isPlaying {
        isPlaying := false;
      } else {
        attempts := 1;
        if firstOk {
          isPlaying := true;
        } else {
          // the fallback disconnects the analyser and discards the source, then retries
          vizDisabled := true;
          sourcePresent := false;
          if fallback == RouteToElement {
            usingWebAudio, elementMuted, elementVolume := false, false, VolumeLevel(volume);
            store.SetExternalAnalyser(None);
          }
          attempts := 2;
          if retryOk {
            isPlaying := true;
          } else {
            playError := Some(PlaybackFailedMessage);
          }
        }
      }
    }

    /** The playback effects of a commit: the load effect when the track
        object was replaced, then the autoplay effect when the id or the
        request counter changed. */
    method PlaybackPhase(trackReplaced: bool, idChanged: bool, requestChanged: bool, playOk: bool)
      requires Valid()
      modifies this`currentTime, this`duration, this`src, this`isPlaying, this`playError
      ensures Valid()
      ensures trackReplaced && HasSource() ==>
        currentTime == 0.0 && duration == 0.0 && src == store.track.value.url
      ensures !(trackReplaced && HasSource()) ==>
        currentTime == old(currentTime) && duration == old(duration) && src == old(src)
      ensures HasSource() && (idChanged || requestChanged) ==>
        playError == None && isPlaying == (playOk || (!trackReplaced && old(isPlaying)))
      ensures HasSource() && trackReplaced && !(idChanged || requestChanged) ==>
        !isPlaying && playError == old(playError)
      ensures !HasSource() || !(trackReplaced || idChanged || requestChanged) ==>
        isPlaying == old(isPlaying) && playError == old(playError)
    {
      if trackReplaced {
        LoadTrack();
      }
      if idChanged || requestChanged {
        Autoplay(playOk);
      }
    }

    /** The graph effect of a commit whose track id changed: the previous
        run's cleanup, if one was registered, then the build; with an
        unchanged id the graph is left as it is. */
    method GraphEffect(idChanged: bool, policy: SourcePolicy, sourceCreated: bool,
                       wiring: WiringOutcome, ctx2d: bool, renderDuration: real)
      requires Valid()
      modifies this`sourcePresent, this`sourceGen, this`analyser, this`nodesCreated,
        this`gain, this`usingWebAudio, this`elementMuted, this`elementVolume,
        this`vizDisabled, this`graphCleanup, this`loopActive, this`paintDuration, store
      ensures Valid()
      ensures store.track == old(store.track)
      ensures store.autoplayRequestId == old(store.autoplayRequestId)
      ensures !idChanged ==>
        graphCleanup == old(graphCleanup) && usingWebAudio == old(usingWebAudio)
        && sourcePresent == old(sourcePresent) && sourceGen == old(sourceGen)
        && analyser == old(analyser) && loopActive == old(loopActive)
        && paintDuration == old(paintDuration) && elementMuted == old(elementMuted)
        && elementVolume == old(elementVolume)
      ensures store.history == old(store.history)
        + (if idChanged && old(graphCleanup) then [StoreOp.SetExternalAnalyser(None)] else [])
        + (if idChanged && HasSource() && (old(KeepsSource(policy)) || sourceCreated)
              && wiring == Wired
           then [StoreOp.SetExternalAnalyser(analyser)] else [])
      ensures idChanged && !HasSource() ==>
        !usingWebAudio && !graphCleanup && !loopActive && store.externalAnalyser == None
        && sourcePresent == old(sourcePresent) && sourceGen == old(sourceGen)
      ensures idChanged && HasSource() && !old(KeepsSource(policy)) && !sourceCreated ==>
        vizDisabled && !usingWebAudio && !elementMuted && !graphCleanup && !loopActive
        && store.externalAnalyser == None
        && sourcePresent == old(sourcePresent) && sourceGen == old(sourceGen)
      ensures idChanged && HasSource() && (old(KeepsSource(policy)) || sourceCreated) ==>
        sourcePresent && graphCleanup && loopActive == ctx2d && paintDuration == renderDuration
        && analyser == Some(AnalyserNode(old(nodesCreated), AnalyserBins))
        && sourceGen == (if old(KeepsSource(policy)) then old(sourceGen) else elementGen)
      ensures idChanged && HasSource() && (old(KeepsSource(policy)) || sourceCreated) && wiring == Wired ==>
        usingWebAudio && elementMuted && !vizDisabled
        && gain == Some(VolumeLevel(volume)) && store.externalAnalyser == analyser
      ensures idChanged && HasSource() && (old(KeepsSource(policy)) || sourceCreated) && wiring != Wired ==>
        vizDisabled && !usingWebAudio && !elementMuted && store.externalAnalyser == None
        && elementVolume == VolumeLevel(volume)
    {
      if idChanged {
        if graphCleanup {
          TeardownGraph();
        }
        BuildGraph(policy, sourceCreated, wiring, ctx2d, renderDuration);
      }
    }

    /** The effects pass of one React commit after the store changed, once
        SyncElement (the DOM phase) has mounted or unmounted the `<audio>`
        element. React runs the graph effect's cleanup (when the track id
        changed), then the load effect (the track object was replaced), the
        autoplay effect (the track id or the request counter changed) and the
        graph build (the track id changed), which sees the render's
        `duration`. The playback effects and the graph effect read and write
        disjoint state, so the graph's cleanup and build are taken together
        after the playback effects. A new id always comes with a new track
        object. */
    method Commit(trackReplaced: bool, idChanged: bool, requestChanged: bool, playOk: bool,
                  policy: SourcePolicy, sourceCreated: bool, wiring: WiringOutcome, ctx2d: bool)
      requires Valid() && elementMounted == HasSource() && (idChanged ==> trackReplaced)
      modifies this`currentTime, this`duration, this`src, this`isPlaying, this`playError,
        this`sourcePresent, this`sourceGen, this`analyser, this`nodesCreated, this`gain,
        this`usingWebAudio, this`elementMuted, this`elementVolume, this`vizDisabled,
        this`graphCleanup, this`loopActive, this`paintDuration, store
      ensures Valid()
      ensures store.track == old(store.track)
      ensures store.autoplayRequestId == old(store.autoplayRequestId)
      // the clock, the element's source, play state and error
      ensures trackReplaced && HasSource() ==>
        currentTime == 0.0 && duration == 0.0 && src == store.track.value.url
      ensures !(trackReplaced && HasSource()) ==>
        currentTime == old(currentTime) && duration == old(duration) && src == old(src)
      ensures HasSource() && (idChanged || requestChanged) ==>
        playError == None && isPlaying == (playOk || (!trackReplaced && old(isPlaying)))
      ensures HasSource() && trackReplaced && !(idChanged || requestChanged) ==>
        !isPlaying && playError == old(playError)
      ensures !HasSource() || !(trackReplaced || requestChanged) ==>
        isPlaying == old(isPlaying) && playError == old(playError)
      // the graph
      ensures !idChanged ==>
        graphCleanup == old(graphCleanup) && usingWebAudio == old(usingWebAudio)
        && sourcePresent == old(sourcePresent) && sourceGen == old(sourceGen)
        && analyser == old(analyser) && loopActive == old(loopActive)
        && paintDuration == old(paintDuration) && elementMuted == old(elementMuted)
        && elementVolume == old(elementVolume)
      ensures store.history == old(store.history)
        + (if idChanged && old(graphCleanup) then [StoreOp.SetExternalAnalyser(None)] else [])
        + (if idChanged && HasSource() && (old(KeepsSource(policy)) || sourceCreated)
              && wiring == Wired
           then [StoreOp.SetExternalAnalyser(analyser)] else [])
      ensures idChanged && !HasSource() ==>
        !usingWebAudio && !graphCleanup && !loopActive && store.externalAnalyser == None
        && sourcePresent == old(sourcePresent) && sourceGen == old(sourceGen)
      ensures idChanged && HasSource() && !old(KeepsSource(policy)) && !sourceCreated ==>
        vizDisabled && !usingWebAudio && !elementMuted && !graphCleanup && !loopActive
        && store.externalAnalyser == None
        && sourcePresent == old(sourcePresent) && sourceGen == old(sourceGen)
      ensures idChanged && HasSource() && (old(KeepsSource(policy)) || sourceCreated) ==>
        sourcePresent && graphCleanup && loopActive == ctx2d && paintDuration == old(duration)
        && analyser == Some(AnalyserNode(old(nodesCreated), AnalyserBins))
        && sourceGen == (if old(KeepsSource(policy)) then old(sourceGen) else elementGen)
      ensures idChanged && HasSource() && (old(KeepsSource(policy)) || sourceCreated) && wiring == Wired ==>
        usingWebAudio && elementMuted && !vizDisabled
        && gain == Some(VolumeLevel(volume)) && store.externalAnalyser == analyser
      ensures idChanged && HasSource() && (old(KeepsSource(policy)) || sourceCreated) && wiring != Wired ==>
        vizDisabled && !usingWebAudio && !elementMuted && store.externalAnalyser == None
        && elementVolume == VolumeLevel(volume)
    {
      var renderDuration := duration;
      PlaybackPhase(trackReplaced, idChanged, requestChanged, playOk);
      GraphEffect(idChanged, policy, sourceCreated, wiring, ctx2d, renderDuration);
    }
  }

  // ---------------------------------------------------------------------------
  // Scenarios over whole commits

  /** A click on a track row or a song card with a new id: the store counts a
      request and takes the track (one batched update), then one commit runs
      with every browser call succeeding, under the given source policy. */
  method SelectNewTrack(p: Player, t: PlayerTrack, policy: SourcePolicy)
    requires p.Valid() && (p.store.track.Some? ==> p.store.track.value.id != t.id)
    modifies p, p.store
    ensures p.Valid() && p.store.track == Some(t) && p.elementMounted == Truthy(t.url)
    ensures p.elementGen ==
      (if Truthy(t.url) && !old(p.elementMounted) then old(p.elementGen) + 1 else old(p.elementGen))
    ensures Truthy(t.url) ==>
      p.isPlaying && p.usingWebAudio && p.elementMuted && p.sourcePresent
      && p.loopActive && p.paintDuration == old(p.duration)
      && p.sourceGen == (if SourceKept(policy, old(p.sourcePresent), old(p.sourceGen), p.elementGen)
                         then old(p.sourceGen) else p.elementGen)
    ensures !Truthy(t.url) ==>
      !p.usingWebAudio && p.sourcePresent == old(p.sourcePresent) && p.sourceGen == old(p.sourceGen)
  {
    p.store.RequestAutoplay();
    p.store.SetTrack(t);
    p.SyncElement();
    p.Commit(true, true, true, true, policy, true, Wired, true);
  }

  /** Plays `a`, then `b`, which has no url (the `<audio>` element unmounts),
      then `c` (a new element mounts), each selected with a new id. */
  method PlayThroughUrlLessTrack(a: PlayerTrack, b: PlayerTrack, c: PlayerTrack,
                                 policy: SourcePolicy) returns (p: Player)
    requires Truthy(a.url) && !Truthy(b.url) && Truthy(c.url) && a.id != b.id && b.id != c.id
    ensures p.Valid() && p.HasSource() && p.isPlaying && p.usingWebAudio && p.elementMuted
    ensures p.elementGen == 2 && p.sourcePresent
    ensures policy == ReuseAnySource ==> p.sourceGen == 1
    ensures policy == SourcePerElement ==> p.sourceGen == 2
  {
    var s := new Store();
    p := new Player(s);
    SelectNewTrack(p, a, policy);
    SelectNewTrack(p, b, policy);
    SelectNewTrack(p, c, policy);
  }

  /** As written, the third track is silent: the build finds the first
      element's source and keeps it, then mutes the new element. */
  method RemountSilencesPlayback(a: PlayerTrack, b: PlayerTrack, c: PlayerTrack)
    returns (p: Player)
    requires Truthy(a.url) && !Truthy(b.url) && Truthy(c.url) && a.id != b.id && b.id != c.id
    ensures p.Valid() && p.isPlaying && p.Silenced()
  {
    p := PlayThroughUrlLessTrack(a, b, c, ReuseAnySource);
  }

  /** With a source per element, the third track's graph is fed by its own
      element, so muting that element loses nothing. */
  method RemountKeepsPlaybackAudible(a: PlayerTrack, b: PlayerTrack, c: PlayerTrack)
    returns (p: Player)
    requires Truthy(a.url) && !Truthy(b.url) && Truthy(c.url) && a.id != b.id && b.id != c.id
    ensures p.Valid() && p.isPlaying && !p.Silenced() && p.SourceIsCurrent()
  {
    p := PlayThroughUrlLessTrack(a, b, c, SourcePerElement);
  }

  /** Selects the first track, then its metadata (duration `d`) and a
      timeupdate (time `t`) arrive; returns the loop's progress fill as
      written and as intended. */
  method FirstTrackProgress(a: PlayerTrack, d: real, t: real)
    returns (painted: Option<real>, intended: Option<real>)
    requires Truthy(a.url) && d > 0.0
    ensures painted == None
    ensures intended == Some(Progress(t, d))
  {
    var s := new Store();
    var p := new Player(s);
    SelectNewTrack(p, a, ReuseAnySource);
    p.OnLoadedMetadata(Some(d));
    p.OnTimeUpdate(t);
    painted := p.PaintedProgress();
    intended := p.PaintedProgressCurrent();
  }

  /** Plays a url track with every call succeeding, pauses it with the play
      button, then presses it again: the first play() rejects and the retry
      resolves. */
  method RetryAfterFailedPlay(t: PlayerTrack, fallback: FallbackRouting) returns (p: Player)
    requires Truthy(t.url)
    ensures p.Valid() && p.HasSource() && p.isPlaying && p.playError == None
    ensures fallback == KeepRouting ==> p.elementMuted && p.usingWebAudio && !p.sourcePresent
    ensures fallback == RouteToElement ==> !p.elementMuted && !p.usingWebAudio
  {
    var s := new Store();
    p := new Player(s);
    SelectNewTrack(p, t, ReuseAnySource);
    var paused := p.TogglePlay(true, true, fallback);
    var retried := p.TogglePlay(false, true, fallback);
  }

  /** As written, the successful retry is silent: the element is still muted
      while the graph it was muted for has lost its source. */
  method FallbackRetrySilenced(t: PlayerTrack) returns (p: Player)
    requires Truthy(t.url)
    ensures p.Valid() && p.isPlaying && p.playError == None && p.Silenced()
  {
    p := RetryAfterFailedPlay(t, KeepRouting);
  }

  /** With the output handed to the element, the successful retry is heard. */
  method FallbackRetryAudible(t: PlayerTrack) returns (p: Player)
    requires Truthy(t.url)
    ensures p.Valid() && p.isPlaying && p.playError == None && !p.Silenced()
    ensures !p.usingWebAudio && p.store.externalAnalyser == None
  {
    p := RetryAfterFailedPlay(t, RouteToElement);
  }
}
