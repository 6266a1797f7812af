/** The thresholds of answering machine detection and the checks made on them
    before an analysis starts (internal/amd/params.go).

    A duration is Go's time.Duration: a signed 64-bit count of nanoseconds
    whose arithmetic wraps around. */
module AmdParams {
  import opened Wrappers
  import opened Int64

  type Duration = int64

  const MILLISECOND: int := 1_000_000

  /** One analysis frame, 20 ms. */
  const FRAME: int := 20_000_000
  const SPEECH_ON_FRAMES: int := 2
  const SPEECH_OFF_FRAMES: int := 4

  datatype Params = Params(
    initialSilenceTimeout: Duration,
    greetingDuration: Duration,
    afterGreetingSilence: Duration,
    totalAnalysisTime: Duration,
    minimumWordLength: Duration,
    beepTimeout: Duration)
  {
    /** The five thresholds that must be positive, and the one that may be 0. */
    predicate Positive() {
      && initialSilenceTimeout > 0
      && greetingDuration > 0
      && afterGreetingSilence > 0
      && totalAnalysisTime > 0
      && minimumWordLength > 0
      && beepTimeout >= 0
    }

    function Validate(): Result<(), ParamError> {
      if initialSilenceTimeout <= 0 then Err(BadInitialSilence)
      else if greetingDuration <= 0 then Err(BadGreeting)
      else if afterGreetingSilence <= 0 then Err(BadAfterGreeting)
      else if totalAnalysisTime <= 0 then Err(BadTotal)
      else if minimumWordLength <= 0 then Err(BadMinimumWord)
      else if beepTimeout < 0 then Err(BadBeepTimeout)
      else if !CanReachNoSpeech() && !CanReachMachine() && !CanReachHuman() then Err(NoVerdictReachable)
      else Ok(())
    }

    predicate CanReachNoSpeech() {
      totalAnalysisTime > AnalysisFrames(initialSilenceTimeout)
    }

    predicate CanReachMachine() {
      totalAnalysisTime > Wrap(AnalysisFrames(greetingDuration) + (SPEECH_ON_FRAMES - 1) * FRAME)
    }

    predicate CanReachHuman() {
      var rounded := AnalysisFrames(minimumWordLength);
      var burst := if rounded < SPEECH_OFF_FRAMES * FRAME then SPEECH_OFF_FRAMES * FRAME else rounded;
      totalAnalysisTime >
        Wrap(Wrap(burst + (SPEECH_ON_FRAMES - 1) * FRAME) + AnalysisFrames(afterGreetingSilence))
    }
  }

  datatype ParamError =
    | BadInitialSilence
    | BadGreeting
    | BadAfterGreeting
    | BadTotal
    | BadMinimumWord
    | BadBeepTimeout
    | NoVerdictReachable

  function AnalysisFrames(d: Duration): Duration {
    Wrap(Quotient(Wrap(d + FRAME - 1), FRAME) * FRAME)
  }

  function DefaultParams(): Params {
    Params(2500 * MILLISECOND, 1500 * MILLISECOND, 800 * MILLISECOND, 5000 * MILLISECOND, 100 * MILLISECOND, 0)
  }

  /** A per-call override: zero keeps the default, anything else replaces it. */
  function Override(default: Duration, millis: int): Duration {
    if millis != 0 then Wrap(millis * MILLISECOND) else default
  }

  function MergeMillis(defaults: Params, initialSilence: int, greeting: int, afterGreeting: int,
                       total: int, minWord: int, beep: int): Params {
    Params(
      Override(defaults.initialSilenceTimeout, initialSilence),
      Override(defaults.greetingDuration, greeting),
      Override(defaults.afterGreetingSilence, afterGreeting),
      Override(defaults.totalAnalysisTime, total),
      Override(defaults.minimumWordLength, minWord),
      Override(defaults.beepTimeout, beep))
  }

  // ---- Rounding, in exact arithmetic ----

  /** The number of whole frames needed to cover `d`. */
  function FrameCount(d: int): nat
    requires d >= 0
  {
    (d + FRAME - 1) / FRAME
  }

  /** `d` rounded up to whole frames, without wrap-around. */
  function RoundUp(d: int): nat
    requires d >= 0
  {
    FrameCount(d) * FRAME
  }

  /** The shortest burst of speech that can be counted. */
  function MinBurst(p: Params): nat
    requires p.Positive()
  {
    if RoundUp(p.minimumWordLength) < SPEECH_OFF_FRAMES * FRAME
    then SPEECH_OFF_FRAMES * FRAME
    else RoundUp(p.minimumWordLength)
  }

  /** A whole number of frames passes a threshold exactly when it passes the rounded threshold. */
  lemma RoundUpIsThreshold(d: int, k: nat)
    requires d >= 0
    ensures k * FRAME >= d <==> k * FRAME >= RoundUp(d)
    ensures k * FRAME >= d <==> k >= FrameCount(d)
    ensures d <= RoundUp(d) < d + FRAME
  {
  }

  /** The largest duration that rounds up without wrapping. */
  const ROUND_LIMIT: int := MAX_INT64 - FRAME + 1

  lemma AnalysisFramesRoundsUp(d: Duration)
    requires d > 0
    ensures d <= ROUND_LIMIT ==> AnalysisFrames(d) == RoundUp(d)
    ensures d > ROUND_LIMIT ==> AnalysisFrames(d) < 0
  {
    if d <= ROUND_LIMIT {
      assert Wrap(d + FRAME - 1) == d + FRAME - 1;
      assert Quotient(d + FRAME - 1, FRAME) == FrameCount(d);
      assert 0 <= RoundUp(d) <= MAX_INT64;
      assert Wrap(RoundUp(d)) == RoundUp(d);
    } else {
      var w := Wrap(d + FRAME - 1);
      assert w == d + FRAME - 1 - 0x1_0000_0000_0000_0000;
      assert MIN_INT64 <= w < -FRAME;
      var q := Quotient(w, FRAME);
      assert q == -((-w) / FRAME);
      assert w <= q * FRAME < 0;
      assert Wrap(q * FRAME) == q * FRAME;
    }
  }

  /** The reachability conditions as they read in exact arithmetic. */
  ghost predicate NoSpeechWindow(p: Params)
    requires p.Positive()
  {
    p.totalAnalysisTime > RoundUp(p.initialSilenceTimeout)
  }

  ghost predicate MachineWindow(p: Params)
    requires p.Positive()
  {
    p.totalAnalysisTime > RoundUp(p.greetingDuration) + FRAME
  }

  ghost predicate HumanWindow(p: Params)
    requires p.Positive()
  {
    p.totalAnalysisTime > MinBurst(p) + FRAME + RoundUp(p.afterGreetingSilence)
  }

  /** A quarter of the representable range, more than 73 years: no sum the
      checks form can wrap below it. */
  const CLOCK_LIMIT: int := MAX_INT64 / 4

  predicate WithinClock(p: Params) {
    && p.initialSilenceTimeout <= CLOCK_LIMIT
    && p.greetingDuration <= CLOCK_LIMIT
    && p.afterGreetingSilence <= CLOCK_LIMIT
    && p.minimumWordLength <= CLOCK_LIMIT
  }

  lemma WrapOfSum(x: int)
    requires MIN_INT64 <= x <= MAX_INT64 + MAX_INT64 + 1
    ensures x <= MAX_INT64 ==> Wrap(x) == x
    ensures x > MAX_INT64 ==> Wrap(x) == x - 0x1_0000_0000_0000_0000
  {
  }

  lemma NoSpeechCheck(p: Params)
    requires p.Positive()
    ensures NoSpeechWindow(p) ==> p.CanReachNoSpeech()
    ensures WithinClock(p) && p.CanReachNoSpeech() ==> NoSpeechWindow(p)
  {
    AnalysisFramesRoundsUp(p.initialSilenceTimeout);
  }

  lemma MachineCheck(p: Params)
    requires p.Positive()
    ensures MachineWindow(p) ==> p.CanReachMachine()
    ensures WithinClock(p) && p.CanReachMachine() ==> MachineWindow(p)
  {
    var d := p.greetingDuration;
    AnalysisFramesRoundsUp(d);
    RoundUpIsThreshold(d, 0);
    WrapOfSum(AnalysisFrames(d) + FRAME);
  }

  lemma HumanCheck(p: Params)
    requires p.Positive()
    ensures HumanWindow(p) ==> p.CanReachHuman()
    ensures WithinClock(p) && p.CanReachHuman() ==> HumanWindow(p)
  {
    var w, a := p.minimumWordLength, p.afterGreetingSilence;
    AnalysisFramesRoundsUp(w);
    AnalysisFramesRoundsUp(a);
    RoundUpIsThreshold(w, 0);
    RoundUpIsThreshold(a, 0);
    if HumanWindow(p) || WithinClock(p) {
      assert w <= ROUND_LIMIT && a <= ROUND_LIMIT;
      var burst := MinBurst(p);
      WrapOfSum(burst + FRAME);
      WrapOfSum(burst + FRAME + RoundUp(a));
    }
  }

  /** The 64-bit checks never refuse a window that exact arithmetic accepts, and
      agree with it as long as no threshold is near the end of the range. */
  lemma ChecksAgainstExactWindows(p: Params)
    requires p.Positive()
    ensures NoSpeechWindow(p) ==> p.CanReachNoSpeech()
    ensures MachineWindow(p) ==> p.CanReachMachine()
    ensures HumanWindow(p) ==> p.CanReachHuman()
    ensures WithinClock(p) ==>
              && (NoSpeechWindow(p) <==> p.CanReachNoSpeech())
              && (MachineWindow(p) <==> p.CanReachMachine())
              && (HumanWindow(p) <==> p.CanReachHuman())
  {
    NoSpeechCheck(p);
    MachineCheck(p);
    HumanCheck(p);
  }

  /** A negative count of milliseconds whose nanoseconds, reduced to 64 bits, are
      not negative any more. */
  predicate Slips(millis: int) {
    millis < 0 && (millis * MILLISECOND) % 0x1_0000_0000_0000_0000 < 0x8000_0000_0000_0000
  }

  lemma SignOfWrap(x: int)
    ensures Wrap(x) < 0 <==> x % 0x1_0000_0000_0000_0000 >= 0x8000_0000_0000_0000
    ensures MIN_INT64 <= x < 0 ==> x % 0x1_0000_0000_0000_0000 >= 0x8000_0000_0000_0000
  {
    if MIN_INT64 <= x < 0 {
      assert x % 0x1_0000_0000_0000_0000 == x + 0x1_0000_0000_0000_0000;
    }
  }

  /** A negative override survives the merge, as the merge promises, exactly when
      it does not slip; none that 64 bits can hold in nanoseconds does. */
  lemma OverrideKeepsSign(default: Duration, millis: int)
    requires millis < 0
    ensures Override(default, millis) < 0 <==> !Slips(millis)
    ensures MIN_INT64 <= millis * MILLISECOND ==> !Slips(millis)
  {
    SignOfWrap(millis * MILLISECOND);
  }

  predicate Survives(millis: int) {
    millis < 0 && !Slips(millis)
  }

  /** A negative override that survives the merge is refused, whatever the others are. */
  lemma NegativeOverrideRefused(defaults: Params, initial: int, greeting: int, after: int, total: int, word: int, beep: int)
    requires || Survives(initial) || Survives(greeting) || Survives(after)
             || Survives(total) || Survives(word) || Survives(beep)
    ensures MergeMillis(defaults, initial, greeting, after, total, word, beep).Validate().Err?
  {
    var p := MergeMillis(defaults, initial, greeting, after, total, word, beep);
    if Survives(initial) {
      OverrideKeepsSign(defaults.initialSilenceTimeout, initial);
    } else if Survives(greeting) {
      OverrideKeepsSign(defaults.greetingDuration, greeting);
    } else if Survives(after) {
      OverrideKeepsSign(defaults.afterGreetingSilence, after);
    } else if Survives(total) {
      OverrideKeepsSign(defaults.totalAnalysisTime, total);
    } else if Survives(word) {
      OverrideKeepsSign(defaults.minimumWordLength, word);
    } else {
      OverrideKeepsSign(defaults.beepTimeout, beep);
    }
    assert !p.Positive();
  }

  /** So one that slips can be accepted: this one wraps to a window of ten seconds. */
  lemma NegativeOverrideCanWrap()
    ensures MergeMillis(DefaultParams(), 0, 0, 0, -18446744063709, 0, 0).Validate() == Ok(())
  {
    var total := Override(DefaultParams().totalAnalysisTime, -18446744063709);
    assert total == 10_000_551_616;
    var p := DefaultParams().(totalAnalysisTime := total);
    assert p == MergeMillis(DefaultParams(), 0, 0, 0, -18446744063709, 0, 0);
    NoSpeechCheck(p);
  }
}
