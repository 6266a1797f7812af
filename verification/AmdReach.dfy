/** Which verdicts the thresholds allow at all: the closed-form checks against
    the existence of a frame sequence. */
module AmdReach {
  import opened Wrappers
  import opened Int64
  import opened AmdParams
  import opened AmdFsm
  import opened AmdRuns

  /** Some run from the start ends in this verdict. */
  ghost predicate Reachable(p: Params, v: Verdict) {
    exists frames: seq<bool> :: EndsIn(p, START, frames, v)
  }

  predicate EndsIn(p: Params, s: Snapshot, frames: seq<bool>, v: Verdict) {
    var det := Run(p, s, frames).1;
    det.Some? && det.value.result == v
  }

  function Repeat(voiced: bool, n: nat): (frames: seq<bool>)
    ensures |frames| == n
  {
    if n == 0 then [] else [voiced] + Repeat(voiced, n - 1)
  }

  /** A run of `n > 0` equal frames starts with one step. */
  lemma RepeatStep(p: Params, s: Snapshot, voiced: bool, n: nat)
    requires n > 0
    ensures var (t, det) := Step(p, s, voiced);
            Run(p, s, Repeat(voiced, n)) == if det.Some? then (t, det) else Run(p, t, Repeat(voiced, n - 1))
  {
    assert Repeat(voiced, n)[1..] == Repeat(voiced, n - 1);
  }

  lemma Prepend(p: Params, s: Snapshot, a: seq<bool>, b: seq<bool>, v: Verdict)
    requires Run(p, s, a).1.None? && EndsIn(p, Run(p, s, a).0, b, v)
    ensures EndsIn(p, s, a + b, v)
  {
    RunAppend(p, s, a, b);
  }

  // ---- Witness runs ----

  /** Silence from a waiting machine ends in no_speech. */
  lemma {:induction false} SilenceEndsInNoSpeech(p: Params, s: Snapshot, n: nat)
    requires s.phase == WaitingForSpeech && !s.speaking && n > 0
    requires s.initialSilence + (n - 1) * FRAME < p.initialSilenceTimeout <= s.initialSilence + n * FRAME
    requires s.elapsed + n * FRAME < p.totalAnalysisTime
    ensures EndsIn(p, s, Repeat(false, n), NoSpeech)
    decreases n
  {
    RepeatStep(p, s, false, n);
    if n > 1 {
      SilenceEndsInNoSpeech(p, Step(p, s, false).0, n - 1);
    }
  }

  /** Uninterrupted speech in a greeting ends in machine. */
  lemma {:induction false} SpeechEndsInMachine(p: Params, s: Snapshot, n: nat)
    requires s.phase == InGreeting && s.speaking && n > 0
    requires s.greetingDur + (n - 1) * FRAME < p.greetingDuration || n == 1
    requires p.greetingDuration <= s.greetingDur + n * FRAME
    requires s.elapsed + n * FRAME < p.totalAnalysisTime
    ensures EndsIn(p, s, Repeat(true, n), Machine)
    decreases n
  {
    RepeatStep(p, s, true, n);
    if n > 1 {
      SpeechEndsInMachine(p, Step(p, s, true).0, n - 1);
    }
  }

  /** Speech short of the machine threshold only lengthens the greeting. */
  lemma {:induction false} SpeechLengthensGreeting(p: Params, s: Snapshot, n: nat)
    requires s.phase == InGreeting && s.speaking && s.silentFrames == 0
    requires s.greetingDur + n * FRAME < p.greetingDuration || n == 0
    requires s.elapsed + n * FRAME < p.totalAnalysisTime
    ensures var (t, det) := Run(p, s, Repeat(true, n));
            && det.None? && t.phase == InGreeting && t.speaking && t.silentFrames == 0
            && t.elapsed == s.elapsed + n * FRAME && t.greetingDur == s.greetingDur + n * FRAME
            && t.currentSpeech == s.currentSpeech + n * FRAME && t.initialSilence == s.initialSilence
            && t.currentSilence == (if n == 0 then s.currentSilence else 0)
    decreases n
  {
    if n > 0 {
      RepeatStep(p, s, true, n);
      SpeechLengthensGreeting(p, Step(p, s, true).0, n - 1);
    }
  }

  /** Silence after a counted greeting ends in human. */
  lemma {:induction false} SilenceEndsInHuman(p: Params, s: Snapshot, n: nat)
    requires s.phase == InGreeting && !s.speaking && s.greetingDur > 0 && n > 0
    requires s.currentSilence + (n - 1) * FRAME < p.afterGreetingSilence <= s.currentSilence + n * FRAME
    requires s.elapsed + n * FRAME < p.totalAnalysisTime
    ensures EndsIn(p, s, Repeat(false, n), Human)
    decreases n
  {
    RepeatStep(p, s, false, n);
    if n > 1 {
      SilenceEndsInHuman(p, Step(p, s, false).0, n - 1);
    }
  }

  /** The first two voiced frames open a greeting. */
  lemma TwoVoicedFrames(p: Params)
    requires p.initialSilenceTimeout > FRAME && p.totalAnalysisTime > 2 * FRAME
    ensures Run(p, START, [true, true]) ==
            (Snapshot(InGreeting, 2 * FRAME, FRAME, FRAME, 0, FRAME, 2, 0, true), None)
  {
    var s := Step(p, START, true).0;
    assert [true, true][1..] == [true];
    assert Run(p, s, [true]) == Step(p, s, true) by {
      assert [true][1..] == [];
    }
  }

  /** Three silent frames do not end a burst; the fourth does. */
  lemma BurstEnds(p: Params, s: Snapshot)
    requires p.Positive()
    requires s.phase == InGreeting && s.speaking && s.silentFrames == 0
    requires s.greetingDur + 3 * FRAME < p.greetingDuration
    requires s.currentSpeech + 3 * FRAME >= p.minimumWordLength
    requires s.greetingDur >= s.currentSpeech > 0
    requires s.elapsed + 4 * FRAME < p.totalAnalysisTime
    ensures var (t, det) := Run(p, s, Repeat(false, 3));
            && det.None? && t.elapsed == s.elapsed + 3 * FRAME
            && var (u, last) := Step(p, t, false);
            && u.elapsed == s.elapsed + 4 * FRAME && u.phase == InGreeting && !u.speaking && u.greetingDur > 0
            && u.currentSilence == FRAME
            && (if p.afterGreetingSilence <= FRAME
                then last.Some? && last.value.result == Human else last.None?)
  {
    RepeatStep(p, s, false, 3);
    var s1 := Step(p, s, false).0;
    RepeatStep(p, s1, false, 2);
    var s2 := Step(p, s1, false).0;
    RepeatStep(p, s2, false, 1);
  }

  lemma NoSpeechWitness(p: Params)
    requires p.Positive() && NoSpeechWindow(p)
    ensures Reachable(p, NoSpeech)
  {
    SilenceEndsInNoSpeech(p, START, FrameCount(p.initialSilenceTimeout));
  }

  lemma MachineWitness(p: Params)
    requires p.Positive() && p.initialSilenceTimeout > FRAME && MachineReach(p)
    ensures Reachable(p, Machine)
  {
    TwoVoicedFrames(p);
    var s := Run(p, START, [true, true]).0;
    var n := if FrameCount(p.greetingDuration) < 2 then 1 else FrameCount(p.greetingDuration) - 1;
    SpeechEndsInMachine(p, s, n);
    Prepend(p, START, [true, true], Repeat(true, n), Machine);
  }

  lemma HumanWitness(p: Params)
    requires p.Positive() && p.initialSilenceTimeout > FRAME && HumanReach(p)
    ensures Reachable(p, Human)
  {
    var burst := MinBurst(p) / FRAME;
    assert MinBurst(p) == burst * FRAME && burst >= 4;
    TwoVoicedFrames(p);
    var s := Run(p, START, [true, true]).0;
    SpeechLengthensGreeting(p, s, burst - 4);
    var t := Run(p, s, Repeat(true, burst - 4)).0;
    var rest := Repeat(false, 3) + Repeat(false, FrameCount(p.afterGreetingSilence));
    HumanTail(p, t, FrameCount(p.afterGreetingSilence));
    Prepend(p, s, Repeat(true, burst - 4), rest, Human);
    Prepend(p, START, [true, true], Repeat(true, burst - 4) + rest, Human);
  }

  lemma HumanTail(p: Params, s: Snapshot, n: nat)
    requires p.Positive() && n == FrameCount(p.afterGreetingSilence)
    requires s.phase == InGreeting && s.speaking && s.silentFrames == 0
    requires s.greetingDur + 3 * FRAME < p.greetingDuration
    requires s.currentSpeech + 3 * FRAME >= p.minimumWordLength
    requires s.greetingDur >= s.currentSpeech > 0
    requires s.elapsed + (3 + n) * FRAME < p.totalAnalysisTime
    ensures EndsIn(p, s, Repeat(false, 3) + Repeat(false, n), Human)
  {
    BurstEnds(p, s);
    var t := Run(p, s, Repeat(false, 3)).0;
    RepeatStep(p, t, false, n);
    if p.afterGreetingSilence > FRAME {
      SilenceEndsInHuman(p, Step(p, t, false).0, n - 1);
    }
    Prepend(p, s, Repeat(false, 3), Repeat(false, n), Human);
  }

  // ---- Exact reachability ----

  lemma VerdictIsEarned(p: Params, frames: seq<bool>, v: Verdict)
    requires p.Positive() && EndsIn(p, START, frames, v)
    ensures Earned(p, Run(p, START, frames).1.value)
  {
    RunKeeps(p, START, frames);
  }

  /** Each verdict is reachable exactly when its window allows it: no_speech
      under the condition the source checks, machine and human also need an
      initial silence of more than one frame, machine at least two greeting
      frames, and human a machine threshold above the shortest counted burst. */
  lemma ReachableExactly(p: Params)
    requires p.Positive()
    ensures Reachable(p, NoSpeech) <==> NoSpeechWindow(p)
    ensures Reachable(p, Machine) <==> p.initialSilenceTimeout > FRAME && MachineReach(p)
    ensures Reachable(p, Human) <==> p.initialSilenceTimeout > FRAME && HumanReach(p)
  {
    forall frames: seq<bool>, v: Verdict | EndsIn(p, START, frames, v)
      ensures Earned(p, Run(p, START, frames).1.value)
    {
      VerdictIsEarned(p, frames, v);
    }
    if NoSpeechWindow(p) {
      NoSpeechWitness(p);
    }
    if p.initialSilenceTimeout > FRAME && MachineReach(p) {
      MachineWitness(p);
    }
    if p.initialSilenceTimeout > FRAME && HumanReach(p) {
      HumanWitness(p);
    }
  }

  /** A verdict implies the check the source makes for it, for all thresholds
      that 64 bits can hold. */
  lemma VerdictImpliesCheck(p: Params, frames: seq<bool>)
    requires p.Positive() && Run(p, START, frames).1.Some?
    ensures match Run(p, START, frames).1.value.result
            case NoSpeech => p.CanReachNoSpeech()
            case Machine => p.CanReachMachine()
            case Human => p.CanReachHuman()
            case NotSure => true
  {
    RunKeeps(p, START, frames);
    ChecksAgainstExactWindows(p);
  }

  /** Some run reaches a verdict other than not_sure. */
  ghost predicate Useful(p: Params) {
    Reachable(p, NoSpeech) || Reachable(p, Machine) || Reachable(p, Human)
  }

  /** Validation never refuses a window that could have produced a verdict, for
      all thresholds that 64 bits can hold. */
  lemma RefusedIsNeverUseful(p: Params)
    requires p.Positive()
    ensures p.Validate().Err? ==> !Useful(p)
    ensures p.Validate().Err? ==>
              forall frames: seq<bool> | Run(p, START, frames).1.Some? :: Run(p, START, frames).1.value.result == NotSure
  {
    if p.Validate().Err? {
      forall frames: seq<bool> | Run(p, START, frames).1.Some?
        ensures Run(p, START, frames).1.value.result == NotSure
      {
        VerdictImpliesCheck(p, frames);
      }
    }
  }

  /** The analysis is over before any of the three verdicts is due, in exact
      arithmetic. */
  predicate Hopeless(p: Params)
    requires p.Positive()
  {
    && p.totalAnalysisTime <= RoundUp(p.initialSilenceTimeout)
    && !MachineReach(p)
    && p.totalAnalysisTime <= HumanSum(p)
  }

  /** The shortest analysis of a human verdict. */
  function HumanSum(p: Params): nat
    requires p.Positive()
  {
    MinBurst(p) + FRAME + RoundUp(p.afterGreetingSilence)
  }

  /** The initial silence and the greeting threshold need not be asked about:
      where a machine or human verdict is ruled out by them, another is due. */
  lemma UsefulUnlessHopeless(p: Params)
    requires p.Positive()
    ensures Useful(p) <==> !Hopeless(p)
  {
    ReachableExactly(p);
    RoundUpIsThreshold(p.greetingDuration, FrameCount(p.minimumWordLength));
    RoundUpIsThreshold(p.greetingDuration, SPEECH_OFF_FRAMES);
    RoundUpIsThreshold(p.initialSilenceTimeout, 1);
    RoundUpIsThreshold(p.afterGreetingSilence, 0);
  }

  /** The one family of windows without wrap-around that Validate accepts although
      no run in it can reach a verdict: a greeting threshold of at most one frame,
      an analysis that ends with the second greeting frame, and an initial silence
      at least as long as the analysis. */
  predicate BlindWindow(p: Params)
    requires p.Positive()
  {
    && p.greetingDuration <= FRAME
    && 2 * FRAME < p.totalAnalysisTime <= 3 * FRAME
    && p.totalAnalysisTime <= RoundUp(p.initialSilenceTimeout)
  }

  /** Where a rounding beyond the limit lands below zero. */
  function Overshoot(d: Duration): int {
    (0x1_0000_0000_0000_0000 - d - FRAME + 1) / FRAME * FRAME
  }

  /** The burst of the human check: a minimum word length beyond the rounding
      limit counts as none. */
  function CheckedBurst(p: Params): nat
    requires p.Positive()
  {
    if p.minimumWordLength > ROUND_LIMIT then SPEECH_OFF_FRAMES * FRAME else MinBurst(p)
  }

  /** The human check passes on a sum that wrapped: its burst was dropped, or its
      after-greeting silence counts as negative, or the sum is beyond 64 bits. */
  predicate HumanSumWraps(p: Params)
    requires p.Positive()
  {
    var burst := CheckedBurst(p);
    if p.afterGreetingSilence > ROUND_LIMIT then p.totalAnalysisTime > burst + FRAME - Overshoot(p.afterGreetingSilence)
    else
      var sum := burst + FRAME + RoundUp(p.afterGreetingSilence);
      sum > MAX_INT64 || (p.minimumWordLength > ROUND_LIMIT && p.totalAnalysisTime > sum)
  }

  /** A check passes only because its 64-bit sum wrapped. */
  predicate WrappedCheckPasses(p: Params)
    requires p.Positive()
  {
    || p.initialSilenceTimeout > ROUND_LIMIT
    || RoundUp(p.greetingDuration) + FRAME > MAX_INT64
    || HumanSumWraps(p)
  }

  /** Validate's answer is exact for all thresholds that 64 bits can hold, but
      for two families: the blind windows, and the hopeless ones of which a
      wrapped sum makes a check pass. */
  lemma ValidationIsExact(p: Params)
    requires p.Positive()
    ensures (p.Validate().Ok? <==> Useful(p)) <==> !(BlindWindow(p) || (Hopeless(p) && WrappedCheckPasses(p)))
  {
    UsefulUnlessHopeless(p);
    RoundUpIsThreshold(p.greetingDuration, 1);
    if Useful(p) {
      RefusedIsNeverUseful(p);
    } else {
      SilenceCheckPasses(p);
      GreetingCheckPasses(p);
      HumanCheckPasses(p);
    }
  }

  lemma SilenceCheckPasses(p: Params)
    requires p.Positive() && Hopeless(p)
    ensures p.CanReachNoSpeech() <==> p.initialSilenceTimeout > ROUND_LIMIT
  {
    AnalysisFramesRoundsUp(p.initialSilenceTimeout);
  }

  lemma GreetingCheckPasses(p: Params)
    requires p.Positive() && Hopeless(p)
    ensures p.CanReachMachine() <==>
            RoundUp(p.greetingDuration) + FRAME > MAX_INT64 || (p.greetingDuration <= FRAME && p.totalAnalysisTime > 2 * FRAME)
  {
    var d := p.greetingDuration;
    AnalysisFramesRoundsUp(d);
    RoundUpIsThreshold(d, 1);
    WrapOfSum(AnalysisFrames(d) + FRAME);
  }

  /** The check with one wrap-around, at the end. */
  lemma HumanCheckReads(p: Params)
    requires p.Positive()
    ensures p.CanReachHuman() <==>
            p.totalAnalysisTime > Wrap(CheckedBurst(p) + FRAME + AnalysisFrames(p.afterGreetingSilence))
    ensures SPEECH_OFF_FRAMES * FRAME <= CheckedBurst(p) <= MAX_INT64
  {
    AnalysisFramesRoundsUp(p.minimumWordLength);
    RoundUpIsThreshold(p.minimumWordLength, 0);
    WrapOfWraps(CheckedBurst(p) + FRAME, AnalysisFrames(p.afterGreetingSilence));
  }

  /** The last duration that is a whole number of frames. */
  const LAST_FRAME: int := MAX_INT64 / FRAME * FRAME

  lemma WholeFramesEndEarly(n: int)
    requires n * FRAME <= MAX_INT64
    ensures n * FRAME <= LAST_FRAME
  {
  }

  lemma BurstEndsEarly(p: Params)
    requires p.Positive()
    ensures CheckedBurst(p) <= LAST_FRAME
  {
    if p.minimumWordLength <= ROUND_LIMIT {
      RoundUpIsThreshold(p.minimumWordLength, 0);
      WholeFramesEndEarly(FrameCount(p.minimumWordLength));
    }
  }

  lemma PassesByWrap(time: Duration, sum: int)
    requires time > 0 && 0 <= sum <= MAX_INT64 + MAX_INT64 + 1
    ensures time > Wrap(sum) <==> sum > MAX_INT64 || time > sum
  {
    WrapOfSum(sum);
  }

  lemma SilenceFits(p: Params)
    requires p.Positive() && p.afterGreetingSilence <= ROUND_LIMIT
    ensures AnalysisFrames(p.afterGreetingSilence) == RoundUp(p.afterGreetingSilence) <= LAST_FRAME
  {
    AnalysisFramesRoundsUp(p.afterGreetingSilence);
    RoundUpIsThreshold(p.afterGreetingSilence, 0);
    WholeFramesEndEarly(FrameCount(p.afterGreetingSilence));
  }

  lemma ShortSilenceReads(p: Params, passes: bool, burst: int, silence: int)
    requires p.Positive() && (passes <==> p.totalAnalysisTime > Wrap(burst + FRAME + silence))
    requires 0 <= burst <= LAST_FRAME && 0 <= silence <= LAST_FRAME
    ensures passes <==> burst + FRAME + silence > MAX_INT64 || p.totalAnalysisTime > burst + FRAME + silence
  {
    PassesByWrap(p.totalAnalysisTime, burst + FRAME + silence);
  }

  lemma HopelessSum(p: Params, sum: int)
    requires p.Positive() && Hopeless(p) && p.minimumWordLength <= ROUND_LIMIT
    requires sum == CheckedBurst(p) + FRAME + RoundUp(p.afterGreetingSilence)
    ensures p.totalAnalysisTime <= sum
  {
  }

  lemma ShortSilence(p: Params)
    requires p.Positive() && Hopeless(p) && p.afterGreetingSilence <= ROUND_LIMIT
    ensures p.CanReachHuman() <==> HumanSumWraps(p)
  {
    HumanCheckReads(p);
    SilenceFits(p);
    BurstEndsEarly(p);
    ShortSilenceReads(p, p.CanReachHuman(), CheckedBurst(p), RoundUp(p.afterGreetingSilence));
    if p.minimumWordLength <= ROUND_LIMIT {
      HopelessSum(p, CheckedBurst(p) + FRAME + RoundUp(p.afterGreetingSilence));
    }
  }

  lemma LongSilence(p: Params)
    requires p.Positive() && p.afterGreetingSilence > ROUND_LIMIT
    ensures p.CanReachHuman() <==> HumanSumWraps(p)
  {
    var a := p.afterGreetingSilence;
    HumanCheckReads(p);
    BeyondLimit(a);
    WrapOfSum(CheckedBurst(p) + FRAME - Overshoot(a));
  }

  lemma HumanCheckPasses(p: Params)
    requires p.Positive() && Hopeless(p)
    ensures p.CanReachHuman() <==> HumanSumWraps(p)
  {
    if p.afterGreetingSilence > ROUND_LIMIT {
      LongSilence(p);
    } else {
      ShortSilence(p);
    }
  }

  lemma BeyondLimit(d: Duration)
    requires d > ROUND_LIMIT
    ensures AnalysisFrames(d) == -Overshoot(d)
    ensures MAX_INT64 - 2 * FRAME < Overshoot(d) <= MAX_INT64 + 1
  {
    var w := d + FRAME - 1 - 0x1_0000_0000_0000_0000;
    assert Wrap(d + FRAME - 1) == w;
    assert Quotient(w, FRAME) == -((-w) / FRAME);
    assert Quotient(w, FRAME) * FRAME == -Overshoot(d);
    assert -w - FRAME < Overshoot(d) <= -w;
  }

  /** Wrapping a part first does not change the wrapped sum. */
  lemma WrapOfWraps(x: int, y: int)
    ensures Wrap(Wrap(x) + y) == Wrap(x + y)
  {
    var q := (x - MIN_INT64) / 0x1_0000_0000_0000_0000;
    assert Wrap(x) == x - q * 0x1_0000_0000_0000_0000;
    ShiftedWrap(x + y, -q);
  }

  lemma ShiftedWrap(x: int, q: int)
    ensures Wrap(x + q * 0x1_0000_0000_0000_0000) == Wrap(x)
  {
  }

  /** As long as no threshold is near the end of the range, validation is exact
      but for the blind windows; with a greeting threshold above one frame it is
      exact outright. */
  lemma ValidationIsExactWithinClock(p: Params)
    requires p.Positive() && WithinClock(p)
    ensures (p.Validate().Ok? <==> Useful(p)) <==> !BlindWindow(p)
    ensures p.greetingDuration > FRAME ==> (p.Validate().Ok? <==> Useful(p))
  {
    ValidationIsExact(p);
    RoundUpIsThreshold(p.greetingDuration, 0);
    RoundUpIsThreshold(p.afterGreetingSilence, 0);
    RoundUpIsThreshold(p.minimumWordLength, 0);
  }

  /** Two windows that a request can ask for and Validate accepts, although no run
      can decide: one of each family. The first is 60 ms with a 20 ms greeting. */
  lemma BlindRequest()
    ensures var p := MergeMillis(DefaultParams(), 60, 20, 0, 60, 0, 0);
            p.Positive() && BlindWindow(p) && p.Validate().Ok? && !Useful(p)
  {
    var p := MergeMillis(DefaultParams(), 60, 20, 0, 60, 0, 0);
    assert p == Params(60 * MILLISECOND, 20 * MILLISECOND, 800 * MILLISECOND, 60 * MILLISECOND, 100 * MILLISECOND, 0);
    UsefulUnlessHopeless(p);
    GreetingCheckPasses(p);
  }

  /** The second analyses one second with windows of nearly 300 years. */
  lemma RoundingCanWrap()
    ensures var p := MergeMillis(DefaultParams(), 9223372036854, 9223372036854, 9223372036854, 1000, 0, 0);
            p.Positive() && WrappedCheckPasses(p) && p.Validate().Ok? && !Useful(p)
  {
    var p := MergeMillis(DefaultParams(), 9223372036854, 9223372036854, 9223372036854, 1000, 0, 0);
    var long := 9223372036854 * MILLISECOND;
    assert p == Params(long, long, long, 1000 * MILLISECOND, 100 * MILLISECOND, 0);
    RoundUpIsThreshold(long, 0);
    UsefulUnlessHopeless(p);
    SilenceCheckPasses(p);
  }
}
