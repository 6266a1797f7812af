/** Whole runs of the classification machine: what every frame sequence keeps,
    and an independent account of the speech it has heard. */
module AmdRuns {
  import opened Wrappers
  import opened AmdParams
  import opened AmdFsm

  /** Steps through `frames` until the first verdict. */
  function Run(p: Params, s: Snapshot, frames: seq<bool>): (Snapshot, Option<Detection>)
    decreases |frames|
  {
    if frames == [] then (s, None)
    else
      var (t, det) := Step(p, s, frames[0]);
      if det.Some? then (t, det) else Run(p, t, frames[1..])
  }

  /** A verdict ends the run, and a run without one can be continued. */
  lemma {:induction false} RunAppend(p: Params, s: Snapshot, a: seq<bool>, b: seq<bool>)
    ensures Run(p, s, a + b) == if Run(p, s, a).1.Some? then Run(p, s, a) else Run(p, Run(p, s, a).0, b)
    decreases |a|
  {
    if a == [] {
      assert a + b == b;
    } else {
      assert (a + b)[0] == a[0] && (a + b)[1..] == a[1..] + b;
      RunAppend(p, Step(p, s, a[0]).0, a[1..], b);
    }
  }

  /** The last step of a run that has not ended before it. */
  lemma RunLast(p: Params, s: Snapshot, frames: seq<bool>)
    requires frames != []
    ensures var n := |frames| - 1;
            var (t, det) := Run(p, s, frames[..n]);
            Run(p, s, frames) == if det.Some? then (t, det) else Step(p, t, frames[n])
  {
    var n := |frames| - 1;
    assert frames == frames[..n] + [frames[n]];
    RunAppend(p, s, frames[..n], [frames[n]]);
    var t := Run(p, s, frames[..n]).0;
    assert Run(p, t, [frames[n]]) == Step(p, t, frames[n]) by {
      assert [frames[n]][1..] == [];
    }
  }

  /** The frames a run consumes, the one that ends it included. */
  function Used(p: Params, s: Snapshot, frames: seq<bool>): (n: nat)
    ensures n <= |frames|
    decreases |frames|
  {
    if frames == [] then 0
    else
      var (t, det) := Step(p, s, frames[0]);
      if det.Some? then 1 else 1 + Used(p, t, frames[1..])
  }

  lemma {:induction false} UndecidedRunUsesAll(p: Params, s: Snapshot, frames: seq<bool>)
    requires Run(p, s, frames).1.None?
    ensures Used(p, s, frames) == |frames|
    decreases |frames|
  {
    if frames != [] {
      UndecidedRunUsesAll(p, Step(p, s, frames[0]).0, frames[1..]);
    }
  }

  /** A run is decided by the last frame it uses, and not before. */
  lemma {:induction false} RunUses(p: Params, s: Snapshot, frames: seq<bool>)
    requires Run(p, s, frames).1.Some?
    ensures var n := Used(p, s, frames);
            && 0 < n <= |frames|
            && Run(p, s, frames[..n]) == Run(p, s, frames)
            && Run(p, s, frames[..n - 1]).1.None?
    decreases |frames|
  {
    var n := Used(p, s, frames);
    var (t, det) := Step(p, s, frames[0]);
    assert frames[..n][0] == frames[0];
    if det.None? {
      RunUses(p, t, frames[1..]);
      assert frames[..n][1..] == frames[1..][..n - 1];
      assert frames[..n - 1][1..] == frames[1..][..n - 2];
    }
  }

  // ---- What every state without a verdict keeps ----

  predicate WholeFrames(d: int) {
    d >= 0 && d % FRAME == 0
  }

  /** The measurements, taken together, never exceed the time analysed. */
  ghost predicate Accounted(s: Snapshot) {
    && WholeFrames(s.elapsed) && WholeFrames(s.initialSilence) && WholeFrames(s.greetingDur)
    && WholeFrames(s.currentSilence) && WholeFrames(s.currentSpeech)
    && s.initialSilence + s.greetingDur + s.currentSilence <= s.elapsed
    && s.currentSpeech <= s.greetingDur
    && 0 <= s.activeFrames * FRAME <= s.elapsed
    && 0 <= s.silentFrames * FRAME <= s.elapsed
  }

  ghost predicate Waiting(s: Snapshot) {
    && s.phase == WaitingForSpeech
    && !s.speaking
    && s.activeFrames < SPEECH_ON_FRAMES
    && s.greetingDur == 0 && s.currentSilence == 0 && s.currentSpeech == 0
    && (s.elapsed > 0 ==> s.initialSilence >= FRAME)
  }

  ghost predicate Greeting(p: Params, s: Snapshot)
    requires p.Positive()
  {
    && s.phase == InGreeting
    && s.initialSilence >= FRAME
    && s.elapsed >= 2 * FRAME
    && (s.greetingDur < p.greetingDuration || s.greetingDur == FRAME)
    && s.currentSilence < p.afterGreetingSilence
    && (if s.speaking then OpenBurst(p, s) else NoOpenBurst(p, s))
  }

  ghost predicate OpenBurst(p: Params, s: Snapshot)
    requires p.Positive()
  {
    && 0 <= s.silentFrames < SPEECH_OFF_FRAMES
    && s.currentSilence == 0
    && s.currentSpeech >= (s.silentFrames + 1) * FRAME
    && (s.greetingDur == s.currentSpeech || s.greetingDur - s.currentSpeech >= MinBurst(p))
  }

  ghost predicate NoOpenBurst(p: Params, s: Snapshot)
    requires p.Positive()
  {
    && s.activeFrames < SPEECH_ON_FRAMES
    && s.currentSpeech == 0
    && s.currentSilence >= FRAME
    && (s.greetingDur == 0 || s.greetingDur >= MinBurst(p))
  }

  ghost predicate Inv(p: Params, s: Snapshot)
    requires p.Positive()
  {
    && Accounted(s)
    && (s.elapsed > 0 ==> s.elapsed < p.totalAnalysisTime && p.initialSilenceTimeout > FRAME)
    && (Waiting(s) || Greeting(p, s))
  }

  /** What a verdict other than not_sure costs in analysed time. */
  ghost predicate Earned(p: Params, det: Detection)
    requires p.Positive()
  {
    match det.result
    case NotSure => true
    case NoSpeech => NoSpeechWindow(p)
    case Machine => p.initialSilenceTimeout > FRAME && MachineReach(p)
    case Human => p.initialSilenceTimeout > FRAME && HumanReach(p)
  }

  /** The exact window of the machine verdict: the frame that opens the greeting
      skips the machine check, so two greeting frames are the least. */
  predicate MachineReach(p: Params)
    requires p.Positive()
  {
    var greeting := if RoundUp(p.greetingDuration) < 2 * FRAME then 2 * FRAME else RoundUp(p.greetingDuration);
    p.totalAnalysisTime > greeting + FRAME
  }

  predicate HumanReach(p: Params)
    requires p.Positive()
  {
    p.greetingDuration > MinBurst(p) && p.totalAnalysisTime > MinBurst(p) + FRAME + RoundUp(p.afterGreetingSilence)
  }

  ghost predicate Reported(det: Detection, s: Snapshot) {
    && det.initialSilenceMs >= 0 && det.greetingDurationMs >= 0
    && det.initialSilenceMs + det.greetingDurationMs <= det.totalAnalysisMs
    && det.totalAnalysisMs * MILLISECOND == s.elapsed
  }

  lemma RoundUpIsLeast(d: int, w: int)
    requires d >= 0 && WholeFrames(w) && w >= d
    ensures w >= RoundUp(d)
  {
    assert w == (w / FRAME) * FRAME;
    RoundUpIsThreshold(d, w / FRAME);
  }

  lemma MillisOfFrames(d: int)
    requires WholeFrames(d)
    ensures Millis(d) * MILLISECOND == d
  {
    assert d % MILLISECOND == 0;
  }

  lemma ListenKeeps(p: Params, s: Snapshot, voiced: bool)
    requires p.Positive() && Inv(p, s)
    ensures var t := Listen(s, voiced);
            && t.elapsed == s.elapsed + FRAME && WholeFrames(t.elapsed)
            && 0 <= t.activeFrames * FRAME <= t.elapsed && 0 <= t.silentFrames * FRAME <= t.elapsed
            && (t.speaking && !s.speaking ==> t.silentFrames == 0 && t.elapsed >= 2 * FRAME)
            && (!t.speaking && s.speaking ==> t.silentFrames == SPEECH_OFF_FRAMES)
            && (!t.speaking ==> t.activeFrames < SPEECH_ON_FRAMES)
            && (t.speaking && s.speaking ==> 0 <= t.silentFrames < SPEECH_OFF_FRAMES && t.silentFrames <= s.silentFrames + 1)
  {
  }

  lemma WaitingStepKeeps(p: Params, s: Snapshot, voiced: bool)
    requires p.Positive() && Inv(p, s) && Waiting(s)
    requires s.elapsed + FRAME < p.totalAnalysisTime
    ensures var (t, det) := Step(p, s, voiced);
            if det.None? then Inv(p, t)
            else det.value.result == NoSpeech && Earned(p, det.value) && Reported(det.value, t)
  {
    ListenKeeps(p, s, voiced);
    var (t, det) := Step(p, s, voiced);
    if det.Some? {
      RoundUpIsLeast(p.initialSilenceTimeout, t.initialSilence);
      MillisOfFrames(t.initialSilence);
      MillisOfFrames(t.elapsed);
    }
  }

  lemma ReportFits(v: Verdict, t: Snapshot)
    requires WholeFrames(t.initialSilence) && WholeFrames(t.greetingDur) && WholeFrames(t.elapsed)
    requires t.initialSilence + t.greetingDur <= t.elapsed
    ensures Reported(Report(v, t), t)
  {
    MillisOfFrames(t.initialSilence);
    MillisOfFrames(t.greetingDur);
    MillisOfFrames(t.elapsed);
  }

  lemma SpeakingGoesOn(p: Params, s: Snapshot, voiced: bool)
    requires p.Positive() && Inv(p, s) && Greeting(p, s) && Listen(s, voiced).speaking
    requires s.elapsed + FRAME < p.totalAnalysisTime && Step(p, s, voiced).1.None?
    ensures Inv(p, Step(p, s, voiced).0)
  {
    ListenKeeps(p, s, voiced);
  }

  lemma SpeakingDecides(p: Params, s: Snapshot, voiced: bool)
    requires p.Positive() && Inv(p, s) && Greeting(p, s) && Listen(s, voiced).speaking
    requires s.elapsed + FRAME < p.totalAnalysisTime && Step(p, s, voiced).1.Some?
    ensures var (t, det) := Step(p, s, voiced);
            det.value.result == Machine && Earned(p, det.value) && Reported(det.value, t)
  {
    var t := Step(p, s, voiced).0;
    assert t.greetingDur == s.greetingDur + FRAME;
    RoundUpIsLeast(p.greetingDuration, t.greetingDur);
    ReportFits(Machine, t);
  }

  lemma SpeakingStepKeeps(p: Params, s: Snapshot, voiced: bool)
    requires p.Positive() && Inv(p, s) && Greeting(p, s) && Listen(s, voiced).speaking
    requires s.elapsed + FRAME < p.totalAnalysisTime
    ensures var (t, det) := Step(p, s, voiced);
            if det.None? then Inv(p, t)
            else det.value.result == Machine && Earned(p, det.value) && Reported(det.value, t)
  {
    if Step(p, s, voiced).1.None? {
      SpeakingGoesOn(p, s, voiced);
    } else {
      SpeakingDecides(p, s, voiced);
    }
  }

  /** A burst is counted only if it lasted MinBurst. */
  lemma EndedBurst(p: Params, s: Snapshot, voiced: bool)
    requires p.Positive() && Inv(p, s) && Greeting(p, s) && s.speaking && !Listen(s, voiced).speaking
    ensures s.currentSpeech >= p.minimumWordLength ==> s.currentSpeech >= MinBurst(p)
    ensures s.currentSpeech >= SPEECH_OFF_FRAMES * FRAME
  {
    if s.currentSpeech >= p.minimumWordLength {
      RoundUpIsLeast(p.minimumWordLength, s.currentSpeech);
    }
  }

  /** The greeting left once a quiet frame has closed the open burst, if any. */
  function GreetingWhenQuiet(p: Params, s: Snapshot): int {
    if s.speaking && s.currentSpeech < p.minimumWordLength then s.greetingDur - s.currentSpeech else s.greetingDur
  }

  lemma QuietGreeting(p: Params, s: Snapshot, voiced: bool)
    requires p.Positive() && Inv(p, s) && Greeting(p, s) && !Listen(s, voiced).speaking
    ensures var g := GreetingWhenQuiet(p, s);
            && WholeFrames(g) && g <= s.greetingDur
            && (g == 0 || MinBurst(p) <= g < p.greetingDuration)
  {
    if s.speaking {
      EndedBurst(p, s, voiced);
      WholeDifference(s.greetingDur, s.currentSpeech);
    }
  }

  lemma WholeDifference(a: int, b: int)
    requires WholeFrames(a) && WholeFrames(b) && b <= a
    ensures WholeFrames(a - b)
  {
    assert a == (a / FRAME) * FRAME && b == (b / FRAME) * FRAME;
    assert a - b == (a / FRAME - b / FRAME) * FRAME;
  }

  lemma QuietGoesOn(p: Params, s: Snapshot, voiced: bool)
    requires p.Positive() && Inv(p, s) && Greeting(p, s) && !Listen(s, voiced).speaking
    requires s.elapsed + FRAME < p.totalAnalysisTime && Step(p, s, voiced).1.None?
    ensures Inv(p, Step(p, s, voiced).0)
  {
    ListenKeeps(p, s, voiced);
    QuietGreeting(p, s, voiced);
    var t := Step(p, s, voiced).0;
    assert t.greetingDur == GreetingWhenQuiet(p, s) && t.currentSpeech == 0;
  }

  /** What a step reports that ends the greeting by silence. */
  lemma HumanShape(p: Params, s: Snapshot, voiced: bool)
    requires s.phase == InGreeting && !Listen(s, voiced).speaking
    requires s.elapsed + FRAME < p.totalAnalysisTime && Step(p, s, voiced).1.Some?
    ensures var (t, det) := Step(p, s, voiced);
            && det == Some(Report(Human, t))
            && t.elapsed == s.elapsed + FRAME && t.initialSilence == s.initialSilence
            && t.greetingDur == GreetingWhenQuiet(p, s) > 0
            && t.currentSilence == s.currentSilence + FRAME >= p.afterGreetingSilence
  {
  }

  lemma WholeSum(a: int, b: int)
    requires WholeFrames(a) && WholeFrames(b)
    ensures WholeFrames(a + b)
  {
    assert a == (a / FRAME) * FRAME && b == (b / FRAME) * FRAME;
    assert a + b == (a / FRAME + b / FRAME) * FRAME;
  }

  lemma QuietDecides(p: Params, s: Snapshot, voiced: bool)
    requires p.Positive() && Inv(p, s) && Greeting(p, s) && !Listen(s, voiced).speaking
    requires s.elapsed + FRAME < p.totalAnalysisTime && Step(p, s, voiced).1.Some?
    ensures var (t, det) := Step(p, s, voiced);
            det.value.result == Human && Earned(p, det.value) && Reported(det.value, t)
  {
    QuietGreeting(p, s, voiced);
    HumanShape(p, s, voiced);
    WholeSum(s.currentSilence, FRAME);
    WholeSum(s.elapsed, FRAME);
    RoundUpIsLeast(p.afterGreetingSilence, s.currentSilence + FRAME);
    ReportFits(Human, Step(p, s, voiced).0);
  }

  lemma QuietStepKeeps(p: Params, s: Snapshot, voiced: bool)
    requires p.Positive() && Inv(p, s) && Greeting(p, s) && !Listen(s, voiced).speaking
    requires s.elapsed + FRAME < p.totalAnalysisTime
    ensures var (t, det) := Step(p, s, voiced);
            if det.None? then Inv(p, t)
            else det.value.result == Human && Earned(p, det.value) && Reported(det.value, t)
  {
    if Step(p, s, voiced).1.None? {
      QuietGoesOn(p, s, voiced);
    } else {
      QuietDecides(p, s, voiced);
    }
  }

  lemma StepKeeps(p: Params, s: Snapshot, voiced: bool)
    requires p.Positive() && Inv(p, s)
    ensures var (t, det) := Step(p, s, voiced);
            && t.elapsed == s.elapsed + FRAME
            && if det.None? then Inv(p, t) else Earned(p, det.value) && Reported(det.value, t)
  {
    if s.elapsed + FRAME >= p.totalAnalysisTime {
      MillisOfFrames(s.initialSilence);
      MillisOfFrames(s.greetingDur);
      MillisOfFrames(s.elapsed + FRAME);
    } else if s.phase == WaitingForSpeech {
      WaitingStepKeeps(p, s, voiced);
    } else if Listen(s, voiced).speaking {
      SpeakingStepKeeps(p, s, voiced);
    } else {
      QuietStepKeeps(p, s, voiced);
    }
  }

  lemma {:induction false} RunKeeps(p: Params, s: Snapshot, frames: seq<bool>)
    requires p.Positive() && Inv(p, s)
    ensures var (t, det) := Run(p, s, frames);
            if det.None? then Inv(p, t) && t.elapsed == s.elapsed + |frames| * FRAME
            else Earned(p, det.value) && Reported(det.value, t) && t.elapsed <= s.elapsed + |frames| * FRAME
    decreases |frames|
  {
    if frames != [] {
      StepKeeps(p, s, frames[0]);
      var (t, det) := Step(p, s, frames[0]);
      if det.None? {
        RunKeeps(p, t, frames[1..]);
      }
    }
  }

  // ---- Main results over every run ----

  /** Time accounting: after any frames without a verdict, the analysed time is
      the frames fed, the silences and the greeting fit in it, a waiting machine
      has counted no greeting and is not speaking, and every quantity the source
      keeps in 64 bits fits them. */
  lemma TimeAccounting(p: Params, frames: seq<bool>)
    requires p.Positive() && Run(p, START, frames).1.None?
    ensures var s := Run(p, START, frames).0;
            && s.elapsed == |frames| * FRAME
            && (frames != [] ==> s.elapsed < p.totalAnalysisTime)
            && WholeFrames(s.initialSilence) && WholeFrames(s.greetingDur) && WholeFrames(s.currentSilence)
            && s.initialSilence + s.greetingDur + s.currentSilence <= s.elapsed
            && s.currentSpeech <= s.greetingDur
            && 0 <= s.activeFrames <= |frames| && 0 <= s.silentFrames <= |frames|
            && s.phase in {WaitingForSpeech, InGreeting}
            && (s.phase == WaitingForSpeech ==> s.greetingDur == 0 && !s.speaking)
  {
    RunKeeps(p, START, frames);
  }

  /** Every verdict reports a silence and a greeting that fit in the analysis. */
  lemma VerdictReportsFit(p: Params, frames: seq<bool>)
    requires p.Positive() && Run(p, START, frames).1.Some?
    ensures var (t, det) := Run(p, START, frames);
            && det.value.initialSilenceMs >= 0 && det.value.greetingDurationMs >= 0
            && det.value.initialSilenceMs + det.value.greetingDurationMs <= det.value.totalAnalysisMs
            && det.value.totalAnalysisMs * MILLISECOND <= |frames| * FRAME
  {
    RunKeeps(p, START, frames);
  }

  /** At a deadline without a verdict: no_speech exactly when the machine is
      still waiting, and the same bound on what is reported. */
  lemma DeadlineVerdict(p: Params, frames: seq<bool>)
    requires p.Positive() && Run(p, START, frames).1.None?
    ensures var s := Run(p, START, frames).0;
            var det := DeadlineReport(s);
            && det.result == (if s.phase == WaitingForSpeech then NoSpeech else NotSure)
            && det.totalAnalysisMs == |frames| * 20
            && det.initialSilenceMs + det.greetingDurationMs <= det.totalAnalysisMs
  {
    RunKeeps(p, START, frames);
    var s := Run(p, START, frames).0;
    MillisOfFrames(s.initialSilence);
    MillisOfFrames(s.greetingDur);
    MillisOfFrames(s.elapsed);
  }

  /** Every run ends within the total analysis time, rounded up to frames. */
  lemma RunEnds(p: Params, frames: seq<bool>)
    requires p.Positive() && |frames| >= FrameCount(p.totalAnalysisTime)
    ensures Run(p, START, frames).1.Some?
  {
    RoundUpIsThreshold(p.totalAnalysisTime, |frames|);
    RunKeeps(p, START, frames);
  }

  // ---- The greeting, measured from the frames alone ----

  /** The last `k` frames all carry this classification. */
  predicate EndsWith(frames: seq<bool>, voiced: bool, k: nat) {
    k <= |frames| && forall i | |frames| - k <= i < |frames| :: frames[i] == voiced
  }

  /** The debounced voice activity after `frames`: it starts once the last two
      frames are voiced and stops once the last four are silent. */
  ghost predicate Talking(frames: seq<bool>) {
    if frames == [] then false
    else if Talking(frames[..|frames| - 1]) then !EndsWith(frames, false, 4)
    else EndsWith(frames, true, 2)
  }

  /** The frames since the current burst of talk began; 0 when there is none. */
  ghost function OpenTalk(frames: seq<bool>): (n: nat)
    ensures n > 0 <==> Talking(frames)
  {
    if Talking(frames) then
      assert frames != [];
      OpenTalk(frames[..|frames| - 1]) + 1
    else 0
  }

  /** The frames of every finished burst that lasted at least `minWord`. */
  ghost function FinishedTalk(minWord: int, frames: seq<bool>): nat {
    if frames == [] then 0
    else
      var before := frames[..|frames| - 1];
      var open := OpenTalk(before);
      FinishedTalk(minWord, before) +
      if !Talking(frames) && open > 0 && open * FRAME >= minWord then open else 0
  }

  /** The frames at the end of the stream that carry the same classification. */
  ghost function Tail(frames: seq<bool>, voiced: bool): nat {
    if frames != [] && frames[|frames| - 1] == voiced then Tail(frames[..|frames| - 1], voiced) + 1 else 0
  }

  lemma TailMeans(frames: seq<bool>, voiced: bool, k: nat)
    ensures Tail(frames, voiced) <= |frames|
    ensures Tail(frames, voiced) >= k <==> EndsWith(frames, voiced, k)
  {
    if frames != [] {
      var before := frames[..|frames| - 1];
      TailMeans(before, voiced, if k > 0 then k - 1 else 0);
      if k > 0 && k <= |frames| && frames[|frames| - 1] == voiced {
        assert EndsWith(frames, voiced, k) <==> EndsWith(before, voiced, k - 1);
      }
    }
  }

  lemma TalkingByTails(frames: seq<bool>)
    requires frames != []
    ensures Talking(frames) ==
            if Talking(frames[..|frames| - 1]) then Tail(frames, false) < 4 else Tail(frames, true) >= 2
  {
    TailMeans(frames, false, 4);
    TailMeans(frames, true, 2);
  }

  /** The machine's counters agree with what the frames say. */
  ghost predicate Tallied(p: Params, frames: seq<bool>, s: Snapshot) {
    && s.activeFrames == Tail(frames, true) && s.silentFrames == Tail(frames, false)
    && s.speaking == Talking(frames)
    && s.currentSpeech == OpenTalk(frames) * FRAME
    && s.greetingDur == (FinishedTalk(p.minimumWordLength, frames) + OpenTalk(frames)) * FRAME
  }

  lemma ListenTallies(p: Params, before: seq<bool>, s: Snapshot, voiced: bool)
    requires Tallied(p, before, s)
    ensures var t := Listen(s, voiced);
            var frames := before + [voiced];
            t.activeFrames == Tail(frames, true) && t.silentFrames == Tail(frames, false) && t.speaking == Talking(frames)
  {
    var frames := before + [voiced];
    assert frames[..|frames| - 1] == before;
    TalkingByTails(frames);
    TailMeans(before, true, 0);
  }

  lemma TalkAfter(minWord: int, before: seq<bool>, voiced: bool)
    ensures var frames := before + [voiced];
            && OpenTalk(frames) == (if Talking(frames) then OpenTalk(before) + 1 else 0)
            && FinishedTalk(minWord, frames) == FinishedTalk(minWord, before) +
                 if !Talking(frames) && OpenTalk(before) > 0 && OpenTalk(before) * FRAME >= minWord
                 then OpenTalk(before) else 0
  {
    var frames := before + [voiced];
    assert frames[..|frames| - 1] == before;
  }

  /** What one step does to the two speech counters. */
  lemma StepCounts(p: Params, s: Snapshot, voiced: bool)
    requires p.Positive() && Inv(p, s) && Step(p, s, voiced).1.None?
    ensures var t := Step(p, s, voiced).0;
            var heard := Listen(s, voiced);
            && t.activeFrames == heard.activeFrames && t.silentFrames == heard.silentFrames
            && t.speaking == heard.speaking
            && t.currentSpeech == (if heard.speaking then s.currentSpeech + FRAME else 0)
            && t.greetingDur == (if heard.speaking then s.greetingDur + FRAME else GreetingWhenQuiet(p, s))
  {
  }

  lemma StepTallies(p: Params, before: seq<bool>, s: Snapshot, voiced: bool)
    requires p.Positive() && Inv(p, s) && Tallied(p, before, s)
    requires Step(p, s, voiced).1.None?
    ensures Tallied(p, before + [voiced], Step(p, s, voiced).0)
  {
    ListenTallies(p, before, s, voiced);
    TalkAfter(p.minimumWordLength, before, voiced);
    StepCounts(p, s, voiced);
  }

  /** The counted frames of speech, whatever number of times the machine fell
      back to waiting: the finished bursts of at least the minimum word length
      and the burst still open. */
  ghost function Counted(p: Params, frames: seq<bool>): nat {
    FinishedTalk(p.minimumWordLength, frames) + OpenTalk(frames)
  }

  /** Without a verdict, the greeting is exactly the counted speech of the whole
      stream, and a deadline reports it. */
  lemma {:induction false} GreetingIsCountedTalk(p: Params, frames: seq<bool>)
    requires p.Positive() && Run(p, START, frames).1.None?
    ensures var s := Run(p, START, frames).0;
            && Tallied(p, frames, s)
            && DeadlineReport(s).greetingDurationMs == 20 * Counted(p, frames)
    decreases |frames|
  {
    if frames == [] {
      TailMeans([], true, 0);
    } else {
      var n := |frames| - 1;
      var before := frames[..n];
      assert frames == before + [frames[n]];
      var (s, _) := Run(p, START, before);
      assert Run(p, START, before).1.None? && Run(p, START, frames) == Step(p, s, frames[n]) by {
        RunLast(p, START, frames);
      }
      assert Inv(p, s) by {
        RunKeeps(p, START, before);
      }
      GreetingIsCountedTalk(p, before);
      StepTallies(p, before, s, frames[n]);
    }
    MillisOfCount(Counted(p, frames));
  }

  lemma MillisOfCount(n: nat)
    ensures Millis(n * FRAME) == 20 * n
  {
    assert n * FRAME == (20 * n) * MILLISECOND;
  }

  /** What a deciding frame reports: the hard deadline comes before the frame is
      counted, every other verdict after. */
  lemma DecidingStep(p: Params, before: seq<bool>, s: Snapshot, voiced: bool)
    requires p.Positive() && Inv(p, s) && Tallied(p, before, s)
    requires Step(p, s, voiced).1.Some?
    ensures Step(p, s, voiced).1.value.greetingDurationMs ==
            20 * Counted(p, if s.elapsed + FRAME >= p.totalAnalysisTime then before else before + [voiced])
  {
    ListenTallies(p, before, s, voiced);
    TalkAfter(p.minimumWordLength, before, voiced);
    MillisOfCount(Counted(p, before));
    MillisOfCount(Counted(p, before + [voiced]));
  }

  lemma LastFrameReports(p: Params, before: seq<bool>, last: bool)
    requires p.Positive() && Run(p, START, before).1.None? && Run(p, START, before + [last]).1.Some?
    ensures var det := Run(p, START, before + [last]).1.value;
            var n := |before| + 1;
            && det.totalAnalysisMs == 20 * n
            && det.greetingDurationMs ==
                 20 * Counted(p, if n * FRAME >= p.totalAnalysisTime then before else before + [last])
  {
    var s := Run(p, START, before).0;
    assert Run(p, START, before + [last]) == Step(p, s, last) by {
      RunLast(p, START, before + [last]);
      assert (before + [last])[..|before|] == before;
    }
    assert Inv(p, s) && s.elapsed == |before| * FRAME by {
      RunKeeps(p, START, before);
    }
    StepKeeps(p, s, last);
    GreetingIsCountedTalk(p, before);
    DecidingStep(p, before, s, last);
  }

  /** And every verdict reports the speech counted up to the frame that decides:
      without that frame when the hard deadline decides, with it otherwise. */
  lemma ReportedGreetingIsCountedTalk(p: Params, frames: seq<bool>)
    requires p.Positive() && Run(p, START, frames).1.Some?
    ensures var det := Run(p, START, frames).1.value;
            var n := Used(p, START, frames);
            && 0 < n <= |frames|
            && det.totalAnalysisMs == 20 * n
            && det.greetingDurationMs ==
                 20 * Counted(p, frames[..if n * FRAME >= p.totalAnalysisTime then n - 1 else n])
  {
    var n := Used(p, START, frames);
    RunUses(p, START, frames);
    assert frames[..n] == frames[..n - 1] + [frames[n - 1]];
    LastFrameReports(p, frames[..n - 1], frames[n - 1]);
  }
}
