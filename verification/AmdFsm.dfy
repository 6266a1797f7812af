/** The classification state machine: one 20 ms frame at a time
    (internal/amd/amd.go, fsmState.step). */
module AmdFsm {
  import opened Wrappers
  import opened Int64
  import opened ByteStreams
  import opened AmdParams

  datatype Verdict = Human | Machine | NoSpeech | NotSure

  datatype Phase = WaitingForSpeech | InGreeting | AfterGreetingSilence

  datatype Detection = Detection(result: Verdict, initialSilenceMs: int, greetingDurationMs: int, totalAnalysisMs: int)

  /** The value of an FsmState object. Durations are in nanoseconds. */
  datatype Snapshot = Snapshot(
    phase: Phase,
    elapsed: int,
    initialSilence: int,
    greetingDur: int,
    currentSilence: int,
    currentSpeech: int,
    activeFrames: int,
    silentFrames: int,
    speaking: bool)

  const START := Snapshot(WaitingForSpeech, 0, 0, 0, 0, 0, 0, 0, false)

  function Millis(d: int): int {
    Quotient(d, MILLISECOND)
  }

  // ---- Voice activity of one frame ----

  const SPEECH_THRESHOLD: int := 300

  function SumOfSquares(samples: seq<Int16>): (sum: nat)
    ensures sum <= |samples| * 0x4000_0000
  {
    if samples == [] then 0
    else SumOfSquares(samples[..|samples| - 1]) + Square(samples[|samples| - 1])
  }

  function Square(x: Int16): (sq: nat)
    ensures sq <= 0x4000_0000
  {
    SquareBound(x);
    x * x
  }

  lemma SquareBound(x: int)
    requires -0x8000 <= x <= 0x8000
    ensures 0 <= x * x <= 0x4000_0000
  {
    var m: nat := if x >= 0 then x else -x;
    assert x * x == m * m;
    ProductGrows(m, 0x8000, m);
  }

  lemma ProductGrows(a: nat, b: nat, m: nat)
    requires a <= b
    ensures a * m <= b * m
  {
  }

  /** The root mean square of the frame reaches the speech threshold. */
  predicate Voiced(samples: seq<Int16>) {
    samples != [] && SumOfSquares(samples) >= SPEECH_THRESHOLD * SPEECH_THRESHOLD * |samples|
  }

  // ---- One step ----

  /** The debounced voice activity after one more frame. */
  function Listen(s: Snapshot, voiced: bool): Snapshot {
    var active := if voiced then s.activeFrames + 1 else 0;
    var silent := if voiced then 0 else s.silentFrames + 1;
    var speaking :=
      if !s.speaking && active >= SPEECH_ON_FRAMES then true
      else if s.speaking && silent >= SPEECH_OFF_FRAMES then false
      else s.speaking;
    s.(elapsed := s.elapsed + FRAME, activeFrames := active, silentFrames := silent, speaking := speaking)
  }

  function Report(result: Verdict, s: Snapshot): Detection {
    Detection(result, Millis(s.initialSilence), Millis(s.greetingDur), Millis(s.elapsed))
  }

  function Step(p: Params, s: Snapshot, voiced: bool): (Snapshot, Option<Detection>) {
    var t := Listen(s, voiced);
    if t.elapsed >= p.totalAnalysisTime then (t, Some(Report(NotSure, t)))
    else
      match t.phase
      case WaitingForSpeech => StepWaiting(p, t)
      case InGreeting => StepGreeting(p, t, s.speaking)
      case AfterGreetingSilence => (t, None)
  }

  function StepWaiting(p: Params, t: Snapshot): (Snapshot, Option<Detection>) {
    if t.speaking then
      (t.(phase := InGreeting, currentSpeech := FRAME, greetingDur := FRAME), None)
    else
      var u := t.(initialSilence := t.initialSilence + FRAME);
      if u.initialSilence >= p.initialSilenceTimeout then
        (u, Some(Detection(NoSpeech, Millis(u.initialSilence), 0, Millis(u.elapsed))))
      else (u, None)
  }

  function StepGreeting(p: Params, t: Snapshot, wasSpeaking: bool): (Snapshot, Option<Detection>) {
    if t.speaking then
      var u := t.(currentSpeech := t.currentSpeech + FRAME, greetingDur := t.greetingDur + FRAME, currentSilence := 0);
      if u.greetingDur >= p.greetingDuration then (u, Some(Report(Machine, u))) else (u, None)
    else
      var ended :=
        if !wasSpeaking then t
        else if t.currentSpeech < p.minimumWordLength then
          t.(greetingDur := t.greetingDur - t.currentSpeech, currentSpeech := 0)
        else t.(currentSpeech := 0);
      var u := ended.(currentSilence := ended.currentSilence + FRAME);
      if u.currentSilence < p.afterGreetingSilence then (u, None)
      else if u.greetingDur > 0 then (u, Some(Report(Human, u)))
      else
        (u.(phase := WaitingForSpeech, initialSilence := u.initialSilence + u.currentSilence, currentSilence := 0), None)
  }

  /** What the push surface reports when the window closes without a verdict. */
  function DeadlineReport(s: Snapshot): Detection {
    Report(if s.phase == WaitingForSpeech && s.greetingDur == 0 then NoSpeech else NotSure, s)
  }

  // ---- The object that the analysis updates in place ----

  /** The sum of squares behind computeRMS, accumulated sample by sample. */
  method Energy(samples: array<Int16>) returns (sum: nat)
    ensures sum == SumOfSquares(samples[..])
  {
    sum := 0;
    for i := 0 to samples.Length
      invariant sum == SumOfSquares(samples[..i])
    {
      assert samples[..i + 1][..i] == samples[..i];
      sum := sum + Square(samples[i]);
    }
    assert samples[..] == samples[..samples.Length];
  }

  method IsVoiced(samples: array<Int16>) returns (voiced: bool)
    ensures voiced == Voiced(samples[..])
  {
    if samples.Length == 0 {
      return false;
    }
    var sum := Energy(samples);
    voiced := sum >= SPEECH_THRESHOLD * SPEECH_THRESHOLD * samples.Length;
  }

  class FsmState {
    var phase: Phase
    var elapsed: int
    var initialSilence: int
    var greetingDur: int
    var currentSilence: int
    var currentSpeech: int
    var activeFrames: int
    var silentFrames: int
    var speaking: bool

    function View(): Snapshot
      reads this
    {
      Snapshot(phase, elapsed, initialSilence, greetingDur, currentSilence, currentSpeech,
               activeFrames, silentFrames, speaking)
    }

    constructor ()
      ensures View() == START
    {
      phase, elapsed, initialSilence, greetingDur := WaitingForSpeech, 0, 0, 0;
      currentSilence, currentSpeech, activeFrames, silentFrames, speaking := 0, 0, 0, 0, false;
    }

    method Advance(p: Params, samples: array<Int16>) returns (det: Option<Detection>)
      modifies this
      ensures (View(), det) == Step(p, old(View()), Voiced(samples[..]))
    {
      var voiced := IsVoiced(samples);
      var wasSpeaking := speaking;
      Debounce(voiced);
      if elapsed >= p.totalAnalysisTime {
        return Some(Detection(NotSure, Millis(initialSilence), Millis(greetingDur), Millis(elapsed)));
      }
      match phase {
        case WaitingForSpeech => det := AwaitSpeech(p);
        case InGreeting => det := FollowGreeting(p, wasSpeaking);
        case AfterGreetingSilence => det := None;
      }
    }

    method Debounce(voiced: bool)
      modifies this
      ensures View() == Listen(old(View()), voiced)
    {
      elapsed := elapsed + FRAME;
      if voiced {
        activeFrames := activeFrames + 1;
        silentFrames := 0;
      } else {
        silentFrames := silentFrames + 1;
        activeFrames := 0;
      }
      if !speaking && activeFrames >= SPEECH_ON_FRAMES {
        speaking := true;
      } else if speaking && silentFrames >= SPEECH_OFF_FRAMES {
        speaking := false;
      }
    }

    method AwaitSpeech(p: Params) returns (det: Option<Detection>)
      modifies this
      ensures (View(), det) == StepWaiting(p, old(View()))
    {
      if speaking {
        phase := InGreeting;
        currentSpeech := FRAME;
        greetingDur := FRAME;
      } else {
        initialSilence := initialSilence + FRAME;
        if initialSilence >= p.initialSilenceTimeout {
          return Some(Detection(NoSpeech, Millis(initialSilence), 0, Millis(elapsed)));
        }
      }
      det := None;
    }

    method FollowGreeting(p: Params, wasSpeaking: bool) returns (det: Option<Detection>)
      modifies this
      ensures (View(), det) == StepGreeting(p, old(View()), wasSpeaking)
    {
      if speaking {
        currentSpeech := currentSpeech + FRAME;
        greetingDur := greetingDur + FRAME;
        currentSilence := 0;
        if greetingDur >= p.greetingDuration {
          return Some(Detection(Machine, Millis(initialSilence), Millis(greetingDur), Millis(elapsed)));
        }
      } else {
        if wasSpeaking {
          if currentSpeech < p.minimumWordLength {
            greetingDur := greetingDur - currentSpeech;
          }
          currentSpeech := 0;
        }
        currentSilence := currentSilence + FRAME;
        if currentSilence >= p.afterGreetingSilence {
          if greetingDur > 0 {
            return Some(Detection(Human, Millis(initialSilence), Millis(greetingDur), Millis(elapsed)));
          }
          phase := WaitingForSpeech;
          initialSilence := initialSilence + currentSilence;
          currentSilence := 0;
        }
      }
      det := None;
    }

    method OnDeadline() returns (det: Detection)
      ensures det == DeadlineReport(View())
    {
      var result := NotSure;
      if phase == WaitingForSpeech && greetingDur == 0 {
        result := NoSpeech;
      }
      det := Detection(result, Millis(initialSilence), Millis(greetingDur), Millis(elapsed));
    }
  }
}
