/** The driver together with its analyzer: every interleaving of the read loop and
    the deadline, over the bytes that the leg delivers (internal/api/legs.go,
    internal/amd/amd.go). */
module AmdSession {
  import opened Wrappers
  import opened ByteStreams
  import opened AmdParams
  import opened AmdFsm
  import opened AmdRuns
  import opened AmdStream
  import opened AmdBeep
  import opened AmdAnalyzer
  import opened AmdDriver

  /** The analyzer's state between calls. */
  datatype Ears = Ears(s: Snapshot, accum: seq<Byte>, ear: Ear, waited: int, beepAccum: seq<Byte>)

  /** `heard` are the bytes fed to the classifier, `listened` those fed to the
      beep detector. */
  datatype Session = Session(driver: State, log: seq<Event>, ears: Ears, heard: seq<Byte>, listened: seq<Byte>)

  const OPENED := Session(INITIAL, [], Ears(START, [], FRESH_EAR, 0, []), [], [])

  datatype Input =
    | Pcm(bytes: seq<Byte>)
    | ReadLoopMoves
    | WatchMoves
    | TimerRunsOut
    | WatchSeesEnd
    | LegEnds
    | LaterStart
    | LaterEnds

  /** The driver's action, with what the analyzer returns to it. */
  function ActionFor(p: Params, tone: Tone, s: Session, i: Input): Action {
    match i
    case Pcm(bytes) =>
      AmdDriver.Write(
        Drain(p, s.ears.s, s.ears.accum + bytes).2,
        BeepDrain(tone, p.beepTimeout, s.ears.ear, s.ears.waited, s.ears.beepAccum + bytes).3)
    case ReadLoopMoves => WriterStep
    case WatchMoves => WatcherStep(DeadlineReport(s.ears.s))
    case TimerRunsOut => TimerFires
    case WatchSeesEnd => WatchSeesContext
    case LegEnds => ContextEnds
    case LaterStart => TapReplaced
    case LaterEnds => OtherTapCleared
  }

  /** What one call of Write leaves in the analyzer. */
  function Feed(p: Params, tone: Tone, s: Session, bytes: seq<Byte>): Session {
    if s.driver.flags.done then s
    else if s.driver.flags.beeping then
      var (ear, waited, rest, _) := BeepDrain(tone, p.beepTimeout, s.ears.ear, s.ears.waited, s.ears.beepAccum + bytes);
      s.(ears := s.ears.(ear := ear, waited := waited, beepAccum := rest), listened := s.listened + bytes)
    else
      var (t, rest, _) := Drain(p, s.ears.s, s.ears.accum + bytes);
      s.(ears := s.ears.(s := t, accum := rest), heard := s.heard + bytes)
  }

  function Advance(p: Params, tone: Tone, s: Session, i: Input): Session {
    var a := ActionFor(p, tone, s, i);
    if !Enabled(s.driver, a) then s
    else
      var (driver, events) := AmdDriver.Step(p.beepTimeout > 0, s.driver, a);
      (if i.Pcm? then Feed(p, tone, s, i.bytes) else s).(driver := driver, log := s.log + events)
  }

  function Play(p: Params, tone: Tone, inputs: seq<Input>): Session {
    if inputs == [] then OPENED
    else Advance(p, tone, Play(p, tone, inputs[..|inputs| - 1]), inputs[|inputs| - 1])
  }

  lemma ExecSnoc(waitsForBeep: bool, schedule: seq<Action>, a: Action)
    ensures var (s, log) := Exec(waitsForBeep, schedule);
            Exec(waitsForBeep, schedule + [a]) ==
            if !Enabled(s, a) then (s, log)
            else (AmdDriver.Step(waitsForBeep, s, a).0, log + AmdDriver.Step(waitsForBeep, s, a).1)
  {
    assert (schedule + [a])[..|schedule|] == schedule;
  }

  lemma AdvanceIsStep(p: Params, tone: Tone, s: Session, i: Input)
    ensures var a, t := ActionFor(p, tone, s, i), Advance(p, tone, s, i);
            (t.driver, t.log) ==
            if !Enabled(s.driver, a) then (s.driver, s.log)
            else (AmdDriver.Step(p.beepTimeout > 0, s.driver, a).0,
                  s.log + AmdDriver.Step(p.beepTimeout > 0, s.driver, a).1)
  {
  }

  /** A session is a schedule of the driver, so all that holds of those holds of it. */
  lemma {:induction false} PlayIsSchedule(p: Params, tone: Tone, inputs: seq<Input>) returns (schedule: seq<Action>)
    ensures var s := Play(p, tone, inputs);
            Exec(p.beepTimeout > 0, schedule) == (s.driver, s.log)
    decreases |inputs|
  {
    schedule := [];
    if inputs != [] {
      var before, i := inputs[..|inputs| - 1], inputs[|inputs| - 1];
      var earlier := PlayIsSchedule(p, tone, before);
      var a := ActionFor(p, tone, Play(p, tone, before), i);
      ExecSnoc(p.beepTimeout > 0, earlier, a);
      AdvanceIsStep(p, tone, Play(p, tone, before), i);
      schedule := earlier + [a];
    }
  }

  // ---- What the analyzer and the log have in common ----

  ghost predicate HeardFits(p: Params, s: Session) {
    var (t, rest, det) := Drain(p, START, s.heard);
    && s.ears.s == t
    && (!s.driver.flags.done && !s.driver.flags.beeping ==> det.None? && s.ears.accum == rest)
    && (forall d | Reached(ReadLoop, d) in s.log ::
          det == Some(d) && (s.driver.flags.done || s.driver.flags.beeping))
    && (forall d | Reached(Watch, d) in s.log :: det.None? && d == DeadlineReport(t) && s.driver.flags.done)
  }

  ghost predicate ListenedFits(p: Params, tone: Tone, s: Session) {
    var (ear, waited, rest, beep) := BeepDrain(tone, p.beepTimeout, FRESH_EAR, 0, s.listened);
    && (!s.driver.flags.done ==>
          beep.None? && s.ears.ear == ear && s.ears.waited == waited && s.ears.beepAccum == rest)
    && (forall b | ReachedBeep(b) in s.log :: beep == Some(b) && s.driver.flags.done)
  }

  /** Only Write and the deadline reach verdicts, and nothing un-finishes. */
  lemma OtherStepsKeepQuiet(waitsForBeep: bool, s: State, a: Action)
    requires Enabled(s, a) && !a.Write?
    ensures var (t, events) := AmdDriver.Step(waitsForBeep, s, a);
            && (s.flags.done ==> t.flags.done)
            && (!t.flags.done ==> t.flags.beeping == s.flags.beeping)
            && (forall e | e in events && e.Reached? ::
                  a == WatcherStep(e.det) && e.who == Watch && t.flags.done && !s.flags.done && !s.flags.beeping)
            && (forall e | e in events :: !e.ReachedBeep?)
  {
  }

  lemma MoveKeeps(p: Params, tone: Tone, s: Session, i: Input)
    requires HeardFits(p, s) && ListenedFits(p, tone, s) && !i.Pcm?
    ensures HeardFits(p, Advance(p, tone, s, i)) && ListenedFits(p, tone, Advance(p, tone, s, i))
  {
    var a := ActionFor(p, tone, s, i);
    if Enabled(s.driver, a) {
      OtherStepsKeepQuiet(p.beepTimeout > 0, s.driver, a);
    }
  }

  /** What Write does to the flags and the log, given the analyzer's answers. */
  lemma WriteSays(waitsForBeep: bool, s: State, fed: Option<Detection>, beep: Option<BeepResult>)
    ensures var (t, events) := WriteStep(waitsForBeep, s, fed, beep);
            && (s.flags.done ==> t.flags == s.flags && events == [])
            && (!s.flags.done && s.flags.beeping ==>
                  && t.flags.beeping && (t.flags.done <==> beep.Some?)
                  && (forall e | e in events :: !e.Reached? && (e.ReachedBeep? ==> beep == Some(e.beep))))
            && (!s.flags.done && !s.flags.beeping ==>
                  && (t.flags.done || t.flags.beeping <==> fed.Some?)
                  && (forall e | e in events :: !e.ReachedBeep? && (e.Reached? ==> e.who == ReadLoop && fed == Some(e.det))))
  {
  }

  lemma {:induction false} PlayKeeps(p: Params, tone: Tone, inputs: seq<Input>)
    ensures HeardFits(p, Play(p, tone, inputs)) && ListenedFits(p, tone, Play(p, tone, inputs))
    decreases |inputs|
  {
    if inputs != [] {
      var before, i := inputs[..|inputs| - 1], inputs[|inputs| - 1];
      PlayKeeps(p, tone, before);
      var s := Play(p, tone, before);
      if !i.Pcm? {
        MoveKeeps(p, tone, s, i);
      } else {
        var a := ActionFor(p, tone, s, i);
        DrainAppend(p, START, s.heard, i.bytes);
        BeepDrainAppend(tone, p.beepTimeout, FRESH_EAR, 0, s.listened, i.bytes);
        WriteSays(p.beepTimeout > 0, s.driver, a.fed, a.beep);
      }
    }
  }

  // ---- Main results ----

  /** What is published of the bytes: the read loop's verdict is that of the
      frames heard, the watcher's is the deadline report of a machine they left
      undecided. */
  ghost predicate Truthful(p: Params, s: Session, who: Goroutine, det: Detection) {
    var (t, d) := Run(p, START, Voices(s.heard));
    if who == ReadLoop then d == Some(det) else d.None? && det == DeadlineReport(t)
  }

  lemma PublishedWasReached(log: seq<Event>, e: Event)
    requires Lawful(log) && e in log
    ensures e.PublishedResult? ==> Reached(e.who, e.det) in log
    ensures e.PublishedBeep? ==> e.beep.detected && ReachedBeep(e.beep) in log
  {
    var k :| 0 <= k < |log| && log[k] == e;
    assert Justified(log[..k], e);
    assert forall x | x in log[..k] :: x in log;
  }

  lemma DrainedBeep(tone: Tone, timeout: int, bytes: seq<Byte>)
    requires timeout >= 0
    ensures PushResult(timeout, Classify(tone, bytes), BeepDrain(tone, timeout, FRESH_EAR, 0, bytes).3)
  {
    PushBeep(tone, timeout, [bytes]);
    BeepFeedAllIsDrain(tone, timeout, FRESH_EAR, 0, [], [bytes]);
    assert Concat([bytes]) == bytes + Concat([bytes][1..]) == bytes;
    assert [] + bytes == bytes;
  }

  lemma PlayIsLawful(p: Params, tone: Tone, inputs: seq<Input>)
    ensures Lawful(Play(p, tone, inputs).log) && ResultCount(Play(p, tone, inputs).log) <= 1
  {
    var schedule := PlayIsSchedule(p, tone, inputs);
    PublishesAtMostOnce(p.beepTimeout > 0, schedule);
  }

  lemma ResultIsTruthful(p: Params, tone: Tone, inputs: seq<Input>, who: Goroutine, det: Detection)
    requires PublishedResult(who, det) in Play(p, tone, inputs).log
    ensures Truthful(p, Play(p, tone, inputs), who, det)
  {
    PlayIsLawful(p, tone, inputs);
    PublishedWasReached(Play(p, tone, inputs).log, PublishedResult(who, det));
    PlayKeeps(p, tone, inputs);
    DrainIsRun(p, START, Play(p, tone, inputs).heard);
  }

  lemma BeepIsFirst(p: Params, tone: Tone, inputs: seq<Input>, beep: BeepResult)
    requires p.beepTimeout >= 0 && PublishedBeep(beep) in Play(p, tone, inputs).log
    ensures beep.detected
    ensures PushResult(p.beepTimeout, Classify(tone, Play(p, tone, inputs).listened), Some(beep))
  {
    PlayIsLawful(p, tone, inputs);
    PublishedWasReached(Play(p, tone, inputs).log, PublishedBeep(beep));
    PlayKeeps(p, tone, inputs);
    DrainedBeep(tone, p.beepTimeout, Play(p, tone, inputs).listened);
  }

  /** In every interleaving: every amd.result is truthful about the bytes written
      while the analysis ran, and every amd.beep is the first beep of the bytes
      written in its window, at its time. */
  lemma ResultsAreTruthful(p: Params, tone: Tone, inputs: seq<Input>)
    requires p.beepTimeout >= 0
    ensures var s := Play(p, tone, inputs);
            && (forall who, det | PublishedResult(who, det) in s.log :: Truthful(p, s, who, det))
            && (forall beep | PublishedBeep(beep) in s.log ::
                  beep.detected && PushResult(p.beepTimeout, Classify(tone, s.listened), Some(beep)))
  {
    forall who, det | PublishedResult(who, det) in Play(p, tone, inputs).log
      ensures Truthful(p, Play(p, tone, inputs), who, det)
    {
      ResultIsTruthful(p, tone, inputs, who, det);
    }
    forall beep | PublishedBeep(beep) in Play(p, tone, inputs).log
      ensures beep.detected && PushResult(p.beepTimeout, Classify(tone, Play(p, tone, inputs).listened), Some(beep))
    {
      BeepIsFirst(p, tone, inputs, beep);
    }
  }

  /** A session at rest that nothing disturbed has published one truthful result. */
  lemma OneTruthfulResult(p: Params, tone: Tone, inputs: seq<Input>)
    requires p.beepTimeout >= 0
    requires Quiescent(Play(p, tone, inputs).driver) && Undisturbed(Play(p, tone, inputs).driver)
    ensures var s := Play(p, tone, inputs);
            && ResultCount(s.log) == 1
            && exists who, det :: PublishedResult(who, det) in s.log && Truthful(p, s, who, det)
  {
    var s := Play(p, tone, inputs);
    var schedule := PlayIsSchedule(p, tone, inputs);
    QuiescentDriver(p.beepTimeout > 0, schedule);
    PlayIsLawful(p, tone, inputs);
    LawfulCounts(s.log);
    ResultsAreTruthful(p, tone, inputs);
    var e :| e in s.log && e.PublishedResult?;
    assert e == PublishedResult(e.who, e.det);
  }

  // ---- What was heard is what was written ----

  /** The bytes of the calls of Write. */
  function Written(p: Params, tone: Tone, inputs: seq<Input>): seq<Byte> {
    if inputs == [] then []
    else
      var before, i := inputs[..|inputs| - 1], inputs[|inputs| - 1];
      Written(p, tone, before) +
      if i.Pcm? && Enabled(Play(p, tone, before).driver, ActionFor(p, tone, Play(p, tone, before), i)) then i.bytes else []
  }

  /** What the classifier and then the beep detector were fed is a prefix of what
      was written, and all of it until the analysis is done. */
  ghost predicate Accounts(s: Session, written: seq<Byte>) {
    && s.heard + s.listened <= written
    && (!s.driver.flags.done ==> s.heard + s.listened == written)
    && (!s.driver.flags.done && !s.driver.flags.beeping ==> s.listened == [])
  }

  lemma FeedAccounts(p: Params, tone: Tone, s: Session, written: seq<Byte>, bytes: seq<Byte>)
    requires Accounts(s, written)
    ensures var t := Feed(p, tone, s, bytes);
            && t.heard + t.listened <= written + bytes
            && (!s.driver.flags.done ==> t.heard + t.listened == written + bytes)
            && (!s.driver.flags.done && !s.driver.flags.beeping ==> t.listened == [])
  {
    if s.driver.flags.done {
      assert written <= written + bytes;
    } else if s.driver.flags.beeping {
      assert s.heard + (s.listened + bytes) == (s.heard + s.listened) + bytes;
    } else {
      assert (s.heard + bytes) + [] == (s.heard + []) + bytes;
    }
  }

  lemma AdvanceAccounts(p: Params, tone: Tone, s: Session, written: seq<Byte>, i: Input)
    requires Accounts(s, written)
    ensures Accounts(Advance(p, tone, s, i),
                     written + if i.Pcm? && Enabled(s.driver, ActionFor(p, tone, s, i)) then i.bytes else [])
  {
    assert written + [] == written;
    var a := ActionFor(p, tone, s, i);
    if Enabled(s.driver, a) {
      if i.Pcm? {
        FeedAccounts(p, tone, s, written, i.bytes);
        WriteSays(p.beepTimeout > 0, s.driver, a.fed, a.beep);
      } else {
        OtherStepsKeepQuiet(p.beepTimeout > 0, s.driver, a);
      }
    }
  }

  lemma {:induction false} HeardIsWhatWasWritten(p: Params, tone: Tone, inputs: seq<Input>)
    ensures Accounts(Play(p, tone, inputs), Written(p, tone, inputs))
    decreases |inputs|
  {
    if inputs != [] {
      var before := inputs[..|inputs| - 1];
      HeardIsWhatWasWritten(p, tone, before);
      AdvanceAccounts(p, tone, Play(p, tone, before), Written(p, tone, before), inputs[|inputs| - 1]);
    }
  }

  // ---- The objects ----

  ghost function EarsOf(a: Analyzer): Ears
    requires a.Valid()
    reads a, a.feedState, a.beepDet, a.feedAccum, a.feedAccum.buf, a.beepAccum, a.beepAccum.buf
  {
    Ears(a.feedState.View(), a.Fed(), a.HeardBeeps(), a.beepWaited, a.FedBeep())
  }

  /** The session that a driver at rest and its analyzer are in the middle of. */
  ghost predicate InSession(d: Driver, s: Session)
    requires d.analyzer.Valid()
    reads d, d.leg, d.analyzer, d.analyzer.feedState, d.analyzer.beepDet
    reads d.analyzer.feedAccum, d.analyzer.feedAccum.buf, d.analyzer.beepAccum, d.analyzer.beepAccum.buf
  {
    d.View() == s.driver.flags && d.leg.slot == s.driver.slot && EarsOf(d.analyzer) == s.ears
  }

  /** One call of Write up to its first unlock is one step of the session. */
  method Deliver(d: Driver, bytes: seq<Byte>, ghost s: Session) returns (next: Writer)
    requires d.analyzer.Valid() && InSession(d, s) && s.driver.writer.Idle?
    modifies d, d.analyzer, d.analyzer.feedState, d.analyzer.beepDet, d.analyzer.frameSamples
    modifies d.analyzer.feedAccum, d.analyzer.feedAccum.buf, d.analyzer.beepAccum, d.analyzer.beepAccum.buf
    ensures d.analyzer.Valid()
    ensures var t := Advance(d.analyzer.params, d.analyzer.tone, s, Pcm(bytes));
            InSession(d, t) && t.driver.writer == next
  {
    next := d.EnterWrite(bytes);
  }
}
