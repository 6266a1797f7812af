/** The driver that runs an analyzer on a leg (internal/api/legs.go, amdDriver,
    in its leg-tap mode).

    Two goroutines share it: the leg's readLoop, which calls Write, and watch,
    which bounds the analysis in wall-clock time. The driver's mutex covers only
    its flags and the analyzer; the tap is tested and cleared under the leg's
    own lock. Each region below is what happens under one lock. */
module AmdDriver {
  import opened Wrappers
  import opened ByteStreams
  import opened AmdParams
  import opened AmdFsm
  import opened AmdStream
  import opened AmdBeep
  import opened AmdAnalyzer

  /** The fields guarded by the driver's mutex. */
  datatype Flags = Flags(done: bool, beeping: bool, pending: bool)

  /** The leg's tap slot, seen from one driver. */
  datatype Slot = Mine | Other | Empty

  /** Where the readLoop is between the lock regions of Write. */
  datatype Writer =
    | Idle
    | Claiming(det: Detection)
    | Publishing(det: Detection)
    | ClaimingBeep(beep: BeepResult)
    | PublishingBeep(beep: BeepResult)
    | CheckingOwner(det: Detection)
    | Resolving(det: Detection, owns: bool)
    | PublishingMachine(det: Detection, late: bool)
    | Releasing

  /** Where watch is. */
  datatype Watcher =
    | Armed
    | AtDeadline
    | AtContextEnd
    | ClearingForContext
    | ClaimingDeadline(verdict: Option<Detection>)
    | PublishingDeadline(det: Detection)
    | Exited

  // ---- The lock regions, as functions of the flags ----

  /** The first region of Write, given what Feed or FeedBeep returned in it. */
  function WriteRegion(waitsForBeep: bool, f: Flags, fed: Option<Detection>, beep: Option<BeepResult>): (Flags, Writer) {
    if f.done then (f, Idle)
    else if f.beeping then
      match beep
      case None => (f, Idle)
      case Some(b) => (f.(done := true), ClaimingBeep(b))
    else
      match fed
      case None => (f, Idle)
      case Some(det) =>
        if det.result == Machine && waitsForBeep then (f.(beeping := true, pending := true), CheckingOwner(det))
        else (f.(done := true), Claiming(det))
  }

  /** The second region of Write, which settles a machine verdict. */
  function ResolveRegion(f: Flags, det: Detection, owns: bool): (Flags, Writer) {
    if owns then (f.(pending := false), PublishingMachine(det, f.done))
    else (Flags(true, false, false), Idle)
  }

  /** The deadline's region of watch, given what OnDeadline would return. */
  function DeadlineRegion(f: Flags, det: Detection): (Flags, Watcher) {
    if f.done then (f, Exited)
    else if f.pending then (f.(done := true), Exited)
    else (f.(done := true), ClaimingDeadline(if f.beeping then None else Some(det)))
  }

  // ---- The objects ----

  class LegTap {
    var slot: Slot

    constructor ()
      ensures slot == Mine
    {
      slot := Mine;
    }

    method ClearIfMine() returns (cleared: bool)
      modifies this
      ensures cleared == (old(slot) == Mine)
      ensures slot == if cleared then Empty else old(slot)
    {
      cleared := slot == Mine;
      if cleared {
        slot := Empty;
      }
    }

    method IsMine() returns (owns: bool)
      ensures owns == (slot == Mine)
    {
      owns := slot == Mine;
    }
  }

  class Driver {
    const analyzer: Analyzer
    const leg: LegTap
    var beeping: bool
    var done: bool
    var pending: bool

    function View(): Flags
      reads this
    {
      Flags(done, beeping, pending)
    }

    predicate WaitsForBeep() {
      analyzer.params.beepTimeout > 0
    }

    constructor (analyzer: Analyzer, leg: LegTap)
      ensures this.analyzer == analyzer && this.leg == leg && View() == Flags(false, false, false)
    {
      this.analyzer, this.leg := analyzer, leg;
      beeping, done, pending := false, false, false;
    }

    /** Write up to its first unlock. A done driver leaves the analyzer alone; a
        beeping one feeds the beep detector only, any other the classifier only. */
    method EnterWrite(p: seq<Byte>) returns (next: Writer)
      requires analyzer.Valid()
      modifies this, analyzer, analyzer.feedState, analyzer.beepDet, analyzer.frameSamples
      modifies analyzer.feedAccum, analyzer.feedAccum.buf, analyzer.beepAccum, analyzer.beepAccum.buf
      ensures analyzer.Valid()
      ensures old(done) ==>
                && View() == old(View()) && next == Idle
                && unchanged(analyzer, analyzer.feedState, analyzer.beepDet)
                && analyzer.Fed() == old(analyzer.Fed()) && analyzer.FedBeep() == old(analyzer.FedBeep())
      ensures !old(done) && old(beeping) ==>
                && unchanged(analyzer.feedState) && analyzer.Fed() == old(analyzer.Fed())
                && var (ear, waited, rest, beep) :=
                     BeepDrain(analyzer.tone, analyzer.params.beepTimeout, old(analyzer.HeardBeeps()),
                               old(analyzer.beepWaited), old(analyzer.FedBeep()) + p);
                && (analyzer.HeardBeeps(), analyzer.beepWaited, analyzer.FedBeep()) == (ear, waited, rest)
                && (View(), next) == WriteRegion(WaitsForBeep(), old(View()), None, beep)
      ensures !old(done) && !old(beeping) ==>
                && unchanged(analyzer`beepWaited, analyzer.beepDet) && analyzer.FedBeep() == old(analyzer.FedBeep())
                && var (s, rest, det) :=
                     Drain(analyzer.params, old(analyzer.feedState.View()), old(analyzer.Fed()) + p);
                && (analyzer.feedState.View(), analyzer.Fed()) == (s, rest)
                && (View(), next) == WriteRegion(WaitsForBeep(), old(View()), det, None)
    {
      if done {
        return Idle;
      }
      if beeping {
        var beep := analyzer.FeedBeep(p);
        if beep.None? {
          return Idle;
        }
        done := true;
        return ClaimingBeep(beep.value);
      }
      var det := analyzer.Feed(p);
      if det.None? {
        return Idle;
      }
      if !(det.value.result == Machine && analyzer.params.beepTimeout > 0) {
        done := true;
        return Claiming(det.value);
      }
      beeping := true;
      pending := true;
      return CheckingOwner(det.value);
    }

    /** Write's second locked region, after the ownership check. */
    method Resolve(det: Detection, owns: bool) returns (next: Writer)
      modifies this
      ensures (View(), next) == ResolveRegion(old(View()), det, owns)
    {
      pending := false;
      var deadlinePassed := done;
      if !owns {
        done := true;
        beeping := false;
        return Idle;
      }
      next := PublishingMachine(det, deadlinePassed);
    }

    /** watch's region when the context ended. */
    method ContextEnded()
      modifies this
      ensures View() == old(View()).(done := true)
    {
      done := true;
    }

    /** watch's region when the timer fired. */
    method DeadlineFired() returns (next: Watcher)
      modifies this
      ensures (View(), next) == DeadlineRegion(old(View()), DeadlineReport(analyzer.feedState.View()))
    {
      if done {
        return Exited;
      }
      done := true;
      if pending {
        return Exited;
      }
      var publish := !beeping;
      if publish {
        var det := analyzer.OnDeadline();
        return ClaimingDeadline(Some(det));
      }
      return ClaimingDeadline(None);
    }

    /** The rest of Write, one atomic action at a time: the tap's lock, the
        driver's lock, or a publish. */
    method ContinueWrite(at: Writer) returns (next: Writer, events: seq<Event>)
      modifies this, leg
      ensures var (t, happened) := StepWriter(State(old(View()), old(leg.slot), at, Armed, false, false));
              (View(), leg.slot, next, events) == (t.flags, t.slot, t.writer, happened)
    {
      next, events := Idle, [];
      match at {
        case Idle =>
        case Claiming(det) =>
          var cleared := leg.ClearIfMine();
          next, events := if cleared then Publishing(det) else Idle, [Tested(ReadLoop, cleared)];
        case Publishing(det) =>
          events := [PublishedResult(ReadLoop, det)];
        case ClaimingBeep(beep) =>
          var cleared := leg.ClearIfMine();
          next, events := if cleared && beep.detected then PublishingBeep(beep) else Idle, [Tested(ReadLoop, cleared)];
        case PublishingBeep(beep) =>
          events := [PublishedBeep(beep)];
        case CheckingOwner(det) =>
          var owns := leg.IsMine();
          next, events := Resolving(det, owns), [Tested(ReadLoop, owns)];
        case Resolving(det, owns) =>
          var before := View();
          next := Resolve(det, owns);
          events := Finishing(before, View());
        case PublishingMachine(det, late) =>
          next, events := if late then Releasing else Idle, [PublishedResult(ReadLoop, det)];
        case Releasing =>
          var _ := leg.ClearIfMine();
      }
    }

    /** watch after its select, one atomic action at a time. */
    method ContinueWatch(at: Watcher) returns (next: Watcher, events: seq<Event>)
      modifies this, leg
      ensures var (t, happened) :=
                StepWatcher(State(old(View()), old(leg.slot), Idle, at, false, false),
                            DeadlineReport(old(analyzer.feedState.View())));
              (View(), leg.slot, next, events) == (t.flags, t.slot, t.watcher, happened)
    {
      next, events := at, [];
      match at {
        case Armed =>
        case Exited =>
        case AtContextEnd =>
          var before := View();
          ContextEnded();
          next, events := ClearingForContext, Finishing(before, View());
        case ClearingForContext =>
          var _ := leg.ClearIfMine();
          next := Exited;
        case AtDeadline =>
          var before := View();
          next := DeadlineFired();
          var reached := next.ClaimingDeadline? && next.verdict.Some?;
          events := (if reached then [Reached(Watch, next.verdict.value)] else []) + Finishing(before, View());
        case ClaimingDeadline(verdict) =>
          var cleared := leg.ClearIfMine();
          events := [Tested(Watch, cleared)];
          next := if cleared && verdict.Some? then PublishingDeadline(verdict.value) else Exited;
        case PublishingDeadline(det) =>
          next, events := Exited, [PublishedResult(Watch, det)];
      }
    }
  }

  // ---- All interleavings ----

  datatype Goroutine = ReadLoop | Watch

  /** What happened, in order, and who did it. */
  datatype Event =
    | Fed
    | Reached(who: Goroutine, det: Detection)
    | ReachedBeep(beep: BeepResult)
    | Tested(who: Goroutine, owned: bool)
    | Finished
    | PublishedResult(who: Goroutine, det: Detection)
    | PublishedBeep(beep: BeepResult)

  datatype State = State(
    flags: Flags,
    slot: Slot,
    writer: Writer,
    watcher: Watcher,
    contextOver: bool,
    replaced: bool)

  const INITIAL := State(Flags(false, false, false), Mine, Idle, Armed, false, false)

  /** One atomic step of a goroutine or of the environment. A frame comes with
      what the analyzer makes of it, a deadline with what OnDeadline reports. */
  datatype Action =
    | Write(fed: Option<Detection>, beep: Option<BeepResult>)
    | WriterStep
    | TimerFires
    | WatchSeesContext
    | WatcherStep(atDeadline: Detection)
    | ContextEnds
    | TapReplaced
    | OtherTapCleared

  predicate Enabled(s: State, a: Action) {
    match a
    case Write(_, _) => s.writer.Idle?
    case WriterStep => !s.writer.Idle?
    case TimerFires => s.watcher.Armed?
    case WatchSeesContext => s.watcher.Armed? && s.contextOver
    case WatcherStep(_) => !s.watcher.Armed? && !s.watcher.Exited?
    case ContextEnds => true
    case TapReplaced => true
    case OtherTapCleared => s.slot == Other
  }

  function Cleared(slot: Slot): Slot {
    if slot == Mine then Empty else slot
  }

  function Finishing(before: Flags, after: Flags): seq<Event> {
    if !before.done && after.done then [Finished] else []
  }

  function WriteStep(waitsForBeep: bool, s: State, fed: Option<Detection>, beep: Option<BeepResult>): (State, seq<Event>) {
    var (f, next) := WriteRegion(waitsForBeep, s.flags, fed, beep);
    var seen :=
      if s.flags.done then []
      else if s.flags.beeping then (if beep.Some? then [Fed, ReachedBeep(beep.value)] else [Fed])
      else (if fed.Some? then [Fed, Reached(ReadLoop, fed.value)] else [Fed]);
    (s.(flags := f, writer := next), seen + Finishing(s.flags, f))
  }

  function StepWriter(s: State): (State, seq<Event>) {
    match s.writer
    case Idle => (s, [])
    case Claiming(det) =>
      (s.(slot := Cleared(s.slot), writer := if s.slot == Mine then Publishing(det) else Idle),
       [Tested(ReadLoop, s.slot == Mine)])
    case Publishing(det) => (s.(writer := Idle), [PublishedResult(ReadLoop, det)])
    case ClaimingBeep(beep) =>
      (s.(slot := Cleared(s.slot), writer := if s.slot == Mine && beep.detected then PublishingBeep(beep) else Idle),
       [Tested(ReadLoop, s.slot == Mine)])
    case PublishingBeep(beep) => (s.(writer := Idle), [PublishedBeep(beep)])
    case CheckingOwner(det) => (s.(writer := Resolving(det, s.slot == Mine)), [Tested(ReadLoop, s.slot == Mine)])
    case Resolving(det, owns) =>
      var (f, next) := ResolveRegion(s.flags, det, owns);
      (s.(flags := f, writer := next), Finishing(s.flags, f))
    case PublishingMachine(det, late) => (s.(writer := if late then Releasing else Idle), [PublishedResult(ReadLoop, det)])
    case Releasing => (s.(slot := Cleared(s.slot), writer := Idle), [])
  }

  function StepWatcher(s: State, atDeadline: Detection): (State, seq<Event>) {
    match s.watcher
    case Armed => (s, [])
    case Exited => (s, [])
    case AtContextEnd =>
      var f := s.flags.(done := true);
      (s.(flags := f, watcher := ClearingForContext), Finishing(s.flags, f))
    case ClearingForContext => (s.(slot := Cleared(s.slot), watcher := Exited), [])
    case AtDeadline =>
      var (f, next) := DeadlineRegion(s.flags, atDeadline);
      var seen := if next == ClaimingDeadline(Some(atDeadline)) then [Reached(Watch, atDeadline)] else [];
      (s.(flags := f, watcher := next), seen + Finishing(s.flags, f))
    case ClaimingDeadline(verdict) =>
      (s.(slot := Cleared(s.slot),
          watcher := if s.slot == Mine && verdict.Some? then PublishingDeadline(verdict.value) else Exited),
       [Tested(Watch, s.slot == Mine)])
    case PublishingDeadline(det) => (s.(watcher := Exited), [PublishedResult(Watch, det)])
  }

  function Step(waitsForBeep: bool, s: State, a: Action): (State, seq<Event>)
    requires Enabled(s, a)
  {
    match a
    case Write(fed, beep) => WriteStep(waitsForBeep, s, fed, beep)
    case WriterStep => StepWriter(s)
    case TimerFires => (s.(watcher := AtDeadline), [])
    case WatchSeesContext => (s.(watcher := AtContextEnd), [])
    case WatcherStep(atDeadline) => StepWatcher(s, atDeadline)
    case ContextEnds => (s.(contextOver := true), [])
    case TapReplaced => (s.(slot := Other, replaced := true), [])
    case OtherTapCleared => (s.(slot := Empty), [])
  }

  /** Any schedule, with the log of what happened; a step that is not enabled is skipped. */
  function Exec(waitsForBeep: bool, schedule: seq<Action>): (State, seq<Event>) {
    if schedule == [] then (INITIAL, [])
    else
      var (s, log) := Exec(waitsForBeep, schedule[..|schedule| - 1]);
      var a := schedule[|schedule| - 1];
      if !Enabled(s, a) then (s, log)
      else
        var (t, events) := Step(waitsForBeep, s, a);
        (t, log + events)
  }

  // ---- What the log must look like ----

  /** `e` happened and the goroutine later passed an ownership test of its own. */
  predicate OwnedSince(log: seq<Event>, e: Event, who: Goroutine) {
    exists i, j :: 0 <= i < j < |log| && log[i] == e && log[j] == Tested(who, true)
  }

  /** What must have happened, and must not have, before each event. */
  predicate Justified(before: seq<Event>, e: Event) {
    match e
    case Fed => Finished !in before
    case PublishedResult(who, det) =>
      OwnedSince(before, Reached(who, det), who) && forall x | x in before :: !x.PublishedResult?
    case PublishedBeep(beep) =>
      && beep.detected
      && OwnedSince(before, ReachedBeep(beep), ReadLoop)
      && (exists x :: x in before && x.PublishedResult? && x.det.result == Machine)
      && (forall x | x in before :: !x.PublishedBeep?)
    case _ => true
  }

  predicate Lawful(log: seq<Event>) {
    forall k | 0 <= k < |log| :: Justified(log[..k], log[k])
  }

  function ResultCount(log: seq<Event>): nat {
    if log == [] then 0
    else ResultCount(log[..|log| - 1]) + if log[|log| - 1].PublishedResult? then 1 else 0
  }

  function BeepCount(log: seq<Event>): nat {
    if log == [] then 0
    else BeepCount(log[..|log| - 1]) + if log[|log| - 1].PublishedBeep? then 1 else 0
  }

  /** What the control invariant needs to know of the log. */
  datatype Digest = Digest(finished: bool, result: bool, machine: bool, beep: bool)

  function Note(d: Digest, e: Event): Digest {
    match e
    case Finished => d.(finished := true)
    case PublishedResult(_, det) => d.(result := true, machine := d.machine || det.result == Machine)
    case PublishedBeep(_) => d.(beep := true)
    case _ => d
  }

  function NoteAll(d: Digest, events: seq<Event>): Digest
    decreases |events|
  {
    if events == [] then d else NoteAll(Note(d, events[0]), events[1..])
  }

  function DigestOf(log: seq<Event>): Digest {
    NoteAll(Digest(false, false, false, false), log)
  }

  lemma {:induction false} NoteAllAppend(d: Digest, a: seq<Event>, b: seq<Event>)
    ensures NoteAll(d, a + b) == NoteAll(NoteAll(d, a), b)
    decreases |a|
  {
    if a == [] {
      assert a + b == b;
    } else {
      assert (a + b)[1..] == a[1..] + b;
      NoteAllAppend(Note(d, a[0]), a[1..], b);
    }
  }

  lemma NoteAllMeans(d: Digest, log: seq<Event>)
    ensures var r := NoteAll(d, log);
            && (r.finished <==> d.finished || Finished in log)
            && (r.result <==> d.result || exists x :: x in log && x.PublishedResult?)
            && (r.machine <==> d.machine || exists x :: x in log && x.PublishedResult? && x.det.result == Machine)
            && (r.beep <==> d.beep || exists x :: x in log && x.PublishedBeep?)
    decreases |log|
  {
    if log != [] {
      NoteAllMeans(Note(d, log[0]), log[1..]);
      assert forall x :: x in log <==> x == log[0] || x in log[1..];
    }
  }

  // ---- The control invariant ----

  /** A publisher that may still emit the result, if there is one. */
  predicate Owes(s: State) {
    || (!s.flags.done && !s.flags.beeping)
    || s.writer.Claiming? || s.writer.Publishing? || s.writer.CheckingOwner? || s.writer.Resolving?
    || s.writer.PublishingMachine?
    || (s.watcher.ClaimingDeadline? && s.watcher.verdict.Some?) || s.watcher.PublishingDeadline?
  }

  /** Which flags go with which point of Write. */
  predicate WriterFits(s: State) {
    match s.writer
    case Idle => !s.flags.pending
    case Claiming(_) => s.flags == Flags(true, false, false)
    case Publishing(_) => s.flags == Flags(true, false, false)
    case ClaimingBeep(_) => s.flags == Flags(true, true, false)
    case PublishingBeep(beep) => s.flags == Flags(true, true, false) && beep.detected
    case CheckingOwner(det) => s.flags.beeping && s.flags.pending && det.result == Machine
    case Resolving(det, _) => s.flags.beeping && s.flags.pending && det.result == Machine
    case PublishingMachine(det, late) =>
      s.flags.beeping && !s.flags.pending && (late ==> s.flags.done) && det.result == Machine
    case Releasing => s.flags == Flags(true, true, false)
  }

  predicate WatcherFits(s: State) {
    match s.watcher
    case Armed => true
    case AtDeadline => true
    case AtContextEnd => s.contextOver
    case ClearingForContext => s.contextOver && s.flags.done
    case ClaimingDeadline(verdict) =>
      && s.flags.done && !s.flags.pending
      && (verdict.None? <==> s.flags.beeping)
      && (verdict.Some? ==> s.writer.Idle?)
    case PublishingDeadline(_) => s.writer.Idle? && s.flags == Flags(true, false, false)
    case Exited => s.flags.done
  }

  predicate OutputFits(s: State, d: Digest) {
    && (d.finished <==> s.flags.done)
    && (Owes(s) ==> !d.result && !d.beep)
    && (s.flags.beeping && !Owes(s) ==> d.machine)
    && (!s.flags.done || !s.flags.beeping || s.writer.ClaimingBeep? || s.writer.PublishingBeep? ==> !d.beep)
    && (d.machine ==> d.result)
  }

  /** Whoever finished the analysis still has the tap to clear. */
  predicate WillClear(s: State) {
    || s.writer.Claiming? || s.writer.ClaimingBeep? || s.writer.CheckingOwner? || s.writer.Resolving?
    || (s.writer.PublishingMachine? && s.writer.late) || s.writer.Releasing?
    || s.watcher.ClearingForContext? || s.watcher.ClaimingDeadline?
  }

  /** No context end and no later AMD start: the verdict cannot be lost. */
  predicate Undisturbed(s: State) {
    !s.contextOver && !s.replaced
  }

  /** The verdict still depends on an ownership test to come. */
  predicate AtStake(s: State) {
    || !s.flags.done || s.writer.Claiming? || s.writer.CheckingOwner? || s.writer.Resolving?
    || (s.watcher.ClaimingDeadline? && s.watcher.verdict.Some?)
  }

  predicate SlotFits(s: State, d: Digest) {
    && (s.flags.done && s.slot == Mine ==> WillClear(s))
    && (s.writer.Resolving? && !s.writer.owns ==> s.slot != Mine)
    && (Undisturbed(s) && AtStake(s) ==> s.slot == Mine)
    && (Undisturbed(s) && !Owes(s) ==> d.result)
  }

  predicate Control(s: State, d: Digest) {
    WriterFits(s) && WatcherFits(s) && OutputFits(s, d) && SlotFits(s, d)
  }

  lemma ControlWrite(waitsForBeep: bool, s: State, d: Digest, fed: Option<Detection>, beep: Option<BeepResult>)
    requires Control(s, d) && s.writer.Idle?
    ensures var (t, events) := WriteStep(waitsForBeep, s, fed, beep);
            Control(t, NoteAll(d, events))
  {
    var (t, events) := WriteStep(waitsForBeep, s, fed, beep);
    NoteAllMeans(d, events);
  }

  /** A writer holding a final verdict or a beep. */
  lemma ControlFinalWriter(s: State, d: Digest)
    requires Control(s, d)
    requires s.writer.Claiming? || s.writer.Publishing? || s.writer.ClaimingBeep? || s.writer.PublishingBeep?
    ensures var (t, events) := StepWriter(s);
            Control(t, NoteAll(d, events))
  {
    var (t, events) := StepWriter(s);
    NoteAllMeans(d, events);
  }

  /** A writer holding a machine verdict. */
  lemma ControlMachineWriter(s: State, d: Digest)
    requires Control(s, d)
    requires s.writer.CheckingOwner? || s.writer.Resolving? || s.writer.PublishingMachine? || s.writer.Releasing?
    ensures var (t, events) := StepWriter(s);
            Control(t, NoteAll(d, events))
  {
    var (t, events) := StepWriter(s);
    NoteAllMeans(d, events);
  }

  lemma ControlWriter(s: State, d: Digest)
    requires Control(s, d) && !s.writer.Idle?
    ensures var (t, events) := StepWriter(s);
            Control(t, NoteAll(d, events))
  {
    if s.writer.Claiming? || s.writer.Publishing? || s.writer.ClaimingBeep? || s.writer.PublishingBeep? {
      ControlFinalWriter(s, d);
    } else {
      ControlMachineWriter(s, d);
    }
  }

  lemma ControlDeadline(s: State, d: Digest, atDeadline: Detection)
    requires Control(s, d) && (s.watcher.AtDeadline? || s.watcher.ClaimingDeadline?)
    ensures var (t, events) := StepWatcher(s, atDeadline);
            Control(t, NoteAll(d, events))
  {
    var (t, events) := StepWatcher(s, atDeadline);
    NoteAllMeans(d, events);
  }

  lemma ControlWatcher(s: State, d: Digest, atDeadline: Detection)
    requires Control(s, d)
    ensures var (t, events) := StepWatcher(s, atDeadline);
            Control(t, NoteAll(d, events))
  {
    if s.watcher.AtDeadline? || s.watcher.ClaimingDeadline? {
      ControlDeadline(s, d, atDeadline);
    } else {
      var (t, events) := StepWatcher(s, atDeadline);
      NoteAllMeans(d, events);
    }
  }

  lemma ControlStep(waitsForBeep: bool, s: State, d: Digest, a: Action)
    requires Control(s, d) && Enabled(s, a)
    ensures var (t, events) := Step(waitsForBeep, s, a);
            Control(t, NoteAll(d, events))
  {
    match a
    case Write(fed, beep) => ControlWrite(waitsForBeep, s, d, fed, beep);
    case WriterStep => ControlWriter(s, d);
    case WatcherStep(atDeadline) => ControlWatcher(s, d, atDeadline);
    case _ =>
  }

  // ---- What the log supports ----

  /** Nothing is on its way to being published that the log does not support. */
  predicate WriterSupported(s: State, log: seq<Event>) {
    match s.writer
    case Claiming(det) => Reached(ReadLoop, det) in log
    case Publishing(det) => OwnedSince(log, Reached(ReadLoop, det), ReadLoop)
    case ClaimingBeep(beep) => ReachedBeep(beep) in log
    case PublishingBeep(beep) => OwnedSince(log, ReachedBeep(beep), ReadLoop)
    case CheckingOwner(det) => Reached(ReadLoop, det) in log
    case Resolving(det, owns) => owns ==> OwnedSince(log, Reached(ReadLoop, det), ReadLoop)
    case PublishingMachine(det, _) => OwnedSince(log, Reached(ReadLoop, det), ReadLoop)
    case _ => true
  }

  predicate WatcherSupported(s: State, log: seq<Event>) {
    match s.watcher
    case ClaimingDeadline(verdict) => verdict.Some? ==> Reached(Watch, verdict.value) in log
    case PublishingDeadline(det) => OwnedSince(log, Reached(Watch, det), Watch)
    case _ => true
  }

  lemma OwnedSinceGrows(log: seq<Event>, more: seq<Event>, e: Event, who: Goroutine)
    ensures OwnedSince(log, e, who) ==> OwnedSince(log + more, e, who)
    ensures e in log ==> e in log + more
    ensures e in log && Tested(who, true) in more ==> OwnedSince(log + more, e, who)
  {
    var now := log + more;
    if OwnedSince(log, e, who) {
      var i, j :| 0 <= i < j < |log| && log[i] == e && log[j] == Tested(who, true);
      assert now[i] == e && now[j] == Tested(who, true);
    }
    if e in log && Tested(who, true) in more {
      var i :| 0 <= i < |log| && log[i] == e;
      var j :| 0 <= j < |more| && more[j] == Tested(who, true);
      assert now[i] == e && now[|log| + j] == Tested(who, true);
    }
  }

  lemma SupportStep(waitsForBeep: bool, s: State, log: seq<Event>, a: Action)
    requires WriterSupported(s, log) && WatcherSupported(s, log) && Enabled(s, a)
    ensures var (t, events) := Step(waitsForBeep, s, a);
            WriterSupported(t, log + events) && WatcherSupported(t, log + events)
  {
    var (t, events) := Step(waitsForBeep, s, a);
    forall e, who
      ensures OwnedSince(log, e, who) ==> OwnedSince(log + events, e, who)
      ensures e in log ==> e in log + events
      ensures e in log && Tested(who, true) in events ==> OwnedSince(log + events, e, who)
    {
      OwnedSinceGrows(log, events, e, who);
    }
  }

  // ---- The log stays lawful ----

  lemma LawfulSnoc(log: seq<Event>, e: Event)
    requires Lawful(log) && Justified(log, e)
    ensures Lawful(log + [e])
  {
    var now := log + [e];
    forall k | 0 <= k < |now|
      ensures Justified(now[..k], now[k])
    {
      if k < |log| {
        assert now[..k] == log[..k];
      } else {
        assert now[..k] == log;
      }
    }
  }

  /** Events that need no justification. */
  lemma {:induction false} LawfulPlain(log: seq<Event>, more: seq<Event>)
    requires Lawful(log)
    requires forall e | e in more :: !e.Fed? && !e.PublishedResult? && !e.PublishedBeep?
    ensures Lawful(log + more)
    decreases |more|
  {
    if more == [] {
      assert log + more == log;
    } else {
      LawfulSnoc(log, more[0]);
      LawfulPlain(log + [more[0]], more[1..]);
      assert log + more == (log + [more[0]]) + more[1..];
    }
  }

  lemma LawfulStep(waitsForBeep: bool, s: State, log: seq<Event>, a: Action)
    requires Enabled(s, a) && Lawful(log) && Control(s, DigestOf(log))
    requires WriterSupported(s, log) && WatcherSupported(s, log)
    ensures Lawful(log + Step(waitsForBeep, s, a).1)
  {
    NoteAllMeans(Digest(false, false, false, false), log);
    var (t, events) := Step(waitsForBeep, s, a);
    if events != [] && events[0].Fed? {
      LawfulSnoc(log, Fed);
      assert log + events == (log + [Fed]) + events[1..];
      LawfulPlain(log + [Fed], events[1..]);
    } else if events != [] && (events[0].PublishedResult? || events[0].PublishedBeep?) {
      LawfulSnoc(log, events[0]);
      assert events == [events[0]];
    } else {
      LawfulPlain(log, events);
    }
  }

  ghost predicate Inv(s: State, log: seq<Event>) {
    Control(s, DigestOf(log)) && WriterSupported(s, log) && WatcherSupported(s, log) && Lawful(log)
  }

  lemma {:induction false} ExecKeeps(waitsForBeep: bool, schedule: seq<Action>)
    ensures var (s, log) := Exec(waitsForBeep, schedule);
            Inv(s, log)
    decreases |schedule|
  {
    if schedule != [] {
      var (s, log) := Exec(waitsForBeep, schedule[..|schedule| - 1]);
      ExecKeeps(waitsForBeep, schedule[..|schedule| - 1]);
      var a := schedule[|schedule| - 1];
      if Enabled(s, a) {
        ControlStep(waitsForBeep, s, DigestOf(log), a);
        NoteAllAppend(Digest(false, false, false, false), log, Step(waitsForBeep, s, a).1);
        SupportStep(waitsForBeep, s, log, a);
        LawfulStep(waitsForBeep, s, log, a);
      }
    }
  }

  // ---- Main results ----

  lemma {:induction false} LawfulCounts(log: seq<Event>)
    requires Lawful(log)
    ensures ResultCount(log) == (if exists x :: x in log && x.PublishedResult? then 1 else 0)
    ensures BeepCount(log) == (if exists x :: x in log && x.PublishedBeep? then 1 else 0)
    decreases |log|
  {
    if log != [] {
      var before, e := log[..|log| - 1], log[|log| - 1];
      forall k | 0 <= k < |before|
        ensures Justified(before[..k], before[k])
      {
        assert before[..k] == log[..k];
      }
      LawfulCounts(before);
      assert Justified(before, e);
      assert forall x :: x in log <==> x in before || x == e;
    }
  }

  /** Every interleaving publishes at most one amd.result and at most one
      amd.beep; the beep only after a machine result; each only after its
      publisher reached it and then passed an ownership test of its own; and the
      analyzer is never fed once the driver is done. */
  lemma PublishesAtMostOnce(waitsForBeep: bool, schedule: seq<Action>)
    ensures var (s, log) := Exec(waitsForBeep, schedule);
            ResultCount(log) <= 1 && BeepCount(log) <= 1 && Lawful(log)
  {
    ExecKeeps(waitsForBeep, schedule);
    LawfulCounts(Exec(waitsForBeep, schedule).1);
  }

  /** Neither goroutine has anything left to do. */
  predicate Quiescent(s: State) {
    s.watcher.Exited? && s.writer.Idle?
  }

  /** At quiescence the driver's tap is not installed any more, and an
      undisturbed analysis has published exactly one amd.result, wherever in
      Write the deadline fired. */
  lemma QuiescentDriver(waitsForBeep: bool, schedule: seq<Action>)
    requires Quiescent(Exec(waitsForBeep, schedule).0)
    ensures var (s, log) := Exec(waitsForBeep, schedule);
            && s.slot != Mine
            && (Undisturbed(s) ==> ResultCount(log) == 1)
  {
    var (s, log) := Exec(waitsForBeep, schedule);
    ExecKeeps(waitsForBeep, schedule);
    LawfulCounts(log);
    NoteAllMeans(Digest(false, false, false, false), log);
  }

  /** The steps a goroutine of the driver has left, given no further frame. */
  function Remaining(s: State): nat {
    (match s.writer
     case Idle => 0
     case Claiming(_) => 2
     case Publishing(_) => 1
     case ClaimingBeep(_) => 2
     case PublishingBeep(_) => 1
     case CheckingOwner(_) => 4
     case Resolving(_, _) => 3
     case PublishingMachine(_, _) => 2
     case Releasing => 1) +
    (match s.watcher
     case Armed => 4
     case AtDeadline => 3
     case AtContextEnd => 2
     case ClearingForContext => 1
     case ClaimingDeadline(_) => 2
     case PublishingDeadline(_) => 1
     case Exited => 0)
  }

  lemma WriterSpends(s: State)
    requires !s.writer.Idle?
    ensures Remaining(StepWriter(s).0) < Remaining(s)
  {
  }

  lemma WatcherSpends(s: State, atDeadline: Detection)
    requires !s.watcher.Armed? && !s.watcher.Exited?
    ensures Remaining(StepWatcher(s, atDeadline).0) < Remaining(s)
  {
  }

  /** The driver always settles: while it is not quiescent one of its goroutines
      can step (the timer being one), and each such step uses up a bounded
      budget, so nobody waits for anybody. */
  lemma DriverSettles(waitsForBeep: bool, s: State, atDeadline: Detection)
    requires !Quiescent(s)
    ensures exists a :: a in {WriterStep, TimerFires, WatcherStep(atDeadline)} && Enabled(s, a)
    ensures forall a | a in {WriterStep, TimerFires, WatchSeesContext, WatcherStep(atDeadline)} && Enabled(s, a) ::
              Remaining(Step(waitsForBeep, s, a).0) < Remaining(s)
  {
    var a := if !s.writer.Idle? then WriterStep
             else if s.watcher.Armed? then TimerFires
             else WatcherStep(atDeadline);
    assert Enabled(s, a);
    if !s.writer.Idle? {
      WriterSpends(s);
    }
    if !s.watcher.Armed? && !s.watcher.Exited? {
      WatcherSpends(s, atDeadline);
    }
  }
}
