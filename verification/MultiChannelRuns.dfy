/** Every history of a multi-channel room recording: legs that join, fail, leave
    and rejoin, and what the merge makes of them (internal/api/recording.go). */
module MultiChannelRuns {
  import opened Wrappers
  import opened MultiChannel

  // ---- Every history of joins, leaves and stops ----

  /** What happened, in the order of the lock regions. */
  datatype Event =
    | Failed(leg: Leg)
    | Started(leg: Leg, capture: Capture, at: nat)
    | Ended(leg: Leg, capture: Capture, finalized: bool)

  /** A stop between its two lock regions. */
  datatype Stopping = Stopping(leg: Leg, untapped: bool)

  /** The books of the recording; `next` is the number of the next capture. */
  datatype Books = Books(
    core: Core,
    stopping: map<Capture, Stopping>,
    log: seq<Event>,
    clock: nat,
    next: Capture)

  /** One pause or resume of the room, and the recorders it has yet to reach. */
  datatype Sweep = Sweep(on: bool, left: set<Capture>)

  /** `slots` is the mixer, `sessions` the pumps of room recording sessions and
      the participant each is attached to. */
  datatype State = State(books: Books, slots: map<Leg, Tap>, sessions: map<Pump, Leg>, sweeps: seq<Sweep>)

  /** Starts take time: the clock moves by at least one unit for each. The mixer
      gains, replaces and loses participants, and recording sessions come and
      go, on their own. */
  datatype Op =
    | Start(leg: Leg, ok: bool, gap: nat)
    | BeginStop(leg: Leg)
    | ClearTap(capture: Capture)
    | FinishStop(capture: Capture, finalized: bool)
    | Deactivate
    | SetPaused(on: bool)
    | ReachRecorder(sweep: nat, capture: Capture)
    | Wire(leg: Leg)
    | Unwire(leg: Leg)
    | SessionTakes(pump: Pump, leg: Leg)
    | SessionEnds(pump: Pump)

  const BLANK := Books(OPENED, map[], [], 0, 0)

  const EMPTY := State(BLANK, map[], map[], [])

  function StartBooks(b: Books, leg: Leg, ok: bool, gap: nat): Books {
    var now := b.clock + gap + 1;
    var core := StartLeg(b.core, leg, ok, b.next, now);
    if !MayStart(b.core, leg) then b
    else if !ok then b.(core := core, log := b.log + [Failed(leg)], clock := now)
    else b.(core := core, log := b.log + [Started(leg, b.next, now)], clock := now, next := b.next + 1)
  }

  function BeginBooks(b: Books, leg: Leg): Books {
    if leg !in b.core.recorders then b
    else b.(core := b.core.(recorders := b.core.recorders - {leg}),
            stopping := b.stopping[b.core.recorders[leg] := Stopping(leg, false)])
  }

  predicate MayClear(b: Books, capture: Capture) {
    capture in b.stopping && !b.stopping[capture].untapped
  }

  function ClearBooks(b: Books, capture: Capture): Books {
    if !MayClear(b, capture) then b
    else b.(stopping := b.stopping[capture := b.stopping[capture].(untapped := true)])
  }

  function FinishBooks(b: Books, capture: Capture, finalized: bool): Books {
    if capture !in b.stopping || !b.stopping[capture].untapped then b
    else
      var leg := b.stopping[capture].leg;
      b.(core := EndStop(b.core, leg, capture, finalized), stopping := b.stopping - {capture},
      log := b.log + [Ended(leg, capture, finalized)])
  }

  function Apply(s: State, op: Op): State {
    var b := s.books;
    match op
    case Start(leg, ok, gap) =>
      s.(books := StartBooks(b, leg, ok, gap), slots := SlotsAfter(s.slots, b.core, leg, ok, b.next))
    case BeginStop(leg) => s.(books := BeginBooks(b, leg))
    case ClearTap(capture) =>
      if !MayClear(b, capture) then s
      else s.(books := ClearBooks(b, capture), slots := PutTap(s.slots, b.stopping[capture].leg, Free))
    case FinishStop(capture, finalized) => s.(books := FinishBooks(b, capture, finalized))
    case Deactivate => s.(books := b.(core := b.core.(active := false)))
    case SetPaused(on) =>
      s.(books := b.(core := b.core.(paused := on)), sweeps := s.sweeps + [Sweep(on, b.core.recorders.Values)])
    case ReachRecorder(i, capture) =>
      if i >= |s.sweeps| || capture !in s.sweeps[i].left then s
      else s.(books := b.(core := Silence(b.core, {capture}, s.sweeps[i].on)),
              sweeps := s.sweeps[i := s.sweeps[i].(left := s.sweeps[i].left - {capture})])
    case Wire(leg) => s.(slots := s.slots[leg := Free])
    case Unwire(leg) => s.(slots := s.slots - {leg})
    case SessionTakes(pump, leg) =>
      if pump in s.sessions then s
      else s.(slots := PutTap(s.slots, leg, Pumping(pump)), sessions := s.sessions[pump := leg])
    case SessionEnds(pump) =>
      if pump !in s.sessions then s
      else s.(slots := PutTap(s.slots, s.sessions[pump], Free), sessions := s.sessions - {pump})
  }

  function Exec(ops: seq<Op>): State {
    if ops == [] then EMPTY else Apply(Exec(ops[..|ops| - 1]), ops[|ops| - 1])
  }

  // ---- Reading a history ----

  /** The legs that tried to start, each at its first try. */
  function FirstTries(log: seq<Event>): seq<Leg> {
    if log == [] then []
    else
      var before := FirstTries(log[..|log| - 1]);
      match log[|log| - 1]
      case Ended(_, _, _) => before
      case e => if e.leg in before then before else before + [e.leg]
  }

  /** The start event of a capture. */
  function StartOf(log: seq<Event>, capture: Capture): Option<Event> {
    if log == [] then None
    else if log[|log| - 1].Started? && log[|log| - 1].capture == capture then Some(log[|log| - 1])
    else StartOf(log[..|log| - 1], capture)
  }

  /** How a capture ended, once for each time it did. */
  function Ends(log: seq<Event>, capture: Capture): seq<bool> {
    if log == [] then []
    else
      var last := log[|log| - 1];
      Ends(log[..|log| - 1], capture) + if last.Ended? && last.capture == capture then [last.finalized] else []
  }

  function LastStarted(log: seq<Event>, leg: Leg): Option<Capture> {
    if log == [] then None
    else if log[|log| - 1].Started? && log[|log| - 1].leg == leg then Some(log[|log| - 1].capture)
    else LastStarted(log[..|log| - 1], leg)
  }

  function LastFinalized(log: seq<Event>, leg: Leg): Option<Capture> {
    if log == [] then None
    else
      var last := log[|log| - 1];
      if last.Ended? && last.finalized && last.leg == leg then Some(last.capture)
      else LastFinalized(log[..|log| - 1], leg)
  }

  /** The capture was started by the leg. */
  predicate Belongs(log: seq<Event>, capture: Capture, leg: Leg) {
    StartOf(log, capture).Some? && StartOf(log, capture).value.leg == leg
  }

  // ---- Invariant ----

  predicate Distinct(s: seq<Leg>) {
    forall i, j | 0 <= i < j < |s| :: s[i] != s[j]
  }

  /** Exactly one of the three homes of a started capture. */
  predicate CaptureOk(s: Books, capture: Capture) {
    var start, ends := StartOf(s.log, capture), Ends(s.log, capture);
    && (start.Some? <==> capture < s.next)
    && (start.None? ==> ends == [] && capture !in s.stopping)
    && (start.Some? ==>
          var leg := start.value.leg;
          var recording := leg in s.core.recorders && s.core.recorders[leg] == capture;
          && start.value.Started? && start.value.capture == capture && start.value.at <= s.clock
          && (capture in s.stopping ==> s.stopping[capture].leg == leg && !recording && ends == [])
          && (recording ==> ends == [])
          && (!recording && capture !in s.stopping ==> |ends| == 1)
          && (true in ends ==> LastFinalized(s.log, leg).Some?))
  }

  predicate RecorderOk(s: Books, leg: Leg) {
    leg in s.core.recorders ==> Belongs(s.log, s.core.recorders[leg], leg)
  }

  predicate FileOk(s: Books, leg: Leg) {
    && (leg in s.core.files <==> LastFinalized(s.log, leg).Some?)
    && (leg in s.core.files ==>
          && s.core.files[leg] == LastFinalized(s.log, leg).value
          && Belongs(s.log, s.core.files[leg], leg)
          && true in Ends(s.log, s.core.files[leg]))
  }

  predicate JoinOk(s: Books, leg: Leg) {
    && (leg in s.core.joins <==> LastStarted(s.log, leg).Some?)
    && (leg in s.core.joins ==>
          StartOf(s.log, LastStarted(s.log, leg).value) ==
          Some(Started(leg, LastStarted(s.log, leg).value, s.core.joins[leg])))
  }

  predicate LegOk(s: Books, leg: Leg) {
    RecorderOk(s, leg) && FileOk(s, leg) && JoinOk(s, leg)
  }

  /** Later captures start later. */
  predicate ClockOk(s: Books, a: Capture, b: Capture) {
    var x, y := StartOf(s.log, a), StartOf(s.log, b);
    a < b && x.Some? && y.Some? && x.value.Started? && y.value.Started? ==> x.value.at < y.value.at
  }

  predicate OrderOk(s: Books) {
    && s.core.order == FirstTries(s.log)
    && Distinct(s.core.order)
    && (forall leg | leg in s.core.joins :: leg in s.core.order)
  }

  ghost predicate Inv(s: Books) {
    && OrderOk(s)
    && (forall leg: Leg :: LegOk(s, leg))
    && (forall capture: Capture :: CaptureOk(s, capture))
    && (forall a: Capture, b: Capture :: ClockOk(s, a, b))
  }

  /** The readings of a log after one more event. */
  lemma Snoc(log: seq<Event>, e: Event)
    ensures FirstTries(log + [e]) == if e.Ended? then FirstTries(log) else Note(FirstTries(log), e.leg)
    ensures forall c :: StartOf(log + [e], c) == if e.Started? && e.capture == c then Some(e) else StartOf(log, c)
    ensures forall c :: Ends(log + [e], c) ==
                        Ends(log, c) + if e.Ended? && e.capture == c then [e.finalized] else []
    ensures forall l :: LastStarted(log + [e], l) ==
                        if e.Started? && e.leg == l then Some(e.capture) else LastStarted(log, l)
    ensures forall l :: LastFinalized(log + [e], l) ==
                        if e.Ended? && e.finalized && e.leg == l then Some(e.capture) else LastFinalized(log, l)
  {
    assert (log + [e])[..|log|] == log;
  }

  lemma FailedKeeps(s: Books, leg: Leg, gap: nat)
    requires Inv(s) && MayStart(s.core, leg)
    ensures Inv(StartBooks(s, leg, false, gap))
  {
    var t := StartBooks(s, leg, false, gap);
    Snoc(s.log, Failed(leg));
    forall l: Leg
      ensures LegOk(t, l)
    {
      assert LegOk(s, l);
    }
    forall c: Capture
      ensures CaptureOk(t, c)
    {
      assert CaptureOk(s, c);
      assert Ends(s.log, c) + [] == Ends(s.log, c);
    }
    forall a: Capture, b: Capture
      ensures ClockOk(t, a, b)
    {
      assert ClockOk(s, a, b);
    }
  }

  lemma SnocLeg(log: seq<Event>, e: Event, l: Leg)
    ensures LastStarted(log + [e], l) ==
            if e.Started? && e.leg == l then Some(e.capture) else LastStarted(log, l)
    ensures LastFinalized(log + [e], l) ==
            if e.Ended? && e.finalized && e.leg == l then Some(e.capture) else LastFinalized(log, l)
  {
    Snoc(log, e);
  }

  lemma SnocCapture(log: seq<Event>, e: Event, c: Capture)
    ensures StartOf(log + [e], c) == if e.Started? && e.capture == c then Some(e) else StartOf(log, c)
    ensures Ends(log + [e], c) == Ends(log, c) + if e.Ended? && e.capture == c then [e.finalized] else []
  {
    Snoc(log, e);
  }

  lemma StartedRecorder(s: Books, leg: Leg, gap: nat, l: Leg)
    requires MayStart(s.core, leg) && RecorderOk(s, l) && CaptureOk(s, s.next)
    ensures RecorderOk(StartBooks(s, leg, true, gap), l)
  {
    var e := Started(leg, s.next, s.clock + gap + 1);
    SnocCapture(s.log, e, if l in s.core.recorders then s.core.recorders[l] else s.next);
    SnocCapture(s.log, e, s.next);
  }

  lemma StartedFile(s: Books, leg: Leg, gap: nat, l: Leg)
    requires MayStart(s.core, leg) && FileOk(s, l) && CaptureOk(s, s.next)
    ensures FileOk(StartBooks(s, leg, true, gap), l)
  {
    var e := Started(leg, s.next, s.clock + gap + 1);
    SnocLeg(s.log, e, l);
    SnocCapture(s.log, e, if l in s.core.files then s.core.files[l] else s.next);
  }

  lemma StartedJoin(s: Books, leg: Leg, gap: nat, l: Leg)
    requires MayStart(s.core, leg) && JoinOk(s, l) && CaptureOk(s, s.next)
    ensures JoinOk(StartBooks(s, leg, true, gap), l)
  {
    var e := Started(leg, s.next, s.clock + gap + 1);
    SnocLeg(s.log, e, l);
    SnocCapture(s.log, e, if l in s.core.joins then LastStarted(s.log, l).value else s.next);
    SnocCapture(s.log, e, s.next);
  }

  lemma StartedItself(s: Books, leg: Leg, gap: nat)
    requires MayStart(s.core, leg) && CaptureOk(s, s.next)
    ensures CaptureOk(StartBooks(s, leg, true, gap), s.next)
  {
    SnocCapture(s.log, Started(leg, s.next, s.clock + gap + 1), s.next);
    assert Ends(s.log, s.next) + [] == [];
  }

  lemma StartedCapture(s: Books, leg: Leg, gap: nat, c: Capture)
    requires MayStart(s.core, leg) && CaptureOk(s, c) && CaptureOk(s, s.next)
    ensures CaptureOk(StartBooks(s, leg, true, gap), c)
  {
    var e := Started(leg, s.next, s.clock + gap + 1);
    if c == s.next {
      StartedItself(s, leg, gap);
    } else {
      SnocCapture(s.log, e, c);
      assert Ends(s.log, c) + [] == Ends(s.log, c);
      if StartOf(s.log, c).Some? {
        SnocLeg(s.log, e, StartOf(s.log, c).value.leg);
      }
    }
  }

  lemma StartedClock(s: Books, leg: Leg, gap: nat, a: Capture, b: Capture)
    requires MayStart(s.core, leg) && ClockOk(s, a, b) && CaptureOk(s, a) && CaptureOk(s, b)
    ensures ClockOk(StartBooks(s, leg, true, gap), a, b)
  {
    SnocCapture(s.log, Started(leg, s.next, s.clock + gap + 1), a);
    SnocCapture(s.log, Started(leg, s.next, s.clock + gap + 1), b);
  }

  lemma StartedOrder(s: Books, leg: Leg, gap: nat)
    requires MayStart(s.core, leg) && OrderOk(s)
    ensures OrderOk(StartBooks(s, leg, true, gap))
  {
    Snoc(s.log, Started(leg, s.next, s.clock + gap + 1));
  }

  lemma StartedKeeps(s: Books, leg: Leg, gap: nat)
    requires Inv(s) && MayStart(s.core, leg)
    ensures Inv(StartBooks(s, leg, true, gap))
  {
    var t := StartBooks(s, leg, true, gap);
    StartedOrder(s, leg, gap);
    forall l: Leg
      ensures LegOk(t, l)
    {
      assert LegOk(s, l) && CaptureOk(s, s.next);
      StartedRecorder(s, leg, gap, l);
      StartedFile(s, leg, gap, l);
      StartedJoin(s, leg, gap, l);
    }
    forall c: Capture
      ensures CaptureOk(t, c)
    {
      StartedCapture(s, leg, gap, c);
    }
    forall a: Capture, b: Capture
      ensures ClockOk(t, a, b)
    {
      StartedClock(s, leg, gap, a, b);
    }
  }

  lemma BeginKeeps(s: Books, leg: Leg)
    requires Inv(s) && leg in s.core.recorders
    ensures Inv(BeginBooks(s, leg))
  {
    var t := BeginBooks(s, leg);
    var capture := s.core.recorders[leg];
    assert LegOk(s, leg) && CaptureOk(s, capture);
    forall l: Leg
      ensures LegOk(t, l)
    {
      assert LegOk(s, l);
    }
    forall c: Capture
      ensures CaptureOk(t, c)
    {
      assert CaptureOk(s, c);
    }
    forall a: Capture, b: Capture
      ensures ClockOk(t, a, b)
    {
      assert ClockOk(s, a, b);
    }
  }

  lemma ClearKeeps(s: Books, capture: Capture)
    requires Inv(s) && capture in s.stopping
    ensures Inv(ClearBooks(s, capture))
  {
    var t := ClearBooks(s, capture);
    forall l: Leg
      ensures LegOk(t, l)
    {
      assert LegOk(s, l);
    }
    forall c: Capture
      ensures CaptureOk(t, c)
    {
      assert CaptureOk(s, c);
    }
    forall a: Capture, b: Capture
      ensures ClockOk(t, a, b)
    {
      assert ClockOk(s, a, b);
    }
  }

  lemma FinishKeeps(s: Books, capture: Capture, finalized: bool)
    requires Inv(s) && capture in s.stopping && s.stopping[capture].untapped
    ensures Inv(FinishBooks(s, capture, finalized))
  {
    var t := FinishBooks(s, capture, finalized);
    var leg := s.stopping[capture].leg;
    Snoc(s.log, Ended(leg, capture, finalized));
    assert CaptureOk(s, capture);
    forall l: Leg
      ensures LegOk(t, l)
    {
      assert LegOk(s, l);
    }
    forall c: Capture
      ensures CaptureOk(t, c)
    {
      assert CaptureOk(s, c);
      assert Ends(s.log, c) + [] == Ends(s.log, c);
    }
    forall a: Capture, b: Capture
      ensures ClockOk(t, a, b)
    {
      assert ClockOk(s, a, b);
    }
  }

  /** The steps that leave the books alone. */
  lemma SameBooksKeep(s: Books, t: Books)
    requires Inv(s) && t.log == s.log && t.stopping == s.stopping && t.clock == s.clock && t.next == s.next
    requires t.core.recorders == s.core.recorders && t.core.order == s.core.order
    requires t.core.files == s.core.files && t.core.joins == s.core.joins
    ensures Inv(t)
  {
    forall l: Leg
      ensures LegOk(t, l)
    {
      assert LegOk(s, l);
    }
    forall c: Capture
      ensures CaptureOk(t, c)
    {
      assert CaptureOk(s, c);
    }
    forall a: Capture, b: Capture
      ensures ClockOk(t, a, b)
    {
      assert ClockOk(s, a, b);
    }
  }

  lemma ApplyKeeps(s: State, op: Op)
    requires Inv(s.books)
    ensures Inv(Apply(s, op).books)
  {
    var b, t := s.books, Apply(s, op).books;
    if t != b {
      match op {
        case Start(leg, ok, gap) =>
          if ok {
            StartedKeeps(b, leg, gap);
          } else {
            FailedKeeps(b, leg, gap);
          }
        case BeginStop(leg) => BeginKeeps(b, leg);
        case ClearTap(capture) => ClearKeeps(b, capture);
        case FinishStop(capture, finalized) => FinishKeeps(b, capture, finalized);
        case _ => SameBooksKeep(b, t);
      }
    }
  }

  lemma {:induction false} ExecKeeps(ops: seq<Op>)
    ensures Inv(Exec(ops).books)
    decreases |ops|
  {
    if ops == [] {
      assert forall leg: Leg :: LegOk(BLANK, leg);
      assert forall c: Capture :: CaptureOk(BLANK, c);
      assert forall a: Capture, b: Capture :: ClockOk(BLANK, a, b);
    } else {
      ExecKeeps(ops[..|ops| - 1]);
      ApplyKeeps(Exec(ops[..|ops| - 1]), ops[|ops| - 1]);
    }
  }

  // ---- Main results ----

  /** Channel positions are the legs that ever tried to start, each once, in the
      order of their first try: neither a retry nor a rejoin claims a second one. */
  lemma {:induction false} ChannelsAreFirstTries(ops: seq<Op>)
    ensures Exec(ops).books.core.order == FirstTries(Exec(ops).books.log)
    ensures Distinct(Exec(ops).books.core.order)
  {
    ExecKeeps(ops);
  }

  /** No capture is lost or ended twice: it is recording, being stopped, or has
      ended exactly once. */
  lemma EveryCaptureEndsOnce(ops: seq<Op>, capture: Capture)
    requires StartOf(Exec(ops).books.log, capture).Some?
    ensures var s := Exec(ops).books;
            var leg := StartOf(s.log, capture).value.leg;
            var recording := leg in s.core.recorders && s.core.recorders[leg] == capture;
            && (recording || capture in s.stopping <==> Ends(s.log, capture) == [])
            && !(recording && capture in s.stopping)
            && |Ends(s.log, capture)| <= 1
  {
    ExecKeeps(ops);
    assert CaptureOk(Exec(ops).books, capture);
  }

  /** Nothing is recording and no stop is between its two lock regions. */
  predicate Settled(s: Books) {
    s.core.recorders == map[] && s.stopping == map[]
  }

  /** Some capture of the leg reached its file. */
  ghost predicate Published(log: seq<Event>, leg: Leg) {
    exists capture :: Belongs(log, capture, leg) && Ends(log, capture) == [true]
  }

  /** The legs of `s` for which `published` says `want`, in order. */
  ghost function Select(s: seq<Leg>, log: seq<Event>, want: bool): seq<Leg> {
    if s == [] then []
    else
      var leg := s[|s| - 1];
      Select(s[..|s| - 1], log, want) + if Published(log, leg) == want then [leg] else []
  }

  function LegsOf(inputs: seq<Input>): seq<Leg> {
    seq(|inputs|, i requires 0 <= i < |inputs| => inputs[i].leg)
  }

  /** A leg holds a file iff some capture of it was published. */
  lemma FilesArePublished(s: Books, leg: Leg)
    requires Inv(s)
    ensures leg in s.core.files <==> Published(s.log, leg)
  {
    assert LegOk(s, leg);
    if leg in s.core.files {
      var capture := s.core.files[leg];
      assert CaptureOk(s, capture);
      assert Ends(s.log, capture) == [true];
    }
    if Published(s.log, leg) {
      var capture :| Belongs(s.log, capture, leg) && Ends(s.log, capture) == [true];
      assert CaptureOk(s, capture);
    }
  }

  lemma {:induction false} MergeSelects(s: Books, order: seq<Leg>)
    requires Inv(s)
    ensures LegsOf(Inputs(order, s.core.files, s.core.joins)) == Select(order, s.log, true)
    ensures Omitted(order, s.core.files) == Select(order, s.log, false)
    decreases |order|
  {
    if order != [] {
      MergeSelects(s, order[..|order| - 1]);
      FilesArePublished(s, order[|order| - 1]);
    }
  }

  /** The merge partitions the channels, in channel order: a leg is merged iff
      some capture of it was published, and with no stop under way a leg is
      omitted iff every capture it ever started was discarded. */
  lemma MergePartition(ops: seq<Op>)
    ensures var s := Exec(ops).books;
            && LegsOf(Inputs(s.core.order, s.core.files, s.core.joins)) == Select(s.core.order, s.log, true)
            && Omitted(s.core.order, s.core.files) == Select(s.core.order, s.log, false)
    ensures var s := Exec(ops).books;
            Settled(s) ==> forall leg ::
              Published(s.log, leg) <==> !(forall c | Belongs(s.log, c, leg) :: Ends(s.log, c) == [false])
  {
    var s := Exec(ops).books;
    ExecKeeps(ops);
    MergeSelects(s, s.core.order);
    if Settled(s) {
      forall leg
        ensures Published(s.log, leg) <==> !(forall c | Belongs(s.log, c, leg) :: Ends(s.log, c) == [false])
      {
        forall c | Belongs(s.log, c, leg)
          ensures Ends(s.log, c) == [true] || Ends(s.log, c) == [false]
        {
          assert CaptureOk(s, c) && |Ends(s.log, c)| == 1;
          var end := Ends(s.log, c)[0];
          assert Ends(s.log, c) == [end] && (end == true || end == false);
        }
      }
    }
  }

  /** The two halves together are all the channels, each in exactly one of them. */
  lemma {:induction false} SelectPartitions(order: seq<Leg>, log: seq<Event>)
    requires Distinct(order)
    ensures forall leg :: leg in Select(order, log, true) <==> leg in order && Published(log, leg)
    ensures forall leg :: leg in Select(order, log, false) <==> leg in order && !Published(log, leg)
    ensures |Select(order, log, true)| + |Select(order, log, false)| == |order|
    ensures Distinct(Select(order, log, true)) && Distinct(Select(order, log, false))
    decreases |order|
  {
    if order != [] {
      var before, last := order[..|order| - 1], order[|order| - 1];
      SelectPartitions(before, log);
      assert forall leg :: leg in order <==> leg in before || leg == last;
    }
  }

  /** What a merged channel holds: the capture published last, placed at the
      offset of the capture started last. They belong together iff they are one
      capture; after a rejoin they need not be. */
  lemma JoinOffsetMatches(ops: seq<Op>, leg: Leg)
    requires leg in Exec(ops).books.core.files
    ensures var s := Exec(ops).books;
            var last := LastStarted(s.log, leg);
            && leg in s.core.joins
            && last.Some?
            && LastFinalized(s.log, leg) == Some(s.core.files[leg])
            && Belongs(s.log, s.core.files[leg], leg)
            && (StartOf(s.log, s.core.files[leg]) == Some(Started(leg, s.core.files[leg], s.core.joins[leg]))
                <==> last.value == s.core.files[leg])
  {
    var s := Exec(ops).books;
    ExecKeeps(ops);
    var file := s.core.files[leg];
    assert LegOk(s, leg) && CaptureOk(s, file);
    StartedSome(s.log, leg, file);
    var last := LastStarted(s.log, leg).value;
    assert CaptureOk(s, last) && ClockOk(s, last, file) && ClockOk(s, file, last);
  }

  lemma {:induction false} StartedSome(log: seq<Event>, leg: Leg, capture: Capture)
    requires Belongs(log, capture, leg)
    ensures LastStarted(log, leg).Some?
    decreases |log|
  {
    var last := log[|log| - 1];
    if !(last.Started? && last.capture == capture) {
      StartedSome(log[..|log| - 1], leg, capture);
    }
  }

  lemma Then(ops: seq<Op>, op: Op)
    ensures Exec(ops + [op]) == Apply(Exec(ops), op)
  {
    assert (ops + [op])[..|ops|] == ops;
  }

  /** The leg joins, publishes a capture and leaves. */
  function OneCapture(leg: Leg): seq<Op> {
    [Start(leg, true, 0)] + [BeginStop(leg)] + [ClearTap(0)] + [FinishStop(0, true)]
  }

  lemma OneCaptureRuns(leg: Leg)
    ensures Exec(OneCapture(leg)).books ==
            Books(OPENED.(order := [leg], files := map[leg := 0], joins := map[leg := 1]), map[],
                  [Started(leg, 0, 1), Ended(leg, 0, true)], 1, 1)
  {
    var a := [Start(leg, true, 0)];
    Then([], a[0]);
    assert [] + a == a;
    Then(a, BeginStop(leg));
    Then(a + [BeginStop(leg)], ClearTap(0));
    Then(a + [BeginStop(leg)] + [ClearTap(0)], FinishStop(0, true));
  }

  /** It rejoins, and its second capture is discarded. */
  function Rejoined(leg: Leg): seq<Op> {
    OneCapture(leg) + [Start(leg, true, 0)] + [BeginStop(leg)] + [ClearTap(1)] + [FinishStop(1, false)]
  }

  function RejoinedLog(leg: Leg): seq<Event> {
    [Started(leg, 0, 1), Ended(leg, 0, true)] + [Started(leg, 1, 2)] + [Ended(leg, 1, false)]
  }

  lemma RejoinedRuns(leg: Leg)
    ensures Exec(Rejoined(leg)).books ==
            Books(OPENED.(order := [leg], files := map[leg := 0], joins := map[leg := 2]), map[], RejoinedLog(leg), 2, 2)
  {
    var a := OneCapture(leg);
    OneCaptureRuns(leg);
    Then(a, Start(leg, true, 0));
    var b := a + [Start(leg, true, 0)];
    Then(b, BeginStop(leg));
    var c := b + [BeginStop(leg)];
    Then(c, ClearTap(1));
    Then(c + [ClearTap(1)], FinishStop(1, false));
  }

  lemma RejoinedFirstStart(leg: Leg)
    ensures StartOf(RejoinedLog(leg), 0) == Some(Started(leg, 0, 1))
  {
    var first := [Started(leg, 0, 1)];
    assert first + [Ended(leg, 0, true)] == [Started(leg, 0, 1), Ended(leg, 0, true)];
    Snoc([], first[0]);
    assert [] + first == first;
    Snoc(first, Ended(leg, 0, true));
    Snoc(first + [Ended(leg, 0, true)], Started(leg, 1, 2));
    Snoc(first + [Ended(leg, 0, true)] + [Started(leg, 1, 2)], Ended(leg, 1, false));
  }

  /** A leg that rejoins and whose second capture is discarded is merged with its
      first capture placed where the second one began. */
  lemma RejoinCanMisplace(leg: Leg)
    ensures var s := Exec(Rejoined(leg)).books;
            && Settled(s)
            && Inputs(s.core.order, s.core.files, s.core.joins) == [Input(leg, 0, 2)]
            && StartOf(s.log, 0) == Some(Started(leg, 0, 1))
  {
    RejoinedRuns(leg);
    RejoinedFirstStart(leg);
    assert [leg][..0] == [];
    assert Inputs([], map[leg := 0], map[leg := 2]) == [];
  }

  // ---- stopAll in a history ----

  /** The stop of one leg, as the three steps of a history. */
  function StopOf(leg: Leg, capture: Capture, finalized: bool): seq<Op> {
    [BeginStop(leg)] + [ClearTap(capture)] + [FinishStop(capture, finalized)]
  }

  lemma StopOfRuns(ops: seq<Op>, leg: Leg, finalized: bool)
    requires leg in Exec(ops).books.core.recorders
    ensures var s := Exec(ops).books;
            var capture := s.core.recorders[leg];
            var t := Exec(ops + StopOf(leg, capture, finalized)).books;
            && t.core == EndStop(s.core.(recorders := s.core.recorders - {leg}), leg, capture, finalized)
            && t.stopping == s.stopping
  {
    var capture := Exec(ops).books.core.recorders[leg];
    assert capture !in Exec(ops).books.stopping by {
      ExecKeeps(ops);
      assert LegOk(Exec(ops).books, leg) && CaptureOk(Exec(ops).books, capture);
    }
    Then(ops, BeginStop(leg));
    var a := ops + [BeginStop(leg)];
    Then(a, ClearTap(capture));
    Then(a + [ClearTap(capture)], FinishStop(capture, finalized));
    assert ops + StopOf(leg, capture, finalized) == a + [ClearTap(capture)] + [FinishStop(capture, finalized)];
  }

  /** Stopping one leg does not change where stopping them all leads. */
  lemma StopOneFirst(c: Core, leg: Leg, good: set<Capture>)
    requires leg in c.recorders
    ensures var capture := c.recorders[leg];
            var d := EndStop(c.(recorders := c.recorders - {leg}), leg, capture, capture in good);
            Stopped(d, good) == Stopped(c, good)
  {
    var capture := c.recorders[leg];
    var d := EndStop(c.(recorders := c.recorders - {leg}), leg, capture, capture in good);
    assert FilesAfter(d, good) == FilesAfter(c, good);
  }

  lemma StopOneStep(ops: seq<Op>, leg: Leg, good: set<Capture>) returns (stop: seq<Op>)
    requires leg in Exec(ops).books.core.recorders
    ensures var s, t := Exec(ops).books, Exec(ops + stop).books;
            && Stopped(t.core, good) == Stopped(s.core, good)
            && t.core.active == s.core.active && t.core.recorders == s.core.recorders - {leg}
            && t.stopping == s.stopping
  {
    var capture := Exec(ops).books.core.recorders[leg];
    stop := StopOf(leg, capture, capture in good);
    StopOfRuns(ops, leg, capture in good);
    StopOneFirst(Exec(ops).books.core, leg, good);
  }

  lemma FewerRecorders(recorders: map<Leg, Capture>, leg: Leg)
    requires leg in recorders
    ensures |recorders - {leg}| < |recorders|
  {
    assert recorders == (recorders - {leg})[leg := recorders[leg]];
  }

  lemma StopsAreHistory(ops: seq<Op>, good: set<Capture>, recorders: map<Leg, Capture>) returns (stops: seq<Op>)
    requires !Exec(ops).books.core.active && recorders == Exec(ops).books.core.recorders
    ensures var s, t := Exec(ops).books, Exec(ops + stops).books;
            t.core == Stopped(s.core, good) && t.stopping == s.stopping
    decreases |recorders|
  {
    if recorders == map[] {
      stops := [];
      assert ops + stops == ops;
      assert FilesAfter(Exec(ops).books.core, good) == Exec(ops).books.core.files;
    } else {
      var leg :| leg in recorders;
      FewerRecorders(recorders, leg);
      var first := StopOneStep(ops, leg, good);
      var rest := StopsAreHistory(ops + first, good, recorders - {leg});
      stops := first + rest;
      assert ops + stops == ops + first + rest;
    }
  }

  /** stopAll, at any point of any history, is a continuation of it: what it
      collects are the channels with and without a published capture, and the
      stops that were under way still are. */
  lemma StopAllIsHistory(ops: seq<Op>, good: set<Capture>) returns (stops: seq<Op>)
    ensures var s := Exec(ops).books;
            var t := Exec(ops + [Deactivate] + stops).books;
            var c := Stopped(s.core, good);
            && t.core == c
            && LegsOf(Inputs(c.order, c.files, c.joins)) == Select(c.order, t.log, true)
            && Omitted(c.order, c.files) == Select(c.order, t.log, false)
            && t.stopping == s.stopping
            && (s.stopping == map[] <==> Settled(t))
  {
    Then(ops, Deactivate);
    stops := StopsAreHistory(ops + [Deactivate], good, Exec(ops).books.core.recorders);
    MergePartition(ops + [Deactivate] + stops);
  }

  // ---- A leg omitted too early ----

  /** Some stop of the leg is still between its two lock regions. */
  predicate BeingStopped(s: Books, leg: Leg) {
    exists c :: c in s.stopping && s.stopping[c].leg == leg
  }

  /** Nothing records and nothing will. */
  predicate Inactive(s: Books) {
    !s.core.active && s.core.recorders == map[]
  }

  lemma StaysOmitted(s: State, op: Op, leg: Leg)
    requires Inactive(s.books) && leg !in s.books.core.files && !BeingStopped(s.books, leg)
    ensures var t := Apply(s, op).books; Inactive(t) && leg !in t.core.files && !BeingStopped(t, leg)
  {
  }

  lemma {:induction false} NeverPublished(ops: seq<Op>, later: seq<Op>, leg: Leg)
    requires var s := Exec(ops).books; Inactive(s) && leg !in s.core.files && !BeingStopped(s, leg)
    ensures var t := Exec(ops + later).books; Inactive(t) && leg !in t.core.files && !BeingStopped(t, leg)
    decreases |later|
  {
    if later == [] {
      assert ops + later == ops;
    } else {
      var before, last := later[..|later| - 1], later[|later| - 1];
      NeverPublished(ops, before, leg);
      Then(ops + before, last);
      assert ops + before + [last] == ops + later;
      StaysOmitted(Exec(ops + before), last, leg);
    }
  }

  lemma StopCanPublish(ops: seq<Op>, capture: Capture) returns (later: seq<Op>)
    requires capture in Exec(ops).books.stopping
    ensures Exec(ops).books.stopping[capture].leg in Exec(ops + later).books.core.files
  {
    Then(ops, ClearTap(capture));
    Then(ops + [ClearTap(capture)], FinishStop(capture, true));
    later := [ClearTap(capture)] + [FinishStop(capture, true)];
    assert ops + [ClearTap(capture)] + [FinishStop(capture, true)] == ops + later;
  }

  /** A leg that stopAll omits can still publish a capture afterwards exactly when,
      as stopAll was called, a stop of that leg was under way. */
  lemma OmittedTooEarlyExactly(ops: seq<Op>, good: set<Capture>, leg: Leg) returns (stops: seq<Op>)
    requires leg !in Stopped(Exec(ops).books.core, good).files
    ensures Exec(ops + [Deactivate] + stops).books.core == Stopped(Exec(ops).books.core, good)
    ensures (exists later :: Published(Exec(ops + [Deactivate] + stops + later).books.log, leg))
            <==> BeingStopped(Exec(ops).books, leg)
  {
    stops := StopAllIsHistory(ops, good);
    var stopped := ops + [Deactivate] + stops;
    if BeingStopped(Exec(ops).books, leg) {
      var capture :| capture in Exec(stopped).books.stopping && Exec(stopped).books.stopping[capture].leg == leg;
      var later := StopCanPublish(stopped, capture);
      ExecKeeps(stopped + later);
      FilesArePublished(Exec(stopped + later).books, leg);
      assert Published(Exec(stopped + later).books.log, leg);
    } else {
      forall later
        ensures !Published(Exec(stopped + later).books.log, leg)
      {
        NeverPublished(stopped, later, leg);
        ExecKeeps(stopped + later);
        FilesArePublished(Exec(stopped + later).books, leg);
      }
    }
  }
}
