/** Whether a running capture is fed. A participant has one record tap, and the
    captures are not alone in setting and clearing it: room recording sessions do
    (internal/api/siprec_src.go, attachSRCPumps and cleanupSIPRECSRC), and a
    participant rebuilt for a new sample rate starts without one
    (internal/room/room.go, RebuildLegMedia). */
module MultiChannelTaps {
  import opened Wrappers
  import opened MultiChannel
  import opened MultiChannelRuns

  predicate Records(s: State, leg: Leg, capture: Capture) {
    leg in s.books.core.recorders && s.books.core.recorders[leg] == capture
  }

  /** While the capture records, the mixer feeds it. */
  predicate Heard(s: State, leg: Leg, capture: Capture) {
    Records(s, leg, capture) ==> leg in s.slots && s.slots[leg] == Capturing(capture)
  }

  /** Every stop of the leg so far has already cleared the leg's tap. */
  predicate NoTapToClear(s: State, leg: Leg) {
    forall c | c in s.books.stopping && s.books.stopping[c].leg == leg :: s.books.stopping[c].untapped
  }

  predicate NoSession(s: State, leg: Leg) {
    forall pump | pump in s.sessions :: s.sessions[pump] != leg
  }

  /** The mixer has the leg, and nobody has yet to clear its tap. */
  predicate Quiet(s: State, leg: Leg) {
    leg in s.slots && NoTapToClear(s, leg) && NoSession(s, leg)
  }

  /** The step takes the tap away from the running capture: a recording session
      attaches to its leg, or the mixer replaces or loses the participant. */
  predicate Takes(s: State, op: Op, leg: Leg, capture: Capture) {
    && Records(s, leg, capture)
    && match op
       case SessionTakes(pump, l) => l == leg && pump !in s.sessions
       case Wire(l) => l == leg
       case Unwire(l) => l == leg
       case _ => false
  }

  /** Nothing in `later` takes the tap away. */
  predicate Spared(ops: seq<Op>, later: seq<Op>, leg: Leg, capture: Capture) {
    later == []
    || (var n := |later| - 1;
        Spared(ops, later[..n], leg, capture) && !Takes(Exec(ops + later[..n]), later[n], leg, capture))
  }

  /** The capture is heard at every moment of `later`, its ends included. */
  predicate HeardThroughout(ops: seq<Op>, later: seq<Op>, leg: Leg, capture: Capture) {
    && Heard(Exec(ops + later), leg, capture)
    && (later == [] || HeardThroughout(ops, later[..|later| - 1], leg, capture))
  }

  /** The capture is fed, and nobody has yet to clear the tap. */
  predicate Fed(s: State, leg: Leg, capture: Capture) {
    && capture < s.books.next
    && (Records(s, leg, capture) ==> Heard(s, leg, capture) && Quiet(s, leg))
  }

  lemma FedKeeps(s: State, op: Op, leg: Leg, capture: Capture)
    requires Fed(s, leg, capture) && !Takes(s, op, leg, capture)
    ensures Fed(Apply(s, op), leg, capture)
  {
  }

  lemma TakenIsUnheard(s: State, op: Op, leg: Leg, capture: Capture)
    requires Fed(s, leg, capture) && Takes(s, op, leg, capture)
    ensures !Heard(Apply(s, op), leg, capture)
  {
  }

  lemma {:induction false} FedWhileSpared(ops: seq<Op>, later: seq<Op>, leg: Leg, capture: Capture)
    requires Fed(Exec(ops), leg, capture) && Spared(ops, later, leg, capture)
    ensures Fed(Exec(ops + later), leg, capture)
    decreases |later|
  {
    if later == [] {
      assert ops + later == ops;
    } else {
      var before, last := later[..|later| - 1], later[|later| - 1];
      FedWhileSpared(ops, before, leg, capture);
      Then(ops + before, last);
      assert ops + before + [last] == ops + later;
      FedKeeps(Exec(ops + before), last, leg, capture);
    }
  }

  lemma {:induction false} HeardWhileSpared(ops: seq<Op>, later: seq<Op>, leg: Leg, capture: Capture)
    requires Fed(Exec(ops), leg, capture)
    ensures HeardThroughout(ops, later, leg, capture) <==> Spared(ops, later, leg, capture)
    decreases |later|
  {
    if later == [] {
      assert ops + later == ops;
    } else {
      var before, last := later[..|later| - 1], later[|later| - 1];
      HeardWhileSpared(ops, before, leg, capture);
      Then(ops + before, last);
      assert ops + before + [last] == ops + later;
      if Spared(ops, before, leg, capture) {
        FedWhileSpared(ops, before, leg, capture);
        if Takes(Exec(ops + before), last, leg, capture) {
          TakenIsUnheard(Exec(ops + before), last, leg, capture);
        } else {
          FedKeeps(Exec(ops + before), last, leg, capture);
        }
      }
    }
  }

  lemma QuietStart(ops: seq<Op>, leg: Leg, gap: nat)
    requires MayStart(Exec(ops).books.core, leg) && Quiet(Exec(ops), leg)
    ensures Fed(Exec(ops + [Start(leg, true, gap)]), leg, Exec(ops).books.next)
  {
    Then(ops, Start(leg, true, gap));
  }

  lemma SparedOne(ops: seq<Op>, op: Op, leg: Leg, capture: Capture)
    requires !Takes(Exec(ops), op, leg, capture)
    ensures Spared(ops, [op], leg, capture)
  {
    assert [op][..0] == [];
    assert ops + [] == ops;
  }

  /** The steps that clear a leg's tap without knowing who set it. */
  predicate Clears(s: State, op: Op, leg: Leg) {
    match op
    case ClearTap(c) => MayClear(s.books, c) && s.books.stopping[c].leg == leg
    case SessionEnds(pump) => pump in s.sessions && s.sessions[pump] == leg
    case _ => false
  }

  lemma ClearedUnderIt(s: State, leg: Leg, gap: nat, op: Op)
    requires MayStart(s.books.core, leg) && leg in s.slots && Clears(s, op, leg)
    ensures var t := Apply(s, Start(leg, true, gap));
            && !Takes(t, op, leg, s.books.next)
            && !Heard(Apply(t, op), leg, s.books.next)
  {
  }

  lemma UnquietStep(s: State, leg: Leg) returns (op: Op)
    requires leg in s.slots && !Quiet(s, leg)
    ensures Clears(s, op, leg)
  {
    if !NoTapToClear(s, leg) {
      var c :| c in s.books.stopping && s.books.stopping[c].leg == leg && !s.books.stopping[c].untapped;
      op := ClearTap(c);
    } else {
      var pump :| pump in s.sessions && s.sessions[pump] == leg;
      op := SessionEnds(pump);
    }
  }

  /** Whoever has yet to clear the tap can do so under the new capture, and a leg
      the mixer does not have has no tap to set. */
  lemma UnquietStartCanBeSilent(ops: seq<Op>, leg: Leg, gap: nat) returns (later: seq<Op>)
    requires MayStart(Exec(ops).books.core, leg) && !Quiet(Exec(ops), leg)
    ensures Spared(ops + [Start(leg, true, gap)], later, leg, Exec(ops).books.next)
    ensures !Heard(Exec(ops + [Start(leg, true, gap)] + later), leg, Exec(ops).books.next)
  {
    var s := Exec(ops);
    var started := ops + [Start(leg, true, gap)];
    Then(ops, Start(leg, true, gap));
    if leg !in s.slots {
      later := [];
      assert started + later == started;
    } else {
      var op := UnquietStep(s, leg);
      later := [op];
      ClearedUnderIt(s, leg, gap, op);
      SparedOne(started, op, leg, s.books.next);
      Then(started, op);
    }
  }

  /** A new capture is fed for as long as it records, in every continuation that
      does not take its tap away, exactly when at its start the mixer has the leg,
      no earlier stop has yet to clear the tap, and no recording session holds the
      leg. */
  lemma FedExactlyWhenQuiet(ops: seq<Op>, leg: Leg, gap: nat)
    requires MayStart(Exec(ops).books.core, leg)
    ensures var started, capture := ops + [Start(leg, true, gap)], Exec(ops).books.next;
            (forall later | Spared(started, later, leg, capture) :: Heard(Exec(started + later), leg, capture))
            <==> Quiet(Exec(ops), leg)
  {
    var started, capture := ops + [Start(leg, true, gap)], Exec(ops).books.next;
    if Quiet(Exec(ops), leg) {
      QuietStart(ops, leg, gap);
      forall later | Spared(started, later, leg, capture)
        ensures Heard(Exec(started + later), leg, capture)
      {
        FedWhileSpared(started, later, leg, capture);
      }
    } else {
      var later := UnquietStartCanBeSilent(ops, leg, gap);
      assert !Heard(Exec(started + later), leg, capture);
    }
  }

  /** And a quiet start is fed throughout a continuation exactly when nothing in
      it takes the tap away. */
  lemma FedUntilTaken(ops: seq<Op>, leg: Leg, gap: nat, later: seq<Op>)
    requires MayStart(Exec(ops).books.core, leg) && Quiet(Exec(ops), leg)
    ensures var started, capture := ops + [Start(leg, true, gap)], Exec(ops).books.next;
            HeardThroughout(started, later, leg, capture) <==> Spared(started, later, leg, capture)
  {
    QuietStart(ops, leg, gap);
    HeardWhileSpared(ops + [Start(leg, true, gap)], later, leg, Exec(ops).books.next);
  }

  // ---- Witnesses ----

  /** A leg in the room, whose capture starts quietly. */
  lemma QuietCapture(leg: Leg)
    ensures var s := Exec([Wire(leg)]);
            MayStart(s.books.core, leg) && Quiet(s, leg) && s.books.next == 0 && s.sessions == map[]
    ensures var s := Exec([Wire(leg)] + [Start(leg, true, 0)]);
            Records(s, leg, 0) && Heard(s, leg, 0) && s.sessions == map[]
  {
    Then([], Wire(leg));
    assert [] + [Wire(leg)] == [Wire(leg)];
    Then([Wire(leg)], Start(leg, true, 0));
  }

  /** A recording session that starts afterwards takes the tap, and so does a codec
      change: the capture goes on recording, of nothing. */
  lemma CaptureLosesItsTap(leg: Leg, pump: Pump)
    ensures var s := Exec([Wire(leg)] + [Start(leg, true, 0)] + [SessionTakes(pump, leg)]);
            Records(s, leg, 0) && !Heard(s, leg, 0)
    ensures var s := Exec([Wire(leg)] + [Start(leg, true, 0)] + [Wire(leg)]);
            Records(s, leg, 0) && !Heard(s, leg, 0)
  {
    QuietCapture(leg);
    var started := [Wire(leg)] + [Start(leg, true, 0)];
    Then(started, SessionTakes(pump, leg));
    Then(started, Wire(leg));
  }

  /** A session that held the leg before the capture started silences it as it ends. */
  lemma EndingSessionSilences(leg: Leg, pump: Pump)
    ensures var s := Exec([Wire(leg)] + [SessionTakes(pump, leg)] + [Start(leg, true, 0)] + [SessionEnds(pump)]);
            Records(s, leg, 0) && !Heard(s, leg, 0)
  {
    QuietCapture(leg);
    Then([Wire(leg)], SessionTakes(pump, leg));
    var held := [Wire(leg)] + [SessionTakes(pump, leg)];
    Then(held, Start(leg, true, 0));
    Then(held + [Start(leg, true, 0)], SessionEnds(pump));
  }

  /** A rejoin that overtakes the previous stop records silence. */
  lemma HurriedRejoinIsSilent(leg: Leg)
    ensures var s := Exec([Wire(leg)] + [Start(leg, true, 0)] + [BeginStop(leg)]);
            MayStart(s.books.core, leg) && s.books.next == 1
    ensures var s := Exec([Wire(leg)] + [Start(leg, true, 0)] + [BeginStop(leg)] + [Start(leg, true, 0)] + [ClearTap(0)]);
            Records(s, leg, 1) && !Heard(s, leg, 1)
  {
    QuietCapture(leg);
    Then([Wire(leg)], Start(leg, true, 0));
    var a := [Wire(leg)] + [Start(leg, true, 0)];
    Then(a, BeginStop(leg));
    Then(a + [BeginStop(leg)], Start(leg, true, 0));
    Then(a + [BeginStop(leg)] + [Start(leg, true, 0)], ClearTap(0));
  }
}
