/** Pausing and resuming a room while captures come and go
    (internal/api/recording.go, setRoomRecordingPaused). A request sets the flag
    and takes its snapshot of the recorders under the lock, and sweeps them one by
    one outside it; nothing orders the sweeps of two requests. */
module MultiChannelPause {
  import opened Wrappers
  import opened MultiChannel
  import opened MultiChannelRuns

  predicate Running(s: State, c: Capture) {
    c in s.books.core.recorders.Values
  }

  /** Some request has yet to reach the recorder. */
  predicate Awaited(s: State, c: Capture) {
    exists i :: 0 <= i < |s.sweeps| && c in s.sweeps[i].left
  }

  /** Every running capture that no request has yet to reach is silent iff the
      room is paused. */
  predicate PauseHolds(s: State) {
    forall c | c in s.books.core.recorders.Values && !Awaited(s, c) ::
      c in s.books.core.silenced <==> s.books.core.paused
  }

  /** A request with the other setting has yet to reach a running capture. */
  predicate Contested(s: State, on: bool) {
    exists i :: 0 <= i < |s.sweeps| && s.sweeps[i].on != on
                && exists c :: c in s.sweeps[i].left && Running(s, c)
  }

  /** No further pause or resume. */
  predicate NoRequest(later: seq<Op>) {
    later == [] || (!later[|later| - 1].SetPaused? && NoRequest(later[..|later| - 1]))
  }

  lemma NoRequestSnoc(later: seq<Op>, op: Op)
    requires NoRequest(later) && !op.SetPaused?
    ensures NoRequest(later + [op])
  {
    assert (later + [op])[..|later|] == later;
  }

  // ---- Captures have numbers below the next ----

  predicate Numbered(s: State) {
    && (forall c | c in s.books.core.silenced :: c < s.books.next)
    && (forall i | 0 <= i < |s.sweeps| :: forall c | c in s.sweeps[i].left :: c < s.books.next)
  }

  lemma RunningIsNumbered(s: State, c: Capture)
    requires Inv(s.books) && Running(s, c)
    ensures c < s.books.next
  {
    var leg :| leg in s.books.core.recorders && s.books.core.recorders[leg] == c;
    assert LegOk(s.books, leg) && CaptureOk(s.books, c);
  }

  lemma NumberedStep(s: State, op: Op)
    requires Inv(s.books) && Numbered(s)
    ensures Numbered(Apply(s, op))
  {
    forall c: Capture | c in s.books.core.recorders.Values
      ensures c < s.books.next
    {
      RunningIsNumbered(s, c);
    }
  }

  lemma {:induction false} AlwaysNumbered(ops: seq<Op>)
    ensures Inv(Exec(ops).books) && Numbered(Exec(ops))
    decreases |ops|
  {
    ExecKeeps(ops);
    if ops != [] {
      AlwaysNumbered(ops[..|ops| - 1]);
      NumberedStep(Exec(ops[..|ops| - 1]), ops[|ops| - 1]);
    }
  }

  // ---- Uncontested ----

  /** What a running capture is, or will be once it is reached, agrees with the flag. */
  predicate Agreed(s: State, c: Capture) {
    && (forall i | 0 <= i < |s.sweeps| && c in s.sweeps[i].left :: s.sweeps[i].on == s.books.core.paused)
    && (!Awaited(s, c) ==> (c in s.books.core.silenced <==> s.books.core.paused))
  }

  predicate AllAgreed(s: State) {
    forall c | c in s.books.core.recorders.Values :: Agreed(s, c)
  }

  lemma ReachAgrees(s: State, i: nat, reached: Capture, c: Capture)
    requires i < |s.sweeps| && reached in s.sweeps[i].left && Agreed(s, c)
    ensures Agreed(Apply(s, ReachRecorder(i, reached)), c)
  {
    var t := Apply(s, ReachRecorder(i, reached));
    assert forall j | 0 <= j < |t.sweeps| :: t.sweeps[j].left <= s.sweeps[j].left && t.sweeps[j].on == s.sweeps[j].on;
    if Awaited(s, c) && c != reached {
      var j :| 0 <= j < |s.sweeps| && c in s.sweeps[j].left;
      assert c in t.sweeps[j].left;
    }
  }

  lemma StartAgrees(s: State, leg: Leg, gap: nat, c: Capture)
    requires Numbered(s) && MayStart(s.books.core, leg) && (c == s.books.next || Agreed(s, c))
    ensures Agreed(Apply(s, Start(leg, true, gap)), c)
  {
  }

  lemma AgreedStep(s: State, op: Op)
    requires Inv(s.books) && Numbered(s) && AllAgreed(s) && !op.SetPaused?
    ensures AllAgreed(Apply(s, op))
  {
    var t := Apply(s, op);
    forall c | c in t.books.core.recorders.Values
      ensures Agreed(t, c)
    {
      if op.Start? && op.ok && MayStart(s.books.core, op.leg) {
        StartAgrees(s, op.leg, op.gap, c);
      } else if op.ReachRecorder? && op.sweep < |s.sweeps| && op.capture in s.sweeps[op.sweep].left {
        ReachAgrees(s, op.sweep, op.capture, c);
      } else {
        assert Agreed(s, c);
      }
    }
  }

  lemma {:induction false} AgreedOn(ops: seq<Op>, later: seq<Op>)
    requires AllAgreed(Exec(ops)) && NoRequest(later)
    ensures AllAgreed(Exec(ops + later))
    decreases |later|
  {
    if later == [] {
      assert ops + later == ops;
    } else {
      var before, last := later[..|later| - 1], later[|later| - 1];
      AgreedOn(ops, before);
      Then(ops + before, last);
      assert ops + before + [last] == ops + later;
      AlwaysNumbered(ops + before);
      AgreedStep(Exec(ops + before), last);
    }
  }

  lemma RequestAgrees(s: State, on: bool)
    requires !Contested(s, on)
    ensures AllAgreed(Apply(s, SetPaused(on)))
  {
    var t := Apply(s, SetPaused(on));
    forall c | c in t.books.core.recorders.Values
      ensures Agreed(t, c)
    {
      assert c in t.sweeps[|s.sweeps|].left;
      assert Running(s, c);
    }
  }

  // ---- Contested ----

  /** Every request but `spared` among the first `n` reaches the recorder. */
  function Reaches(n: nat, spared: nat, c: Capture): seq<Op> {
    if n == 0 then []
    else Reaches(n - 1, spared, c) + if n - 1 == spared then [] else [ReachRecorder(n - 1, c)]
  }

  /** The first `n` requests but `spared` have reached the recorder; all else is as it was. */
  predicate Reached(s: State, t: State, n: nat, spared: nat, c: Capture) {
    && t.books.core.recorders == s.books.core.recorders && t.books.core.paused == s.books.core.paused
    && |t.sweeps| == |s.sweeps|
    && (forall j | 0 <= j < |s.sweeps| :: t.sweeps[j].on == s.sweeps[j].on)
    && (forall j | 0 <= j < n && j < |s.sweeps| && j != spared :: c !in t.sweeps[j].left)
    && (spared < |s.sweeps| ==> t.sweeps[spared] == s.sweeps[spared])
  }

  lemma ReachOneMore(s: State, t: State, n: nat, spared: nat, c: Capture)
    requires Reached(s, t, n, spared, c) && n < |s.sweeps| && n != spared
    ensures Reached(s, Apply(t, ReachRecorder(n, c)), n + 1, spared, c)
  {
  }

  function AfterReaches(s: State, n: nat, spared: nat, c: Capture): State {
    if n == 0 then s
    else
      var t := AfterReaches(s, n - 1, spared, c);
      if n - 1 == spared then t else Apply(t, ReachRecorder(n - 1, c))
  }

  lemma {:induction false} ReachesRun(ops: seq<Op>, n: nat, spared: nat, c: Capture)
    ensures Exec(ops + Reaches(n, spared, c)) == AfterReaches(Exec(ops), n, spared, c)
    decreases n
  {
    if n == 0 {
      assert ops + [] == ops;
    } else {
      ReachesRun(ops, n - 1, spared, c);
      var before := Reaches(n - 1, spared, c);
      if n - 1 == spared {
        assert Reaches(n, spared, c) == before;
      } else {
        Then(ops + before, ReachRecorder(n - 1, c));
        assert ops + Reaches(n, spared, c) == ops + before + [ReachRecorder(n - 1, c)];
      }
    }
  }

  lemma {:induction false} ReachesRequestNothing(n: nat, spared: nat, c: Capture)
    ensures NoRequest(Reaches(n, spared, c))
    decreases n
  {
    if n > 0 {
      ReachesRequestNothing(n - 1, spared, c);
      if n - 1 == spared {
        assert Reaches(n, spared, c) == Reaches(n - 1, spared, c);
      } else {
        NoRequestSnoc(Reaches(n - 1, spared, c), ReachRecorder(n - 1, c));
      }
    }
  }

  lemma {:induction false} ReachesReach(s: State, n: nat, spared: nat, c: Capture)
    requires n <= |s.sweeps|
    ensures Reached(s, AfterReaches(s, n, spared, c), n, spared, c)
    decreases n
  {
    if n > 0 {
      ReachesReach(s, n - 1, spared, c);
      if n - 1 != spared {
        ReachOneMore(s, AfterReaches(s, n - 1, spared, c), n - 1, spared, c);
      }
    }
  }

  lemma SparedComesLast(s: State, t: State, i: nat, c: Capture)
    requires i < |s.sweeps| && c in s.sweeps[i].left && Running(s, c) && s.sweeps[i].on != s.books.core.paused
    requires Reached(s, t, |s.sweeps|, i, c)
    ensures !PauseHolds(Apply(t, ReachRecorder(i, c)))
  {
    var u := Apply(t, ReachRecorder(i, c));
    assert forall j | 0 <= j < |u.sweeps| :: c !in u.sweeps[j].left;
    assert c in u.books.core.recorders.Values && !Awaited(u, c);
  }

  /** The request with the other setting comes last, and wins. */
  lemma LastSweepWins(ops: seq<Op>, i: nat, c: Capture) returns (later: seq<Op>)
    requires i < |Exec(ops).sweeps| && c in Exec(ops).sweeps[i].left && Running(Exec(ops), c)
    requires Exec(ops).sweeps[i].on != Exec(ops).books.core.paused
    ensures NoRequest(later) && !PauseHolds(Exec(ops + later))
  {
    var s := Exec(ops);
    var others := Reaches(|s.sweeps|, i, c);
    ReachesRun(ops, |s.sweeps|, i, c);
    ReachesReach(s, |s.sweeps|, i, c);
    SparedComesLast(s, AfterReaches(s, |s.sweeps|, i, c), i, c);
    ReachesRequestNothing(|s.sweeps|, i, c);
    NoRequestSnoc(others, ReachRecorder(i, c));
    Then(ops + others, ReachRecorder(i, c));
    later := others + [ReachRecorder(i, c)];
    assert ops + others + [ReachRecorder(i, c)] == ops + later;
  }

  // ---- Main results ----

  /** After a pause or resume, and until the next one, every running capture that
      no request has yet to reach is silent iff the room is paused, whatever
      joins, leaves and is swept meanwhile - exactly when, as the request is made,
      no earlier request with the other setting has yet to reach a running capture. */
  lemma PauseHoldsExactly(ops: seq<Op>, on: bool)
    ensures (forall later | NoRequest(later) :: PauseHolds(Exec(ops + [SetPaused(on)] + later)))
            <==> !Contested(Exec(ops), on)
  {
    var s := Exec(ops);
    var asked := ops + [SetPaused(on)];
    Then(ops, SetPaused(on));
    if Contested(s, on) {
      var i :| 0 <= i < |s.sweeps| && s.sweeps[i].on != on && exists c :: c in s.sweeps[i].left && Running(s, c);
      var c :| c in s.sweeps[i].left && Running(s, c);
      var later := LastSweepWins(asked, i, c);
      assert !PauseHolds(Exec(asked + later));
    } else {
      RequestAgrees(s, on);
      forall later | NoRequest(later)
        ensures PauseHolds(Exec(asked + later))
      {
        AgreedOn(asked, later);
      }
    }
  }

  /** So once an uncontested pause is through, every running capture is silent,
      late joiners included, and once an uncontested resume is, none is. */
  lemma PauseReachesEveryCapture(ops: seq<Op>, on: bool, later: seq<Op>, leg: Leg)
    requires !Contested(Exec(ops), on) && NoRequest(later)
    requires leg in Exec(ops + [SetPaused(on)] + later).books.core.recorders
    requires forall i | 0 <= i < |Exec(ops + [SetPaused(on)] + later).sweeps| ::
               Exec(ops + [SetPaused(on)] + later).sweeps[i].left == {}
    ensures var core := Exec(ops + [SetPaused(on)] + later).books.core;
            core.paused == on && (core.recorders[leg] in core.silenced <==> on)
  {
    var t := Exec(ops + [SetPaused(on)] + later);
    PauseHoldsExactly(ops, on);
    Then(ops, SetPaused(on));
    FlagStays(ops + [SetPaused(on)], later);
    assert !Awaited(t, t.books.core.recorders[leg]);
  }

  lemma FlagStep(s: State, op: Op)
    requires !op.SetPaused?
    ensures Apply(s, op).books.core.paused == s.books.core.paused
  {
  }

  lemma {:induction false} FlagStays(ops: seq<Op>, later: seq<Op>)
    requires NoRequest(later)
    ensures Exec(ops + later).books.core.paused == Exec(ops).books.core.paused
    decreases |later|
  {
    if later == [] {
      assert ops + later == ops;
    } else {
      var before, last := later[..|later| - 1], later[|later| - 1];
      FlagStays(ops, before);
      Then(ops + before, last);
      assert ops + before + [last] == ops + later;
      FlagStep(Exec(ops + before), last);
    }
  }

  /** A second pause overtaken by the resume before it: the room ends paused, every
      request is through, and the capture is recorded in full. */
  lemma PauseCanBeOvertaken(leg: Leg)
    ensures var s := Exec([Start(leg, true, 0)] + [SetPaused(true)] + [ReachRecorder(0, 0)] + [SetPaused(false)]
                          + [SetPaused(true)] + [ReachRecorder(2, 0)] + [ReachRecorder(1, 0)]);
            && s.books.core.paused && leg in s.books.core.recorders
            && s.books.core.recorders[leg] !in s.books.core.silenced
            && forall i | 0 <= i < |s.sweeps| :: s.sweeps[i].left == {}
  {
    var a := [Start(leg, true, 0)];
    Then([], a[0]);
    assert [] + a == a;
    assert Exec(a).books.core.recorders == map[leg := 0] && Exec(a).books.core.recorders.Values == {0};
    Then(a, SetPaused(true));
    var b := a + [SetPaused(true)];
    Then(b, ReachRecorder(0, 0));
    var c := b + [ReachRecorder(0, 0)];
    Then(c, SetPaused(false));
    var d := c + [SetPaused(false)];
    Then(d, SetPaused(true));
    var e := d + [SetPaused(true)];
    Then(e, ReachRecorder(2, 0));
    Then(e + [ReachRecorder(2, 0)], ReachRecorder(1, 0));
  }
}
