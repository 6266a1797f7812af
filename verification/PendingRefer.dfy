/** Inbound REFERs parked until the application accepts or declines them, or a
    consult timeout declines them (internal/api/transfer.go, pendingReferStore
    and the operations on it; section 2.4.4 of RFC 3515). */
module PendingRefer {
  import opened Wrappers

  type LegId = string
  type ReferId = nat

  // ---- The store object ----

  class Refer {
    const id: ReferId
    const legId: LegId
    var accepted: bool
    var timerArmed: bool

    constructor (id: ReferId, legId: LegId)
      ensures this.id == id && this.legId == legId && !accepted && timerArmed
    {
      this.id, this.legId, accepted, timerArmed := id, legId, false, true;
    }
  }

  /** The parked REFERs after one operation on them, and what it did to one. */
  function StoreAfter(store: map<LegId, Parked>, op: Op): (map<LegId, Parked>, seq<Event>) {
    var t := Apply(State(store, [], {}, {}, map[]), op);
    (t.store, t.log)
  }

  /** The same for the timer of `id`, which looks at what `leg` holds. */
  function StoreAfterTimer(store: map<LegId, Parked>, leg: LegId, id: ReferId): (map<LegId, Parked>, seq<Event>) {
    var t := Apply(State(store, [], {}, {}, map[id := Timer(leg, true)]), TimerRuns(id));
    (t.store, t.log)
  }

  class Store {
    var m: map<LegId, Refer>

    ghost predicate Valid()
      reads this, m.Values
    {
      forall leg | leg in m :: m[leg].legId == leg
    }

    ghost function View(): map<LegId, Parked>
      reads this, m.Values
    {
      map leg | leg in m :: Parked(m[leg].id, m[leg].accepted)
    }

    constructor ()
      ensures Valid() && m == map[] && View() == EMPTY.store
    {
      m := map[];
    }

    method Put(pr: Refer)
      requires Valid() && !pr.accepted
      modifies this
      ensures Valid() && m == old(m)[pr.legId := pr]
      ensures View() == StoreAfter(old(View()), Park(pr.legId, pr.id)).0
      ensures StoreAfter(old(View()), Park(pr.legId, pr.id)).1 == []
    {
      m := m[pr.legId := pr];
    }

    method MarkAccepted(leg: LegId) returns (r: Option<Refer>)
      requires Valid()
      modifies if leg in m then {m[leg]} else {}
      ensures Valid() && m == old(m)
      ensures r == (if leg in m && !old(m[leg].accepted) then Some(m[leg]) else None)
      ensures r.Some? ==> !r.value.timerArmed
      ensures r.None? && leg in m ==> unchanged(m[leg])
      ensures View() == StoreAfter(old(View()), Accept(leg)).0
      ensures StoreAfter(old(View()), Accept(leg)).1 == if r.Some? then [Accepted(r.value.id)] else []
    {
      if leg !in m || m[leg].accepted {
        return None;
      }
      var pr := m[leg];
      pr.accepted := true;
      pr.timerArmed := false;
      r := Some(pr);
    }

    method PeekAccepted(leg: LegId) returns (r: Option<Refer>)
      ensures r.Some? ==> leg in m && r.value == m[leg]
      ensures View() == StoreAfter(View(), Progress(leg)).0
      ensures StoreAfter(View(), Progress(leg)).1 == if r.Some? then [Progressed(r.value.id)] else []
    {
      r := if leg in m && m[leg].accepted then Some(m[leg]) else None;
    }

    method TakeAccepted(leg: LegId) returns (r: Option<Refer>)
      requires Valid()
      modifies this
      ensures Valid()
      ensures r == (if leg in old(m) && old(m)[leg].accepted then Some(old(m)[leg]) else None)
      ensures m == if r.Some? then old(m) - {leg} else old(m)
      ensures View() == StoreAfter(old(View()), Complete(leg)).0
      ensures StoreAfter(old(View()), Complete(leg)).1 == if r.Some? then [Completed(r.value.id)] else []
    {
      if leg !in m || !m[leg].accepted {
        return None;
      }
      r := Some(m[leg]);
      m := m - {leg};
    }

    method TakeIfPending(leg: LegId) returns (r: Option<Refer>)
      requires Valid()
      modifies this, if leg in m then {m[leg]} else {}
      ensures Valid()
      ensures r == (if leg in old(m) && !old(m[leg].accepted) then Some(old(m)[leg]) else None)
      ensures m == if r.Some? then old(m) - {leg} else old(m)
      ensures r.Some? ==> !r.value.timerArmed && r.value.accepted == old(r.value.accepted)
      ensures r.None? && leg in old(m) ==> unchanged(old(m)[leg])
      ensures View() == StoreAfter(old(View()), Decline(leg)).0
      ensures StoreAfter(old(View()), Decline(leg)).1 == if r.Some? then [Declined(r.value.id)] else []
      ensures forall id :: StoreAfterTimer(old(View()), leg, id).0 == View()
      ensures forall id :: StoreAfterTimer(old(View()), leg, id).1 == if r.Some? then [TimedOut(r.value.id, id)] else []
    {
      if leg !in m || m[leg].accepted {
        return None;
      }
      var pr := m[leg];
      m := m - {leg};
      pr.timerArmed := false;
      r := Some(pr);
    }
  }

  // ---- Every history of operations ----

  datatype Parked = Parked(id: ReferId, accepted: bool)

  /** What a REFER went through. */
  datatype Event =
    | Accepted(id: ReferId)
    | Progressed(id: ReferId)
    | Completed(id: ReferId)
    | Declined(id: ReferId)
    | TimedOut(id: ReferId, timer: ReferId)

  /** The consult timer of a REFER; one that has fired can no longer be stopped. */
  datatype Timer = Timer(leg: LegId, fired: bool)

  /** The requests of the application, REFERs arriving, and consult timers, which
      fire and then run on whatever their leg holds. */
  datatype Op =
    | Park(leg: LegId, id: ReferId)
    | Accept(leg: LegId)
    | Progress(leg: LegId)
    | Complete(leg: LegId)
    | Decline(leg: LegId)
    | TimerFires(id: ReferId)
    | TimerRuns(id: ReferId)

  /** The store, the events so far, the REFERs ever parked, those that a later
      REFER on the same leg displaced, and the timers yet to run, by their REFER. */
  datatype State = State(
    store: map<LegId, Parked>,
    log: seq<Event>,
    known: set<ReferId>,
    displaced: set<ReferId>,
    timers: map<ReferId, Timer>)

  const EMPTY := State(map[], [], {}, {}, map[])

  function StopTimer(timers: map<ReferId, Timer>, id: ReferId): map<ReferId, Timer> {
    if id in timers && !timers[id].fired then timers - {id} else timers
  }

  predicate Pending(s: State, leg: LegId) {
    leg in s.store && !s.store[leg].accepted
  }

  predicate Open(s: State, leg: LegId) {
    leg in s.store && s.store[leg].accepted
  }

  function Apply(s: State, op: Op): State {
    match op
    case Park(leg, id) =>
      if id in s.known then s
      else s.(store := s.store[leg := Parked(id, false)], known := s.known + {id},
              displaced := if leg in s.store then s.displaced + {s.store[leg].id} else s.displaced,
              timers := s.timers[id := Timer(leg, false)])
    case Accept(leg) =>
      if !Pending(s, leg) then s
      else
        var id := s.store[leg].id;
        After(s, leg, Accepted(id), Some(Parked(id, true)), StopTimer(s.timers, id))
    case Progress(leg) =>
      if !Open(s, leg) then s
      else After(s, leg, Progressed(s.store[leg].id), Some(s.store[leg]), s.timers)
    case Complete(leg) =>
      if !Open(s, leg) then s else After(s, leg, Completed(s.store[leg].id), None, s.timers)
    case Decline(leg) =>
      if !Pending(s, leg) then s
      else After(s, leg, Declined(s.store[leg].id), None, StopTimer(s.timers, s.store[leg].id))
    case TimerFires(id) =>
      if id !in s.timers then s else s.(timers := s.timers[id := s.timers[id].(fired := true)])
    case TimerRuns(id) =>
      if id !in s.timers || !s.timers[id].fired then s
      else
        var leg, left := s.timers[id].leg, s.timers - {id};
        if !Pending(s, leg) then s.(timers := left)
        else After(s, leg, TimedOut(s.store[leg].id, id), None, StopTimer(left, s.store[leg].id))
  }

  /** The entry under `leg` stays, changed, or leaves; its REFER lived `e`. */
  function After(s: State, leg: LegId, e: Event, after: Option<Parked>, timers: map<ReferId, Timer>): State {
    s.(store := if after.Some? then s.store[leg := after.value] else s.store - {leg}, log := s.log + [e], timers := timers)
  }

  function Exec(ops: seq<Op>): State {
    if ops == [] then EMPTY else Apply(Exec(ops[..|ops| - 1]), ops[|ops| - 1])
  }

  /** The events of one REFER, in order. */
  function Life(log: seq<Event>, id: ReferId): seq<Event> {
    if log == [] then []
    else
      var last := log[|log| - 1];
      Life(log[..|log| - 1], id) + if last.id == id then [last] else []
  }

  /** Accepted once, then any progress. */
  predicate AcceptedLife(life: seq<Event>) {
    life != [] && life[0].Accepted? && forall i | 0 < i < |life| :: life[i].Progressed?
  }

  predicate FinishedLife(life: seq<Event>) {
    || (|life| == 1 && (life[0].Declined? || life[0].TimedOut?))
    || (life != [] && life[|life| - 1].Completed? && AcceptedLife(life[..|life| - 1]))
  }

  /** The lives a REFER may have: undecided, accepted and in progress, declined
      once, timed out once, or accepted and completed once with nothing after. */
  predicate LegalLife(life: seq<Event>) {
    life == [] || AcceptedLife(life) || FinishedLife(life)
  }

  /** Where the REFER stands in the store decides how it has lived so far. */
  predicate StoredLife(parked: Parked, life: seq<Event>) {
    if parked.accepted then AcceptedLife(life) else life == []
  }

  predicate Stored(s: State, id: ReferId) {
    exists leg :: leg in s.store && s.store[leg].id == id
  }

  /** Everything known of one REFER. */
  ghost predicate ReferOk(s: State, id: ReferId) {
    var life := Life(s.log, id);
    if id !in s.known then life == []
    else
      && LegalLife(life)
      && (!Stored(s, id) && id !in s.displaced ==> FinishedLife(life))
      && (id in s.displaced ==> !FinishedLife(life))
  }

  predicate SlotOk(s: State, leg: LegId)
    requires leg in s.store
  {
    var parked := s.store[leg];
    parked.id in s.known && parked.id !in s.displaced && StoredLife(parked, Life(s.log, parked.id))
  }

  ghost predicate Inv(s: State) {
    && (forall leg | leg in s.store :: SlotOk(s, leg))
    && (forall a, b | a in s.store && b in s.store && a != b :: s.store[a].id != s.store[b].id)
    && s.displaced <= s.known
    && (forall id :: ReferOk(s, id))
  }

  lemma LifeSnoc(log: seq<Event>, e: Event)
    ensures Life(log + [e], e.id) == Life(log, e.id) + [e]
    ensures forall id | id != e.id :: Life(log + [e], id) == Life(log, id)
  {
    assert (log + [e])[..|log|] == log;
    forall id | id != e.id
      ensures Life(log + [e], id) == Life(log, id)
    {
      assert Life(log, id) + [] == Life(log, id);
    }
  }

  lemma AcceptedLivesOn(life: seq<Event>, e: Event)
    requires AcceptedLife(life)
    ensures e.Progressed? ==> AcceptedLife(life + [e])
    ensures e.Completed? ==> FinishedLife(life + [e])
    ensures !FinishedLife(life)
  {
    assert (life + [e])[..|life|] == life;
    if |life| > 1 {
      assert life[|life| - 1].Progressed?;
    }
  }

  /** Changing one leg's entry displaces at most that entry. */
  lemma OnlyOneLeaves(s: State, t: State, leg: LegId, x: ReferId)
    requires Stored(s, x) && forall l | l in s.store && l != leg :: l in t.store && t.store[l] == s.store[l]
    ensures Stored(t, x) || (leg in s.store && s.store[leg].id == x)
  {
    var l :| l in s.store && s.store[l].id == x;
    if l != leg {
      assert l in t.store && t.store[l].id == x;
    }
  }

  lemma ParkKeeps(s: State, leg: LegId, id: ReferId)
    requires Inv(s) && id !in s.known
    ensures Inv(Apply(s, Park(leg, id)))
  {
    var t := Apply(s, Park(leg, id));
    assert t.store[leg].id == id;
    if leg in s.store {
      assert SlotOk(s, leg);
      if s.store[leg].accepted {
        AcceptedLivesOn(Life(s.log, s.store[leg].id), Progressed(0));
      }
    }
    forall l | l in t.store
      ensures SlotOk(t, l)
    {
      assert l != leg ==> SlotOk(s, l);
      assert ReferOk(s, id);
    }
    forall x
      ensures ReferOk(t, x)
    {
      assert ReferOk(s, x);
      if Stored(s, x) {
        OnlyOneLeaves(s, t, leg, x);
      }
    }
  }

  predicate Fits(s: State, leg: LegId, e: Event, after: Option<Parked>) {
    var life := Life(s.log, e.id) + [e];
    && leg in s.store && e.id == s.store[leg].id
    && LegalLife(life)
    && if after.Some? then after.value.id == e.id && StoredLife(after.value, life) else FinishedLife(life)
  }

  lemma SlotAfter(s: State, leg: LegId, e: Event, after: Option<Parked>, timers: map<ReferId, Timer>, l: LegId)
    requires Inv(s) && Fits(s, leg, e, after) && l in After(s, leg, e, after, timers).store
    ensures SlotOk(After(s, leg, e, after, timers), l)
  {
    LifeSnoc(s.log, e);
    assert SlotOk(s, leg) && SlotOk(s, l);
  }

  lemma ReferAfter(s: State, leg: LegId, e: Event, after: Option<Parked>, timers: map<ReferId, Timer>, id: ReferId)
    requires Inv(s) && Fits(s, leg, e, after)
    ensures ReferOk(After(s, leg, e, after, timers), id)
  {
    var t := After(s, leg, e, after, timers);
    LifeSnoc(s.log, e);
    assert SlotOk(s, leg) && ReferOk(s, id);
    if Stored(s, id) {
      OnlyOneLeaves(s, t, leg, id);
    }
    if id == e.id && after.Some? {
      assert leg in t.store && t.store[leg].id == id;
    }
  }

  /** One event of the entry stored under `leg`. */
  lemma EventKeeps(s: State, leg: LegId, e: Event, after: Option<Parked>, timers: map<ReferId, Timer>)
    requires Inv(s) && Fits(s, leg, e, after)
    ensures Inv(After(s, leg, e, after, timers))
  {
    var t := After(s, leg, e, after, timers);
    forall l | l in t.store
      ensures SlotOk(t, l)
    {
      SlotAfter(s, leg, e, after, timers, l);
    }
    forall id
      ensures ReferOk(t, id)
    {
      ReferAfter(s, leg, e, after, timers, id);
    }
  }

  lemma TimersDoNotMatter(s: State, timers: map<ReferId, Timer>)
    requires Inv(s)
    ensures Inv(s.(timers := timers))
  {
    var t := s.(timers := timers);
    assert forall leg | leg in t.store :: SlotOk(s, leg) && SlotOk(t, leg);
    forall id
      ensures ReferOk(t, id)
    {
      assert ReferOk(s, id) && (Stored(s, id) <==> Stored(t, id));
    }
  }

  lemma ApplyKeeps(s: State, op: Op)
    requires Inv(s)
    ensures Inv(Apply(s, op))
  {
    var timers := Apply(s, op).timers;
    match op {
      case Park(leg, id) =>
        if id !in s.known {
          ParkKeeps(s, leg, id);
        }
      case Accept(leg) =>
        if Pending(s, leg) {
          EventKeeps(s, leg, Accepted(s.store[leg].id), Some(Parked(s.store[leg].id, true)), timers);
        }
      case Progress(leg) =>
        if Open(s, leg) {
          AcceptedLivesOn(Life(s.log, s.store[leg].id), Progressed(s.store[leg].id));
          EventKeeps(s, leg, Progressed(s.store[leg].id), Some(s.store[leg]), timers);
        }
      case Complete(leg) =>
        if Open(s, leg) {
          AcceptedLivesOn(Life(s.log, s.store[leg].id), Completed(s.store[leg].id));
          EventKeeps(s, leg, Completed(s.store[leg].id), None, timers);
        }
      case Decline(leg) =>
        if Pending(s, leg) {
          EventKeeps(s, leg, Declined(s.store[leg].id), None, timers);
        }
      case TimerFires(id) => TimersDoNotMatter(s, timers);
      case TimerRuns(id) =>
        if id in s.timers && s.timers[id].fired && Pending(s, s.timers[id].leg) {
          var leg := s.timers[id].leg;
          EventKeeps(s, leg, TimedOut(s.store[leg].id, id), None, timers);
        } else {
          TimersDoNotMatter(s, timers);
        }
    }
  }

  lemma {:induction false} ExecKeeps(ops: seq<Op>)
    ensures Inv(Exec(ops))
    decreases |ops|
  {
    if ops != [] {
      ExecKeeps(ops[..|ops| - 1]);
      ApplyKeeps(Exec(ops[..|ops| - 1]), ops[|ops| - 1]);
    }
  }

  // ---- Main results ----

  /** Every REFER, in every history, is won by at most one of accept, decline
      and timeout; it is completed at most once and only after its accept; and
      nothing happens to it after that. */
  lemma EveryLifeIsLegal(ops: seq<Op>, id: ReferId)
    ensures LegalLife(Life(Exec(ops).log, id))
  {
    ExecKeeps(ops);
    assert ReferOk(Exec(ops), id);
  }

  /** Every REFER ever parked is in exactly one place: still stored, finished,
      or displaced by a later REFER on its leg. */
  lemma EveryReferHasOnePlace(ops: seq<Op>, id: ReferId)
    requires id in Exec(ops).known
    ensures var s := Exec(ops);
            var finished := FinishedLife(Life(s.log, id));
            && (Stored(s, id) ==> !finished && id !in s.displaced)
            && (id in s.displaced ==> !finished)
            && (Stored(s, id) || finished || id in s.displaced)
  {
    ExecKeeps(ops);
    var s := Exec(ops);
    assert ReferOk(s, id);
    if Stored(s, id) {
      var leg :| leg in s.store && s.store[leg].id == id;
      assert SlotOk(s, leg);
      if s.store[leg].accepted {
        AcceptedLivesOn(Life(s.log, id), Progressed(id));
      }
    }
  }

  predicate Displaced(s: State, id: ReferId) {
    id in s.known && id in s.displaced
  }

  lemma StepForgets(s: State, op: Op, id: ReferId)
    requires Inv(s) && Displaced(s, id)
    ensures Displaced(Apply(s, op), id) && Life(Apply(s, op).log, id) == Life(s.log, id)
  {
    var t := Apply(s, op);
    if t.log != s.log {
      LifeSnoc(s.log, t.log[|s.log|]);
    }
  }

  /** A displaced REFER is never answered: whatever happens afterwards, not even
      its own timer can reach it. */
  lemma {:induction false} DisplacedIsForgotten(ops: seq<Op>, later: seq<Op>, id: ReferId)
    requires Displaced(Exec(ops), id)
    ensures Displaced(Exec(ops + later), id)
    ensures Life(Exec(ops + later).log, id) == Life(Exec(ops).log, id)
    decreases |later|
  {
    if later == [] {
      assert ops + later == ops;
    } else {
      var n := |later| - 1;
      DisplacedIsForgotten(ops, later[..n], id);
      assert (ops + later)[..|ops + later| - 1] == ops + later[..n];
      ExecKeeps(ops + later[..n]);
      StepForgets(Exec(ops + later[..n]), later[n], id);
    }
  }

  /** So a REFER parked on a leg that already holds a pending one leaves the
      first without any decision for ever. */
  lemma SecondReferSilencesFirst(leg: LegId, first: ReferId, second: ReferId, later: seq<Op>)
    requires first != second
    ensures Life(Exec([Park(leg, first), Park(leg, second)] + later).log, first) == []
  {
    var ops := [Park(leg, first), Park(leg, second)];
    assert ops[..1] == [Park(leg, first)] && ops[..1][..0] == [];
    assert Exec(ops[..1]) == Apply(EMPTY, Park(leg, first));
    assert Exec(ops) == Apply(Exec(ops[..1]), Park(leg, second));
    DisplacedIsForgotten(ops, later, first);
  }

  // ---- Whose timer ----

  lemma Then(ops: seq<Op>, op: Op)
    ensures Exec(ops + [op]) == Apply(Exec(ops), op)
  {
    assert (ops + [op])[..|ops|] == ops;
  }

  /** A timer of another REFER that will look at the leg. */
  predicate ForeignTimer(s: State, leg: LegId, id: ReferId, timer: ReferId) {
    timer != id && timer in s.timers && s.timers[timer].leg == leg
  }

  /** The REFER has not been timed out by another's timer, and none can reach it. */
  ghost predicate OutOfReach(s: State, leg: LegId, id: ReferId) {
    && id in s.known
    && (forall l | l in s.store && s.store[l].id == id :: l == leg && forall timer :: !ForeignTimer(s, leg, id, timer))
    && (forall timer | timer != id :: TimedOut(id, timer) !in s.log)
  }

  lemma StaysOutOfReach(s: State, op: Op, leg: LegId, id: ReferId)
    requires OutOfReach(s, leg, id)
    ensures OutOfReach(Apply(s, op), leg, id)
  {
    var t := Apply(s, op);
    forall timer | timer != id
      ensures TimedOut(id, timer) !in t.log
    {
      assert !ForeignTimer(s, leg, id, timer) || leg !in s.store || s.store[leg].id != id;
    }
    forall l | l in t.store && t.store[l].id == id
      ensures l == leg && forall timer :: !ForeignTimer(t, leg, id, timer)
    {
      assert l in s.store && s.store[l].id == id;
      forall timer
        ensures !ForeignTimer(t, leg, id, timer)
      {
        assert !ForeignTimer(s, leg, id, timer);
      }
    }
  }

  lemma {:induction false} AlwaysOutOfReach(ops: seq<Op>, later: seq<Op>, leg: LegId, id: ReferId)
    requires OutOfReach(Exec(ops), leg, id)
    ensures OutOfReach(Exec(ops + later), leg, id)
    decreases |later|
  {
    if later == [] {
      assert ops + later == ops;
    } else {
      var before, last := later[..|later| - 1], later[|later| - 1];
      AlwaysOutOfReach(ops, before, leg, id);
      Then(ops + before, last);
      assert ops + before + [last] == ops + later;
      StaysOutOfReach(Exec(ops + before), last, leg, id);
    }
  }

  /** An undecided REFER has no events yet. */
  lemma PendingIsUndecided(s: State, leg: LegId)
    requires Inv(s) && Pending(s, leg)
    ensures s.store[leg].id in s.known
    ensures forall l | l in s.store && s.store[l].id == s.store[leg].id :: l == leg
    ensures forall e | e in s.log :: e.id != s.store[leg].id
  {
    assert SlotOk(s, leg);
    forall e | e in s.log
      ensures e.id != s.store[leg].id
    {
      LifeHolds(s.log, e);
    }
  }

  lemma {:induction false} LifeHolds(log: seq<Event>, e: Event)
    requires e in log
    ensures e in Life(log, e.id)
    decreases |log|
  {
    if e in log[..|log| - 1] {
      LifeHolds(log[..|log| - 1], e);
    }
  }

  lemma ForeignTimerRuns(ops: seq<Op>, leg: LegId, timer: ReferId) returns (later: seq<Op>)
    requires Pending(Exec(ops), leg) && ForeignTimer(Exec(ops), leg, Exec(ops).store[leg].id, timer)
    ensures TimedOut(Exec(ops).store[leg].id, timer) in Exec(ops + later).log
  {
    Then(ops, TimerFires(timer));
    Then(ops + [TimerFires(timer)], TimerRuns(timer));
    later := [TimerFires(timer)] + [TimerRuns(timer)];
    assert ops + [TimerFires(timer)] + [TimerRuns(timer)] == ops + later;
  }

  /** An undecided REFER can be declined by the timer of another exactly when some
      other REFER's timer for its leg has yet to run. */
  lemma TimedOutByAnotherExactly(ops: seq<Op>, leg: LegId)
    requires Pending(Exec(ops), leg)
    ensures var id := Exec(ops).store[leg].id;
            (exists later, timer :: timer != id && TimedOut(id, timer) in Exec(ops + later).log)
            <==> exists timer :: ForeignTimer(Exec(ops), leg, id, timer)
  {
    var s := Exec(ops);
    var id := s.store[leg].id;
    ExecKeeps(ops);
    PendingIsUndecided(s, leg);
    if timer :| ForeignTimer(s, leg, id, timer) {
      var later := ForeignTimerRuns(ops, leg, timer);
      assert timer != id && TimedOut(id, timer) in Exec(ops + later).log;
    } else {
      assert OutOfReach(s, leg, id);
      forall later, timer | timer != id
        ensures TimedOut(id, timer) !in Exec(ops + later).log
      {
        AlwaysOutOfReach(ops, later, leg, id);
      }
    }
  }

  /** A timer yet to run belongs to the REFER its leg holds undecided, or to one
      that was displaced, or it fired too late to be stopped. */
  predicate TimerOk(s: State, id: ReferId)
    requires id in s.timers
  {
    var timer := s.timers[id];
    && id in s.known
    && (timer.fired || id in s.displaced || (Pending(s, timer.leg) && s.store[timer.leg].id == id))
  }

  lemma TimerStep(s: State, op: Op)
    requires Inv(s) && forall id | id in s.timers :: TimerOk(s, id)
    ensures forall id | id in Apply(s, op).timers :: TimerOk(Apply(s, op), id)
  {
    var t := Apply(s, op);
    forall id | id in t.timers
      ensures TimerOk(t, id)
    {
      assert id in s.timers ==> TimerOk(s, id);
    }
  }

  lemma {:induction false} TimersHaveOwners(ops: seq<Op>)
    ensures forall id | id in Exec(ops).timers :: TimerOk(Exec(ops), id)
    decreases |ops|
  {
    if ops != [] {
      TimersHaveOwners(ops[..|ops| - 1]);
      ExecKeeps(ops[..|ops| - 1]);
      TimerStep(Exec(ops[..|ops| - 1]), ops[|ops| - 1]);
    }
  }

  /** So the timer of a displaced REFER can decline the one that displaced it, before
      that one's own window is over. */
  lemma FirstTimerDeclinesSecond(leg: LegId, first: ReferId, second: ReferId)
    requires first != second
    ensures var s := Exec([Park(leg, first)] + [Park(leg, second)] + [TimerFires(first)] + [TimerRuns(first)]);
            s.log == [TimedOut(second, first)] && s.store == map[]
  {
    var a := [Park(leg, first)];
    Then([], a[0]);
    assert [] + a == a;
    Then(a, Park(leg, second));
    var b := a + [Park(leg, second)];
    Then(b, TimerFires(first));
    Then(b + [TimerFires(first)], TimerRuns(first));
  }
}
