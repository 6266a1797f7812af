/** Speculative text-to-speech: an utterance is synthesized ahead of the
    decision to play it, and then committed, discarded, or left to expire
    (internal/api/tts_preflight.go).

    Every region under the registry's lock is one function of the fields it
    guards; the goroutines are program counters, and a schedule interleaves
    them with the application's requests and with legs ending. */
module TtsStaging {
  import opened Wrappers
  import opened ByteStreams

  type LegId = string
  type TtsId = string

  /** A two-level table keyed by leg and utterance: the registry, and the players. */
  type Table<V> = map<LegId, map<TtsId, V>>

  datatype Clip = Clip(audio: seq<Byte>, mimeType: string)

  datatype Stage = Synthesizing | Ready | Committed | Closed

  /** The fields of an entry that the registry's lock guards. */
  datatype Guarded = Guarded(stage: Stage, clip: Option<Clip>, failed: bool)

  const NEW_ENTRY := Guarded(Synthesizing, None, false)

  // ---- Synthesis ----

  /** What the provider does: refuse, or hand over a stream that may break. */
  datatype Provider = Refused | Streamed(bytes: seq<Byte>, mimeType: string, broken: bool)

  datatype Synthesis = Good(clip: Clip) | Bad(oversize: bool)

  /** Buffering at most maxBytes: one byte more is read to notice an excess. */
  function Collect(maxBytes: nat, provider: Provider): (r: Synthesis)
    ensures r.Good? <==> provider.Streamed? && !provider.broken && |provider.bytes| <= maxBytes
    ensures r.Good? ==> r.clip.audio == provider.bytes
  {
    match provider
    case Refused => Bad(false)
    case Streamed(bytes, mimeType, broken) =>
      var read := if |bytes| > maxBytes then bytes[..maxBytes + 1] else bytes;
      if broken && |bytes| <= maxBytes then Bad(false)
      else if |read| > maxBytes then Bad(true)
      else Good(Clip(read, mimeType))
  }

  // ---- The lock regions ----

  /** Synthesis settles: the new fields, and whether it was discarded or committed. */
  function SettleRegion(g: Guarded, result: Synthesis): (Guarded, bool, bool) {
    if g.stage == Closed then (g, true, false)
    else
      match result
      case Bad(_) => (g.(stage := Closed, failed := true), false, false)
      case Good(clip) =>
        var stage := if g.stage == Synthesizing then Ready else g.stage;
        (Guarded(stage, Some(clip), false), false, stage == Committed)
  }

  function DiscardRegion(g: Guarded): (Guarded, bool) {
    if g.stage == Committed || g.stage == Closed then (g, false)
    else (g.(stage := Closed, clip := None), true)
  }

  /** Whether the entry leaves the registry in the settle region. */
  predicate SettleUnregisters(g: Guarded, result: Synthesis) {
    g.stage != Closed && result.Bad?
  }

  function Lookup<V>(m: Table<V>, leg: LegId, id: TtsId): Option<V> {
    if leg in m && id in m[leg] then Some(m[leg][id]) else None
  }

  function Held<V>(m: Table<V>, leg: LegId): nat {
    if leg in m then |m[leg]| else 0
  }

  function Insert<V>(m: Table<V>, leg: LegId, id: TtsId, v: V): Table<V> {
    m[leg := (if leg in m then m[leg] else map[])[id := v]]
  }

  /** Removes one utterance, and the leg's table with its last one. */
  function Remove<V>(m: Table<V>, leg: LegId, id: TtsId): Table<V> {
    if leg !in m then m
    else
      var rest := m[leg] - {id};
      if |rest| == 0 then m - {leg} else m[leg := rest]
  }

  lemma InsertEffect<V>(m: Table<V>, leg: LegId, id: TtsId, v: V, leg': LegId, id': TtsId)
    ensures Lookup(Insert(m, leg, id, v), leg', id') ==
            if leg' == leg && id' == id then Some(v) else Lookup(m, leg', id')
  {
  }

  lemma RemoveEffect<V>(m: Table<V>, leg: LegId, id: TtsId, leg': LegId, id': TtsId)
    ensures Lookup(Remove(m, leg, id), leg', id') ==
            if leg' == leg && id' == id then None else Lookup(m, leg', id')
  {
    if leg in m {
      var rest := m[leg] - {id};
      if |rest| == 0 {
        assert forall x :: x !in rest;
      }
    }
  }

  /** No leg keeps an empty table, and none more than `max` utterances. */
  predicate Tidy<V>(m: Table<V>, max: nat) {
    forall leg | leg in m :: 0 < |m[leg]| <= max
  }

  lemma InsertTidy<V>(m: Table<V>, leg: LegId, id: TtsId, v: V, max: nat)
    requires Tidy(m, max) && Held(m, leg) < max
    ensures Tidy(Insert(m, leg, id, v), max)
  {
    var t := Insert(m, leg, id, v)[leg];
    var old_t := if leg in m then m[leg] else map[];
    assert t.Keys == old_t.Keys + {id};
    assert |t.Keys| <= |old_t.Keys| + 1;
  }

  lemma RemoveTidy<V>(m: Table<V>, leg: LegId, id: TtsId, max: nat)
    requires Tidy(m, max)
    ensures Tidy(Remove(m, leg, id), max)
  {
    if leg in m {
      var rest := m[leg] - {id};
      assert rest.Keys <= m[leg].Keys;
      SubsetSize(rest.Keys, m[leg].Keys);
      assert |rest| == |rest.Keys| && |m[leg]| == |m[leg].Keys|;
    }
  }

  lemma SubsetSize<T>(a: set<T>, b: set<T>)
    requires a <= b
    ensures |a| <= |b|
  {
    assert b == a + (b - a);
  }

  // ---- The objects ----

  class StagedTts {
    const ttsId: TtsId
    const legId: LegId
    var stage: Stage
    var clip: Option<Clip>
    var failed: bool

    function View(): Guarded
      reads this
    {
      Guarded(stage, clip, failed)
    }

    constructor (legId: LegId, ttsId: TtsId)
      ensures this.legId == legId && this.ttsId == ttsId && View() == NEW_ENTRY
    {
      this.legId, this.ttsId := legId, ttsId;
      stage, clip, failed := Synthesizing, None, false;
    }
  }

  datatype CommitReply = NotFound | AlreadyCommitted | Accepted(entry: StagedTts)

  class Registry {
    var m: Table<StagedTts>

    constructor ()
      ensures m == map[]
    {
      m := map[];
    }

    /** Registers a new entry unless the leg already holds its share. */
    method Register(entry: StagedTts, maxPerLeg: nat) returns (ok: bool)
      modifies this
      ensures ok == (Held(old(m), entry.legId) < maxPerLeg)
      ensures m == if ok then Insert(old(m), entry.legId, entry.ttsId, entry) else old(m)
    {
      if Held(m, entry.legId) >= maxPerLeg {
        return false;
      }
      if entry.legId !in m {
        m := m[entry.legId := map[]];
      }
      m := m[entry.legId := m[entry.legId][entry.ttsId := entry]];
      ok := true;
    }

    method Unregister(leg: LegId, id: TtsId)
      modifies this
      ensures m == Remove(old(m), leg, id)
    {
      if leg in m {
        var rest := m[leg] - {id};
        m := m[leg := rest];
        if |rest| == 0 {
          m := m - {leg};
        }
      }
    }

    /** synthesizeStaged's region. */
    method Settle(entry: StagedTts, result: Synthesis) returns (discarded: bool, committed: bool)
      modifies this, entry
      ensures (entry.View(), discarded, committed) == SettleRegion(old(entry.View()), result)
      ensures m == if SettleUnregisters(old(entry.View()), result)
                   then Remove(old(m), entry.legId, entry.ttsId) else old(m)
    {
      discarded := entry.stage == Closed;
      if !discarded {
        match result {
          case Bad(_) =>
            entry.failed := true;
            entry.stage := Closed;
            Unregister(entry.legId, entry.ttsId);
          case Good(clip) =>
            entry.failed := false;
            entry.clip := Some(clip);
            if entry.stage == Synthesizing {
              entry.stage := Ready;
            }
        }
      }
      committed := entry.stage == Committed;
    }

    /** discardStaged's region; says whether this call was the one that discarded. */
    method Discard(entry: StagedTts) returns (won: bool)
      modifies this, entry
      ensures (entry.View(), won) == DiscardRegion(old(entry.View()))
      ensures m == if won then Remove(old(m), entry.legId, entry.ttsId) else old(m)
    {
      if entry.stage == Committed || entry.stage == Closed {
        return false;
      }
      entry.stage := Closed;
      entry.clip := None;
      Unregister(entry.legId, entry.ttsId);
      won := true;
    }

    /** doCommitLegTTS's region. */
    method Commit(leg: LegId, id: TtsId) returns (reply: CommitReply)
      modifies this, if leg in m && id in m[leg] then {m[leg][id]} else {}
      ensures Lookup(old(m), leg, id).None? ==> reply == NotFound && m == old(m)
      ensures Lookup(old(m), leg, id).Some? ==>
                var entry := Lookup(old(m), leg, id).value;
                if old(entry.stage) == Committed then
                  reply == AlreadyCommitted && m == old(m) && unchanged(entry)
                else
                  && reply == Accepted(entry) && m == Remove(old(m), leg, id)
                  && entry.View() == old(entry.View()).(stage := Committed)
    {
      if !(leg in m && id in m[leg]) {
        return NotFound;
      }
      var entry := m[leg][id];
      if entry.stage == Committed {
        return AlreadyCommitted;
      }
      entry.stage := Committed;
      Unregister(leg, id);
      reply := Accepted(entry);
    }
  }

  // ---- One utterance and its goroutines ----

  datatype Reason = ByApp | Expired | LegGone

  /** What the application learns about the utterance in the end. */
  datatype Outcome = Discarded(reason: Reason) | SynthesisError | Played(clip: Clip)

  /** The request that stages the utterance, after registering it. */
  datatype Opener = SettingCancel | StartingSynthesis | StartingWatch | Opened

  datatype Synth =
    | NotStarted
    | Running
    | ClosingReady(discarded: bool, result: Synthesis, committed: bool)
    | FinishingFailure(committed: bool)
    | ReportingFailure(committed: bool)
    | Announcing
    | SynthExited

  datatype Watch = Unwatched | Selecting | Discarding(reason: Reason) | WatchExited

  /** Whoever won discardStaged, after its region. */
  datatype Discarder = Nobody | FinishingDiscard(reason: Reason) | PublishingDiscard(reason: Reason) | Gone(reason: Reason)

  /** The commit request and the goroutine it starts. */
  datatype Committer =
    | Uncommitted
    | FinishingCommit
    | RegisteringPlayer
    | AwaitingReady
    | Playing(clip: Option<Clip>)
    | Deregistering
    | CommitExited

  /** `announcements` are its tts.staged events: was it committed by then? */
  datatype Entry = Entry(
    leg: LegId,
    guarded: Guarded,
    readyClosed: nat,
    doneClosed: nat,
    opener: Opener,
    synth: Synth,
    watch: Watch,
    discarder: Discarder,
    committer: Committer,
    synthesized: Option<Synthesis>,
    outcomes: seq<Outcome>,
    announcements: seq<bool>)

  function Opening(leg: LegId): Entry {
    Entry(leg, NEW_ENTRY, 0, 0, SettingCancel, NotStarted, Unwatched, Nobody, Uncommitted, None, [], [])
  }

  /** finish closes the done channel through a sync.Once. */
  function Finish(e: Entry): Entry {
    e.(doneClosed := if e.doneClosed == 0 then 1 else e.doneClosed)
  }

  function Emit(e: Entry, o: Outcome): Entry {
    e.(outcomes := e.outcomes + [o])
  }

  datatype EntryAction =
    | OpenerStep
    | SynthesisReturns(result: Synthesis)
    | SynthStep
    | WatchSeesDone
    | WatchSeesLegGone
    | TimerFires
    | WatchStep
    | AppDiscards
    | DiscarderStep
    | CommitterStep

  predicate EntryEnabled(e: Entry, legGone: bool, a: EntryAction) {
    match a
    case OpenerStep => !e.opener.Opened?
    case SynthesisReturns(_) => e.synth.Running?
    case SynthStep => !e.synth.NotStarted? && !e.synth.Running? && !e.synth.SynthExited?
    case WatchSeesDone => e.watch.Selecting? && e.doneClosed > 0
    case WatchSeesLegGone => e.watch.Selecting? && legGone
    case TimerFires => e.watch.Selecting?
    case WatchStep => e.watch.Discarding?
    case AppDiscards => true
    case DiscarderStep => e.discarder.FinishingDiscard? || e.discarder.PublishingDiscard?
    case CommitterStep =>
      && !e.committer.Uncommitted? && !e.committer.CommitExited?
      && (e.committer.AwaitingReady? ==> e.readyClosed > 0)
  }

  /** What a step does to the two tables. */
  datatype Effect = NoEffect | Unregister | AddPlayer | DropPlayer

  function Attempt(e: Entry, reason: Reason): (Entry, Effect) {
    var (g, won) := DiscardRegion(e.guarded);
    if won then (e.(guarded := g, discarder := FinishingDiscard(reason)), Unregister) else (e, NoEffect)
  }

  function StepOpener(e: Entry): Entry {
    match e.opener
    case SettingCancel => e.(opener := StartingSynthesis)
    case StartingSynthesis => e.(opener := StartingWatch, synth := Running)
    case StartingWatch => e.(opener := Opened, watch := Selecting)
    case Opened => e
  }

  function StepSynth(e: Entry, legGone: bool): Entry {
    match e.synth
    case ClosingReady(discarded, result, committed) =>
      e.(readyClosed := e.readyClosed + 1,
         synth := if discarded then SynthExited
                  else if result.Bad? then FinishingFailure(committed)
                  else if committed then SynthExited
                  else Announcing)
    case FinishingFailure(committed) => Finish(e).(synth := ReportingFailure(committed))
    case ReportingFailure(committed) =>
      Emit(e.(synth := SynthExited), if !committed && legGone then Discarded(LegGone) else SynthesisError)
    case Announcing =>
      e.(synth := SynthExited, announcements := e.announcements + [!e.committer.Uncommitted?])
    case _ => e
  }

  function StepDiscarder(e: Entry): Entry {
    match e.discarder
    case FinishingDiscard(reason) => Finish(e).(discarder := PublishingDiscard(reason))
    case PublishingDiscard(reason) => Emit(e.(discarder := Gone(reason)), Discarded(reason))
    case _ => e
  }

  function StepCommitter(e: Entry): (Entry, Effect) {
    match e.committer
    case FinishingCommit => (Finish(e).(committer := RegisteringPlayer), NoEffect)
    case RegisteringPlayer => (e.(committer := AwaitingReady), AddPlayer)
    case AwaitingReady =>
      (e.(committer := if e.guarded.failed then Deregistering else Playing(e.guarded.clip)), NoEffect)
    case Playing(clip) =>
      (Emit(e.(committer := Deregistering), Played(if clip.Some? then clip.value else Clip([], ""))), NoEffect)
    case Deregistering => (e.(committer := CommitExited), DropPlayer)
    case _ => (e, NoEffect)
  }

  function EntryStep(e: Entry, legGone: bool, a: EntryAction): (Entry, Effect)
    requires EntryEnabled(e, legGone, a)
  {
    match a
    case OpenerStep => (StepOpener(e), NoEffect)
    case SynthesisReturns(result) =>
      var (g, discarded, committed) := SettleRegion(e.guarded, result);
      (e.(guarded := g, synth := ClosingReady(discarded, result, committed), synthesized := Some(result)),
       if SettleUnregisters(e.guarded, result) then Unregister else NoEffect)
    case SynthStep => (StepSynth(e, legGone), NoEffect)
    case WatchSeesDone => (e.(watch := WatchExited), NoEffect)
    case WatchSeesLegGone => (e.(watch := Discarding(LegGone)), NoEffect)
    case TimerFires => (e.(watch := Discarding(Expired)), NoEffect)
    case WatchStep => Attempt(e.(watch := WatchExited), e.watch.reason)
    case AppDiscards => Attempt(e, ByApp)
    case DiscarderStep => (StepDiscarder(e), NoEffect)
    case CommitterStep => StepCommitter(e)
  }

  /** doCommitLegTTS's region on an entry found in the registry. */
  function CommitEntry(e: Entry): Entry {
    e.(guarded := e.guarded.(stage := Committed), committer := FinishingCommit)
  }

  // ---- The whole server ----

  datatype Server = Server(
    maxPerLeg: nat,
    registry: Table<()>,
    players: Table<()>,
    legsGone: set<LegId>,
    entries: map<TtsId, Entry>)

  /** Requests, goroutine steps and legs ending. An utterance id is fresh when
      it is staged; a discard may hold on to an entry it looked up long ago. */
  datatype Action =
    | Preflight(leg: LegId, id: TtsId)
    | Commit(leg: LegId, id: TtsId)
    | On(id: TtsId, step: EntryAction)
    | LegEnds(leg: LegId)

  predicate Enabled(s: Server, a: Action) {
    match a
    case Preflight(_, id) => id !in s.entries
    case Commit(leg, id) => true
    case On(id, step) => id in s.entries && EntryEnabled(s.entries[id], s.entries[id].leg in s.legsGone, step)
    case LegEnds(_) => true
  }

  function ApplyEffect(s: Server, id: TtsId, e: Entry, effect: Effect): Server {
    var t := s.(entries := s.entries[id := e]);
    match effect
    case NoEffect => t
    case Unregister => t.(registry := Remove(t.registry, e.leg, id))
    case AddPlayer => t.(players := Insert(t.players, e.leg, id, ()))
    case DropPlayer => t.(players := Remove(t.players, e.leg, id))
  }

  function Step(s: Server, a: Action): Server
    requires Enabled(s, a)
  {
    match a
    case Preflight(leg, id) =>
      if Held(s.registry, leg) >= s.maxPerLeg then s
      else s.(registry := Insert(s.registry, leg, id, ()), entries := s.entries[id := Opening(leg)])
    case Commit(leg, id) =>
      if Lookup(s.registry, leg, id).None? || id !in s.entries || s.entries[id].guarded.stage == Committed then s
      else ApplyEffect(s, id, CommitEntry(s.entries[id]), Unregister)
    case On(id, step) =>
      var (e, effect) := EntryStep(s.entries[id], s.entries[id].leg in s.legsGone, step);
      ApplyEffect(s, id, e, effect)
    case LegEnds(leg) => s.(legsGone := s.legsGone + {leg})
  }

  function Start(maxPerLeg: nat): Server {
    Server(maxPerLeg, map[], map[], {}, map[])
  }

  /** Any schedule; a step that is not enabled is skipped. */
  function Exec(maxPerLeg: nat, schedule: seq<Action>): Server {
    if schedule == [] then Start(maxPerLeg)
    else
      var s := Exec(maxPerLeg, schedule[..|schedule| - 1]);
      var a := schedule[|schedule| - 1];
      if Enabled(s, a) then Step(s, a) else s
  }

  // ---- What every entry keeps ----

  /** The synthesis has passed its region. */
  predicate Settled(e: Entry) {
    !e.synth.NotStarted? && !e.synth.Running?
  }

  /** The discard was won, as opposed to a synthesis failure closing the entry. */
  predicate WasDiscarded(e: Entry) {
    e.guarded.stage == Closed && !e.guarded.failed
  }

  predicate OpenerFits(e: Entry) {
    match e.opener
    case SettingCancel => e.synth.NotStarted? && e.watch.Unwatched?
    case StartingSynthesis => e.synth.NotStarted? && e.watch.Unwatched?
    case StartingWatch => !e.synth.NotStarted? && e.watch.Unwatched?
    case Opened => !e.synth.NotStarted? && !e.watch.Unwatched?
  }

  predicate SynthFits(e: Entry) {
    && (Settled(e) <==> e.synthesized.Some?)
    && (e.guarded.failed ==> Settled(e) && e.synthesized.value.Bad? && e.guarded.stage == Closed)
    && e.readyClosed == (if !Settled(e) || e.synth.ClosingReady? then 0 else 1)
    && (match e.synth
        case ClosingReady(discarded, result, committed) =>
          && e.synthesized == Some(result)
          && (if discarded then WasDiscarded(e)
              else if result.Bad? then e.guarded.failed && !committed
              else committed ==> !e.committer.Uncommitted?)
        case FinishingFailure(committed) => e.guarded.failed && !committed
        case ReportingFailure(committed) => e.guarded.failed && e.doneClosed == 1 && !committed
        case Announcing => e.synthesized.value.Good? && !e.guarded.failed
        case _ => true)
  }

  /** The synthesis succeeded, and its clip is the one held by the entry. */
  predicate HoldsClip(e: Entry) {
    e.synthesized.Some? && e.synthesized.value.Good? && e.guarded.clip == Some(e.synthesized.value.clip)
  }

  predicate StageFits(e: Entry) {
    match e.guarded.stage
    case Synthesizing =>
      && !Settled(e) && e.committer.Uncommitted? && e.discarder.Nobody?
      && e.doneClosed == 0 && e.guarded.clip.None?
    case Ready =>
      && Settled(e) && HoldsClip(e)
      && e.committer.Uncommitted? && e.discarder.Nobody? && e.doneClosed == 0
    case Committed =>
      && !e.committer.Uncommitted? && e.discarder.Nobody?
      && (Settled(e) ==> HoldsClip(e))
    case Closed =>
      if e.guarded.failed then e.discarder.Nobody?
      else e.committer.Uncommitted? && !e.discarder.Nobody?
  }

  predicate DoneFits(e: Entry) {
    && e.doneClosed <= 1
    && (e.discarder.PublishingDiscard? || e.discarder.Gone? ==> e.doneClosed == 1)
    && (!e.committer.Uncommitted? && !e.committer.FinishingCommit? ==> e.doneClosed == 1)
    && (e.guarded.failed && e.synth.SynthExited? ==> e.doneClosed == 1)
    && (e.watch.WatchExited? ==> e.guarded.stage == Committed || e.guarded.stage == Closed)
  }

  predicate CommitFits(e: Entry) {
    match e.committer
    case Playing(clip) =>
      e.guarded.stage == Committed && e.readyClosed == 1 && clip == e.guarded.clip
    case Deregistering => e.readyClosed == 1
    case CommitExited => e.readyClosed == 1
    case _ => true
  }

  /** Exactly the outcomes published so far. */
  predicate OutcomesFit(e: Entry) {
    if e.guarded.failed then
      if e.synth.SynthExited? then e.outcomes == [SynthesisError] || e.outcomes == [Discarded(LegGone)]
      else e.outcomes == []
    else if e.guarded.stage == Closed then
      e.outcomes == if e.discarder.Gone? then [Discarded(e.discarder.reason)] else []
    else if e.committer.Deregistering? || e.committer.CommitExited? then
      e.synthesized.Some? && e.synthesized.value.Good? && e.outcomes == [Played(e.synthesized.value.clip)]
    else e.outcomes == []
  }

  /** "Leg gone" is said only of a leg that is gone. */
  predicate ReasonFits(e: Entry, legGone: bool) {
    && (e.watch.Discarding? && e.watch.reason == LegGone ==> legGone)
    && (!e.discarder.Nobody? && e.discarder.reason == LegGone ==> legGone)
    && (e.outcomes != [] && e.outcomes[0] == Discarded(LegGone) ==> legGone)
  }

  predicate EntryInv(e: Entry, registered: bool, hasPlayer: bool) {
    && OpenerFits(e) && SynthFits(e) && StageFits(e) && DoneFits(e) && CommitFits(e) && OutcomesFit(e)
    && (registered <==> e.guarded.stage == Synthesizing || e.guarded.stage == Ready)
    && (hasPlayer <==> e.committer.AwaitingReady? || e.committer.Playing? || e.committer.Deregistering?)
  }

  ghost predicate EntryStepGood(e: Entry, legGone: bool, a: EntryAction, registered: bool, hasPlayer: bool)
    requires EntryEnabled(e, legGone, a)
  {
    var (t, effect) := EntryStep(e, legGone, a);
    && t.leg == e.leg
    && EntryInv(t, registered && effect != Unregister,
                if effect == AddPlayer then true else hasPlayer && effect != DropPlayer)
  }

  lemma SettleKeeps(e: Entry, legGone: bool, result: Synthesis, registered: bool, hasPlayer: bool)
    requires EntryInv(e, registered, hasPlayer) && e.synth.Running?
    ensures EntryStepGood(e, legGone, SynthesisReturns(result), registered, hasPlayer)
  {
  }

  lemma SynthKeeps(e: Entry, legGone: bool, registered: bool, hasPlayer: bool)
    requires EntryInv(e, registered, hasPlayer) && EntryEnabled(e, legGone, SynthStep)
    ensures EntryStepGood(e, legGone, SynthStep, registered, hasPlayer)
  {
  }

  lemma AttemptKeeps(e: Entry, legGone: bool, a: EntryAction, registered: bool, hasPlayer: bool)
    requires EntryInv(e, registered, hasPlayer) && EntryEnabled(e, legGone, a)
    requires a.WatchStep? || a.AppDiscards?
    ensures EntryStepGood(e, legGone, a, registered, hasPlayer)
  {
  }

  lemma DiscarderKeeps(e: Entry, legGone: bool, registered: bool, hasPlayer: bool)
    requires EntryInv(e, registered, hasPlayer) && EntryEnabled(e, legGone, DiscarderStep)
    ensures EntryStepGood(e, legGone, DiscarderStep, registered, hasPlayer)
  {
  }

  lemma CommitterKeeps(e: Entry, legGone: bool, registered: bool, hasPlayer: bool)
    requires EntryInv(e, registered, hasPlayer) && EntryEnabled(e, legGone, CommitterStep)
    ensures EntryStepGood(e, legGone, CommitterStep, registered, hasPlayer)
  {
  }

  lemma OpenerKeeps(e: Entry, legGone: bool, registered: bool, hasPlayer: bool)
    requires EntryInv(e, registered, hasPlayer) && EntryEnabled(e, legGone, OpenerStep)
    ensures EntryStepGood(e, legGone, OpenerStep, registered, hasPlayer)
  {
  }

  lemma WatchKeeps(e: Entry, legGone: bool, a: EntryAction, registered: bool, hasPlayer: bool)
    requires EntryInv(e, registered, hasPlayer) && EntryEnabled(e, legGone, a)
    requires a.WatchSeesDone? || a.WatchSeesLegGone? || a.TimerFires?
    ensures EntryStepGood(e, legGone, a, registered, hasPlayer)
  {
  }

  lemma EntryStepKeeps(e: Entry, legGone: bool, a: EntryAction, registered: bool, hasPlayer: bool)
    requires EntryInv(e, registered, hasPlayer) && EntryEnabled(e, legGone, a)
    ensures EntryStepGood(e, legGone, a, registered, hasPlayer)
  {
    match a
    case SynthesisReturns(result) => SettleKeeps(e, legGone, result, registered, hasPlayer);
    case SynthStep => SynthKeeps(e, legGone, registered, hasPlayer);
    case CommitterStep => CommitterKeeps(e, legGone, registered, hasPlayer);
    case OpenerStep => OpenerKeeps(e, legGone, registered, hasPlayer);
    case AppDiscards => AttemptKeeps(e, legGone, a, registered, hasPlayer);
    case WatchStep => AttemptKeeps(e, legGone, a, registered, hasPlayer);
    case DiscarderStep => DiscarderKeeps(e, legGone, registered, hasPlayer);
    case _ => WatchKeeps(e, legGone, a, registered, hasPlayer);
  }

  lemma ReasonStep(e: Entry, legGone: bool, a: EntryAction)
    requires EntryEnabled(e, legGone, a) && ReasonFits(e, legGone)
    ensures ReasonFits(EntryStep(e, legGone, a).0, legGone)
  {
  }

  lemma CommitKeeps(e: Entry, registered: bool, hasPlayer: bool)
    requires EntryInv(e, registered, hasPlayer) && registered
    ensures EntryInv(CommitEntry(e), false, hasPlayer)
  {
  }

  // ---- What the server keeps ----

  ghost predicate ServerInv(s: Server) {
    && Tidy(s.registry, s.maxPerLeg)
    && Homed(s.registry, s.entries) && Homed(s.players, s.entries)
    && (forall id | id in s.entries :: EntryOk(s, id))
  }

  predicate EntryOk(s: Server, id: TtsId)
    requires id in s.entries
  {
    && EntryInv(s.entries[id], IsStaged(s, id), IsPlaying(s, id))
    && ReasonFits(s.entries[id], s.entries[id].leg in s.legsGone)
  }

  /** A table lists an utterance only under its own leg. */
  ghost predicate Homed(m: Table<()>, entries: map<TtsId, Entry>) {
    forall leg, id :: Lookup(m, leg, id).Some? ==> id in entries && entries[id].leg == leg
  }

  predicate IsStaged(s: Server, id: TtsId)
    requires id in s.entries
  {
    Lookup(s.registry, s.entries[id].leg, id).Some?
  }

  predicate IsPlaying(s: Server, id: TtsId)
    requires id in s.entries
  {
    Lookup(s.players, s.entries[id].leg, id).Some?
  }

  lemma HomedInsert(m: Table<()>, entries: map<TtsId, Entry>, id: TtsId, e: Entry)
    requires Homed(m, entries) && (id in entries ==> entries[id].leg == e.leg)
    ensures Homed(m, entries[id := e]) && Homed(Insert(m, e.leg, id, ()), entries[id := e])
  {
    forall leg', id' | Lookup(Insert(m, e.leg, id, ()), leg', id').Some?
      ensures id' in entries[id := e] && entries[id := e][id'].leg == leg'
    {
      InsertEffect(m, e.leg, id, (), leg', id');
    }
  }

  lemma HomedRemove(m: Table<()>, entries: map<TtsId, Entry>, id: TtsId, e: Entry)
    requires Homed(m, entries) && (id in entries ==> entries[id].leg == e.leg)
    ensures Homed(Remove(m, e.leg, id), entries[id := e])
  {
    forall leg', id' | Lookup(Remove(m, e.leg, id), leg', id').Some?
      ensures id' in entries[id := e] && entries[id := e][id'].leg == leg'
    {
      RemoveEffect(m, e.leg, id, leg', id');
    }
  }

  lemma ApplyToEntry(s: Server, id: TtsId, e: Entry, effect: Effect, other: TtsId)
    requires id in s.entries && e.leg == s.entries[id].leg && other in s.entries
    ensures var t := ApplyEffect(s, id, e, effect);
            && t.entries == s.entries[id := e]
            && IsStaged(t, other) == (IsStaged(s, other) && !(other == id && effect == Unregister))
            && IsPlaying(t, other) ==
                 if other == id && effect == AddPlayer then true
                 else IsPlaying(s, other) && !(other == id && effect == DropPlayer)
  {
    var leg := s.entries[other].leg;
    RemoveEffect(s.registry, e.leg, id, leg, other);
    InsertEffect(s.players, e.leg, id, (), leg, other);
    RemoveEffect(s.players, e.leg, id, leg, other);
  }

  lemma ApplyKeepsEntry(s: Server, id: TtsId, e: Entry, effect: Effect, other: TtsId)
    requires id in s.entries && e.leg == s.entries[id].leg && other in s.entries && EntryOk(s, other)
    requires ReasonFits(e, e.leg in s.legsGone)
    requires EntryInv(e, IsStaged(s, id) && effect != Unregister,
                      if effect == AddPlayer then true else IsPlaying(s, id) && effect != DropPlayer)
    ensures EntryOk(ApplyEffect(s, id, e, effect), other)
  {
    ApplyToEntry(s, id, e, effect, other);
    var t := ApplyEffect(s, id, e, effect);
    if other != id {
      assert t.entries[other] == s.entries[other];
    }
  }

  lemma ApplyKeeps(s: Server, id: TtsId, e: Entry, effect: Effect)
    requires ServerInv(s) && id in s.entries && e.leg == s.entries[id].leg && ReasonFits(e, e.leg in s.legsGone)
    requires EntryInv(e, IsStaged(s, id) && effect != Unregister,
                      if effect == AddPlayer then true else IsPlaying(s, id) && effect != DropPlayer)
    ensures ServerInv(ApplyEffect(s, id, e, effect))
  {
    var t := ApplyEffect(s, id, e, effect);
    assert Tidy(t.registry, t.maxPerLeg) by {
      RemoveTidy(s.registry, e.leg, id, s.maxPerLeg);
    }
    assert Homed(t.registry, t.entries) && Homed(t.players, t.entries) by {
      HomedInsert(s.registry, s.entries, id, e);
      HomedInsert(s.players, s.entries, id, e);
      HomedRemove(s.registry, s.entries, id, e);
      HomedRemove(s.players, s.entries, id, e);
    }
    forall other | other in t.entries
      ensures EntryOk(t, other)
    {
      ApplyKeepsEntry(s, id, e, effect, other);
    }
  }

  lemma PreflightKeeps(s: Server, leg: LegId, id: TtsId)
    requires ServerInv(s) && Enabled(s, Preflight(leg, id))
    ensures ServerInv(Step(s, Preflight(leg, id)))
  {
    var t := Step(s, Preflight(leg, id));
    if Held(s.registry, leg) < s.maxPerLeg {
      InsertTidy(s.registry, leg, id, (), s.maxPerLeg);
      HomedInsert(s.registry, s.entries, id, Opening(leg));
      HomedInsert(s.players, s.entries, id, Opening(leg));
      forall other | other in t.entries
        ensures EntryOk(t, other)
      {
        InsertEffect(s.registry, leg, id, (), t.entries[other].leg, other);
        if other == id {
          assert Lookup(s.players, leg, id).None?;
        }
      }
    }
  }

  lemma StepKeeps(s: Server, a: Action)
    requires ServerInv(s) && Enabled(s, a)
    ensures ServerInv(Step(s, a))
  {
    match a
    case Preflight(leg, id) => PreflightKeeps(s, leg, id);
    case Commit(leg, id) =>
      if Lookup(s.registry, leg, id).Some? && s.entries[id].guarded.stage != Committed {
        CommitKeeps(s.entries[id], true, IsPlaying(s, id));
        ApplyKeeps(s, id, CommitEntry(s.entries[id]), Unregister);
      }
    case On(id, step) =>
      var legGone := s.entries[id].leg in s.legsGone;
      EntryStepKeeps(s.entries[id], legGone, step, IsStaged(s, id), IsPlaying(s, id));
      ReasonStep(s.entries[id], legGone, step);
      var (e, effect) := EntryStep(s.entries[id], legGone, step);
      ApplyKeeps(s, id, e, effect);
    case LegEnds(_) =>
  }

  lemma {:induction false} ExecKeeps(maxPerLeg: nat, schedule: seq<Action>)
    ensures ServerInv(Exec(maxPerLeg, schedule)) && Exec(maxPerLeg, schedule).maxPerLeg == maxPerLeg
    decreases |schedule|
  {
    if schedule != [] {
      ExecKeeps(maxPerLeg, schedule[..|schedule| - 1]);
      var s := Exec(maxPerLeg, schedule[..|schedule| - 1]);
      var a := schedule[|schedule| - 1];
      if Enabled(s, a) {
        StepKeeps(s, a);
      }
    }
  }

  // ---- Main results ----

  /** The registry: an utterance is registered exactly while it is synthesizing
      or ready, no leg holds more than its share or an empty table, and no
      utterance is both staged and in the player table. */
  lemma RegistryInvariant(maxPerLeg: nat, schedule: seq<Action>)
    ensures var s := Exec(maxPerLeg, schedule);
            && (forall leg | leg in s.registry :: 0 < |s.registry[leg]| <= maxPerLeg)
            && (forall leg, id :: Lookup(s.registry, leg, id).Some? <==>
                  id in s.entries && s.entries[id].leg == leg
                  && (s.entries[id].guarded.stage == Synthesizing || s.entries[id].guarded.stage == Ready))
            && (forall leg, leg', id :: !(Lookup(s.registry, leg, id).Some? && Lookup(s.players, leg', id).Some?))
  {
    ExecKeeps(maxPerLeg, schedule);
  }

  /** A committed or closed utterance is never found again, so a commit that
      finds its entry never finds it committed, and after it neither a second
      commit nor a fresh discard lookup can. */
  lemma NotFoundAgain(maxPerLeg: nat, schedule: seq<Action>, later: seq<Action>, leg: LegId, id: TtsId)
    requires Decided(Exec(maxPerLeg, schedule), id)
    ensures Lookup(Exec(maxPerLeg, schedule + later).registry, leg, id).None?
  {
    StaysDecided(maxPerLeg, schedule, later, id);
    RegistryInvariant(maxPerLeg, schedule + later);
  }

  predicate Decided(s: Server, id: TtsId) {
    id in s.entries && (s.entries[id].guarded.stage == Committed || s.entries[id].guarded.stage == Closed)
  }

  lemma EntryStaysDecided(e: Entry, legGone: bool, a: EntryAction)
    requires EntryEnabled(e, legGone, a) && (e.guarded.stage == Committed || e.guarded.stage == Closed)
    ensures var t := EntryStep(e, legGone, a).0; t.guarded.stage == Committed || t.guarded.stage == Closed
  {
  }

  lemma StepStaysDecided(s: Server, a: Action, id: TtsId)
    requires Enabled(s, a) && Decided(s, id)
    ensures Decided(Step(s, a), id)
  {
    if a.On? {
      if a.id == id {
        EntryStaysDecided(s.entries[id], s.entries[id].leg in s.legsGone, a.step);
      }
      var (e, effect) := EntryStep(s.entries[a.id], s.entries[a.id].leg in s.legsGone, a.step);
      assert Step(s, a).entries == s.entries[a.id := e];
    }
  }

  lemma {:induction false} StaysDecided(maxPerLeg: nat, schedule: seq<Action>, later: seq<Action>, id: TtsId)
    requires Decided(Exec(maxPerLeg, schedule), id)
    ensures Decided(Exec(maxPerLeg, schedule + later), id)
    decreases |later|
  {
    if later == [] {
      assert schedule + later == schedule;
    } else {
      var n := |later| - 1;
      StaysDecided(maxPerLeg, schedule, later[..n], id);
      var all := schedule + later;
      assert all[..|all| - 1] == schedule + later[..n] && all[|all| - 1] == later[n];
      var s := Exec(maxPerLeg, schedule + later[..n]);
      if Enabled(s, later[n]) {
        StepStaysDecided(s, later[n], id);
      }
    }
  }

  /** Nobody works on the utterance any more. */
  predicate Quiet(e: Entry) {
    && e.opener.Opened? && e.synth.SynthExited? && e.watch.WatchExited?
    && (e.discarder.Nobody? || e.discarder.Gone?)
    && (e.committer.Uncommitted? || e.committer.CommitExited?)
  }

  /** Every utterance has at most one outcome, and one that has settled has
      exactly one: the playback of everything that was synthesized, exactly when
      it was committed and its synthesis succeeded; the winner's discard; or the
      failure of its synthesis, which a leg that is gone turns into a discard.
      Only that last discard can follow a commit.
      The ready channel was closed once and the done channel once. */
  lemma OneOutcome(maxPerLeg: nat, schedule: seq<Action>, id: TtsId)
    requires id in Exec(maxPerLeg, schedule).entries
    ensures var e := Exec(maxPerLeg, schedule).entries[id];
            && |e.outcomes| <= 1 && e.readyClosed <= 1 && e.doneClosed <= 1
            && (e.outcomes != [] && e.outcomes[0] == Discarded(LegGone) ==> e.leg in Exec(maxPerLeg, schedule).legsGone)
            && (Quiet(e) ==>
                  && |e.outcomes| == 1 && e.readyClosed == 1 && e.doneClosed == 1
                  && e.synthesized.Some?
                  && (match e.outcomes[0]
                      case Played(clip) => e.committer.CommitExited? && e.synthesized == Some(Good(clip))
                      case SynthesisError => e.synthesized.value.Bad? && e.discarder.Nobody?
                      case Discarded(reason) =>
                        || (e.discarder == Gone(reason) && e.committer.Uncommitted?)
                        || (reason == LegGone && e.synthesized.value.Bad?))
                  && (e.outcomes[0].Played? <==> !e.committer.Uncommitted? && e.synthesized.value.Good?))
  {
    ExecKeeps(maxPerLeg, schedule);
    var s := Exec(maxPerLeg, schedule);
    assert EntryOk(s, id);
  }

  // ---- When a committed utterance is reported discarded ----

  lemma ExecSnoc(maxPerLeg: nat, schedule: seq<Action>, a: Action)
    ensures var s := Exec(maxPerLeg, schedule);
            Exec(maxPerLeg, schedule + [a]) == if Enabled(s, a) then Step(s, a) else s
  {
    assert (schedule + [a])[..|schedule|] == schedule;
  }

  lemma EffectOnEntries(s: Server, id: TtsId, e: Entry, effect: Effect)
    ensures var t := ApplyEffect(s, id, e, effect);
            t.entries == s.entries[id := e] && t.legsGone == s.legsGone
  {
  }

  /** A step of one entry, seen on that entry alone. */
  lemma OnEntry(maxPerLeg: nat, schedule: seq<Action>, id: TtsId, step: EntryAction)
    requires var s := Exec(maxPerLeg, schedule);
             id in s.entries && EntryEnabled(s.entries[id], s.entries[id].leg in s.legsGone, step)
    ensures var s, t := Exec(maxPerLeg, schedule), Exec(maxPerLeg, schedule + [On(id, step)]);
            && t.legsGone == s.legsGone && id in t.entries
            && t.entries[id] == EntryStep(s.entries[id], s.entries[id].leg in s.legsGone, step).0
  {
    ExecSnoc(maxPerLeg, schedule, On(id, step));
    var s := Exec(maxPerLeg, schedule);
    var (e, effect) := EntryStep(s.entries[id], s.entries[id].leg in s.legsGone, step);
    EffectOnEntries(s, id, e, effect);
  }

  predicate ReportedDiscarded(s: Server, id: TtsId) {
    id in s.entries && s.entries[id].outcomes != [] && s.entries[id].outcomes[0].Discarded?
  }

  /** What the commit of a staged utterance does to its entry. */
  lemma CommitFound(maxPerLeg: nat, schedule: seq<Action>, leg: LegId, id: TtsId)
    requires Lookup(Exec(maxPerLeg, schedule).registry, leg, id).Some?
    ensures var s, t := Exec(maxPerLeg, schedule), Exec(maxPerLeg, schedule + [Commit(leg, id)]);
            && id in s.entries && s.entries[id].leg == leg
            && (s.entries[id].guarded.stage == Synthesizing || s.entries[id].guarded.stage == Ready)
            && id in t.entries && t.entries[id] == CommitEntry(s.entries[id])
  {
    RegistryInvariant(maxPerLeg, schedule);
    ExecSnoc(maxPerLeg, schedule, Commit(leg, id));
    var s := Exec(maxPerLeg, schedule);
    EffectOnEntries(s, id, CommitEntry(s.entries[id]), Unregister);
  }

  /** Committed, with the clip already there. */
  predicate ClipSecured(s: Server, id: TtsId) {
    && id in s.entries && s.entries[id].guarded.stage == Committed
    && Settled(s.entries[id]) && OpenerFits(s.entries[id])
  }

  lemma StepKeepsClip(s: Server, a: Action, id: TtsId)
    requires Enabled(s, a) && ClipSecured(s, id)
    ensures ClipSecured(Step(s, a), id)
  {
    if a.On? {
      var (e, effect) := EntryStep(s.entries[a.id], s.entries[a.id].leg in s.legsGone, a.step);
      EffectOnEntries(s, a.id, e, effect);
    }
  }

  lemma {:induction false} ClipStaysSecured(maxPerLeg: nat, schedule: seq<Action>, later: seq<Action>, id: TtsId)
    requires ClipSecured(Exec(maxPerLeg, schedule), id)
    ensures ClipSecured(Exec(maxPerLeg, schedule + later), id)
    decreases |later|
  {
    if later == [] {
      assert schedule + later == schedule;
    } else {
      var n := |later| - 1;
      ClipStaysSecured(maxPerLeg, schedule, later[..n], id);
      assert schedule + later == (schedule + later[..n]) + [later[n]];
      ExecSnoc(maxPerLeg, schedule + later[..n], later[n]);
      if Enabled(Exec(maxPerLeg, schedule + later[..n]), later[n]) {
        StepKeepsClip(Exec(maxPerLeg, schedule + later[..n]), later[n], id);
      }
    }
  }

  lemma SecuredIsNotDiscarded(maxPerLeg: nat, schedule: seq<Action>, id: TtsId)
    requires ClipSecured(Exec(maxPerLeg, schedule), id)
    ensures !ReportedDiscarded(Exec(maxPerLeg, schedule), id)
  {
    ExecKeeps(maxPerLeg, schedule);
    assert EntryOk(Exec(maxPerLeg, schedule), id);
  }

  /** The opener gets the synthesis of a committed utterance going. */
  lemma SynthesisStarts(maxPerLeg: nat, schedule: seq<Action>, id: TtsId) returns (later: seq<Action>)
    requires id in Exec(maxPerLeg, schedule).entries
    requires var e := Exec(maxPerLeg, schedule).entries[id];
             e.guarded.stage == Committed && !Settled(e) && OpenerFits(e)
    ensures var s := Exec(maxPerLeg, schedule + later);
            && id in s.entries && s.entries[id].leg == Exec(maxPerLeg, schedule).entries[id].leg
            && s.entries[id].guarded == Exec(maxPerLeg, schedule).entries[id].guarded
            && s.entries[id].outcomes == Exec(maxPerLeg, schedule).entries[id].outcomes
            && s.entries[id].synth.Running?
    decreases OpenerCost(Exec(maxPerLeg, schedule).entries[id].opener)
  {
    later := [];
    assert schedule + later == schedule;
    if Exec(maxPerLeg, schedule).entries[id].synth.NotStarted? {
      OnEntry(maxPerLeg, schedule, id, OpenerStep);
      var rest := SynthesisStarts(maxPerLeg, schedule + [On(id, OpenerStep)], id);
      later := [On(id, OpenerStep)] + rest;
      assert schedule + later == schedule + [On(id, OpenerStep)] + rest;
    }
  }

  /** A failing synthesis of a leg that is gone says "discarded", committed or not. */
  lemma FailureIsReported(maxPerLeg: nat, schedule: seq<Action>, id: TtsId) returns (later: seq<Action>)
    requires var s := Exec(maxPerLeg, schedule);
             && id in s.entries && s.entries[id].leg in s.legsGone
             && s.entries[id].synth.Running? && s.entries[id].guarded.stage == Committed && s.entries[id].outcomes == []
    ensures ReportedDiscarded(Exec(maxPerLeg, schedule + later), id)
  {
    var fails := On(id, SynthesisReturns(Bad(false)));
    var goesOn := On(id, SynthStep);
    OnEntry(maxPerLeg, schedule, id, fails.step);
    OnEntry(maxPerLeg, schedule + [fails], id, SynthStep);
    OnEntry(maxPerLeg, schedule + [fails] + [goesOn], id, SynthStep);
    OnEntry(maxPerLeg, schedule + [fails] + [goesOn] + [goesOn], id, SynthStep);
    later := [fails, goesOn, goesOn, goesOn];
    assert schedule + [fails] + [goesOn] + [goesOn] + [goesOn] == schedule + later;
  }

  /** A commit that finds its utterance still synthesizing. */
  lemma CommittedEarly(maxPerLeg: nat, schedule: seq<Action>, leg: LegId, id: TtsId)
    requires Lookup(Exec(maxPerLeg, schedule).registry, leg, id).Some?
    requires id in Exec(maxPerLeg, schedule).entries
    requires Exec(maxPerLeg, schedule).entries[id].guarded.stage == Synthesizing
    ensures var t := Exec(maxPerLeg, schedule + [Commit(leg, id)]);
            && id in t.entries && t.entries[id].leg == leg && t.entries[id].outcomes == []
            && t.entries[id].guarded.stage == Committed && !Settled(t.entries[id]) && OpenerFits(t.entries[id])
  {
    CommitFound(maxPerLeg, schedule, leg, id);
    var e := Exec(maxPerLeg, schedule).entries[id];
    assert OpenerFits(e) && StageFits(e) && OutcomesFit(e) && SynthFits(e) by {
      ExecKeeps(maxPerLeg, schedule);
      assert EntryOk(Exec(maxPerLeg, schedule), id);
    }
  }

  lemma EarlyCommitCanBeReported(maxPerLeg: nat, schedule: seq<Action>, leg: LegId, id: TtsId) returns (later: seq<Action>)
    requires Lookup(Exec(maxPerLeg, schedule).registry, leg, id).Some?
    requires id in Exec(maxPerLeg, schedule).entries
    requires Exec(maxPerLeg, schedule).entries[id].guarded.stage == Synthesizing
    ensures ReportedDiscarded(Exec(maxPerLeg, schedule + [Commit(leg, id)] + later), id)
  {
    CommittedEarly(maxPerLeg, schedule, leg, id);
    var committed := schedule + [Commit(leg, id)];
    var opening := SynthesisStarts(maxPerLeg, committed, id);
    var running := committed + opening;
    ExecSnoc(maxPerLeg, running, LegEnds(leg));
    var failing := FailureIsReported(maxPerLeg, running + [LegEnds(leg)], id);
    later := opening + [LegEnds(leg)] + failing;
    assert committed + later == running + [LegEnds(leg)] + failing;
  }

  /** A committed utterance can be reported as discarded although its commit was
      acknowledged: the failing synthesis overwrites the committed stage before it
      asks whether the utterance was committed. That can happen exactly when the
      commit came before tts.staged could be announced; and it is said of no leg
      that is still there. */
  lemma CommitReportedDiscardedExactly(maxPerLeg: nat, schedule: seq<Action>, leg: LegId, id: TtsId)
    requires Lookup(Exec(maxPerLeg, schedule).registry, leg, id).Some?
    ensures id in Exec(maxPerLeg, schedule).entries
    ensures (exists later :: ReportedDiscarded(Exec(maxPerLeg, schedule + [Commit(leg, id)] + later), id))
            <==> Exec(maxPerLeg, schedule).entries[id].guarded.stage == Synthesizing
    ensures forall later ::
              var t := Exec(maxPerLeg, schedule + [Commit(leg, id)] + later);
              ReportedDiscarded(t, id) ==> t.entries[id].outcomes == [Discarded(LegGone)] && leg in t.legsGone
  {
    CommitFound(maxPerLeg, schedule, leg, id);
    var committed := schedule + [Commit(leg, id)];
    if Exec(maxPerLeg, schedule).entries[id].guarded.stage == Synthesizing {
      var later := EarlyCommitCanBeReported(maxPerLeg, schedule, leg, id);
      assert ReportedDiscarded(Exec(maxPerLeg, committed + later), id);
    } else {
      ExecKeeps(maxPerLeg, schedule);
      assert EntryOk(Exec(maxPerLeg, schedule), id);
      forall later
        ensures !ReportedDiscarded(Exec(maxPerLeg, committed + later), id)
      {
        ClipStaysSecured(maxPerLeg, committed, later, id);
        SecuredIsNotDiscarded(maxPerLeg, committed + later, id);
      }
    }
    forall later | ReportedDiscarded(Exec(maxPerLeg, committed + later), id)
      ensures var t := Exec(maxPerLeg, committed + later);
              t.entries[id].outcomes == [Discarded(LegGone)] && leg in t.legsGone
    {
      CommittedStays(maxPerLeg, committed, later, id);
      ExecKeeps(maxPerLeg, committed + later);
      assert EntryOk(Exec(maxPerLeg, committed + later), id);
    }
  }

  lemma {:induction false} CommittedStays(maxPerLeg: nat, schedule: seq<Action>, later: seq<Action>, id: TtsId)
    requires id in Exec(maxPerLeg, schedule).entries && !Exec(maxPerLeg, schedule).entries[id].committer.Uncommitted?
    ensures var s, t := Exec(maxPerLeg, schedule), Exec(maxPerLeg, schedule + later);
            id in t.entries && t.entries[id].leg == s.entries[id].leg && !t.entries[id].committer.Uncommitted?
    decreases |later|
  {
    if later == [] {
      assert schedule + later == schedule;
    } else {
      var n := |later| - 1;
      CommittedStays(maxPerLeg, schedule, later[..n], id);
      assert schedule + later == (schedule + later[..n]) + [later[n]];
      ExecSnoc(maxPerLeg, schedule + later[..n], later[n]);
      StepKeepsCommitter(Exec(maxPerLeg, schedule + later[..n]), later[n], id);
    }
  }

  lemma StepKeepsCommitter(s: Server, a: Action, id: TtsId)
    requires id in s.entries && !s.entries[id].committer.Uncommitted?
    ensures Enabled(s, a) ==>
              var t := Step(s, a);
              id in t.entries && t.entries[id].leg == s.entries[id].leg && !t.entries[id].committer.Uncommitted?
  {
    if Enabled(s, a) && a.On? {
      var (e, effect) := EntryStep(s.entries[a.id], s.entries[a.id].leg in s.legsGone, a.step);
      EffectOnEntries(s, a.id, e, effect);
    }
  }

  /** So a commit sent at once, on any leg, can end that way. */
  lemma CommittedCanBeReportedDiscarded(leg: LegId, id: TtsId)
    ensures exists later :: ReportedDiscarded(Exec(1, [Preflight(leg, id)] + [Commit(leg, id)] + later), id)
  {
    ExecSnoc(1, [], Preflight(leg, id));
    assert [] + [Preflight(leg, id)] == [Preflight(leg, id)];
    CommitReportedDiscardedExactly(1, [Preflight(leg, id)], leg, id);
  }

  // ---- When "staged" is announced of a committed utterance ----

  /** The event comes after the commit. */
  predicate AnnouncedLate(s: Server, id: TtsId) {
    id in s.entries && true in s.entries[id].announcements
  }

  /** Committed, and its synthesis will not announce it any more. */
  predicate Mute(s: Server, id: TtsId) {
    id in s.entries && MuteEntry(s.entries[id])
  }

  predicate MuteEntry(e: Entry) {
    && !e.committer.Uncommitted? && true !in e.announcements && OpenerFits(e)
    && match e.synth
       case NotStarted => e.guarded.stage == Committed
       case Running => e.guarded.stage == Committed
       case ClosingReady(discarded, result, committed) => discarded || result.Bad? || committed
       case Announcing => false
       case _ => true
  }

  lemma EntryStaysMute(e: Entry, legGone: bool, a: EntryAction)
    requires MuteEntry(e) && EntryEnabled(e, legGone, a)
    ensures MuteEntry(EntryStep(e, legGone, a).0)
  {
  }

  lemma {:induction false} StaysMute(maxPerLeg: nat, schedule: seq<Action>, later: seq<Action>, id: TtsId)
    requires Mute(Exec(maxPerLeg, schedule), id)
    ensures Mute(Exec(maxPerLeg, schedule + later), id)
    decreases |later|
  {
    if later == [] {
      assert schedule + later == schedule;
    } else {
      var before, last := later[..|later| - 1], later[|later| - 1];
      StaysMute(maxPerLeg, schedule, before, id);
      assert schedule + later == (schedule + before) + [last];
      ExecSnoc(maxPerLeg, schedule + before, last);
      MuteStep(Exec(maxPerLeg, schedule + before), last, id);
    }
  }

  lemma MuteStep(s: Server, a: Action, id: TtsId)
    requires Mute(s, id)
    ensures Enabled(s, a) ==> Mute(Step(s, a), id)
  {
    if Enabled(s, a) {
      match a
      case On(other, step) =>
        var (e, effect) := EntryStep(s.entries[other], s.entries[other].leg in s.legsGone, step);
        EffectOnEntries(s, other, e, effect);
        if other == id {
          EntryStaysMute(s.entries[id], s.entries[id].leg in s.legsGone, step);
        }
      case Commit(leg, other) =>
        if Step(s, a) != s {
          EffectOnEntries(s, other, CommitEntry(s.entries[other]), Unregister);
        }
      case _ =>
    }
  }

  /** No late announcement before the commit. */
  predicate NotYetLate(s: Server) {
    forall id | id in s.entries && s.entries[id].committer.Uncommitted? :: true !in s.entries[id].announcements
  }

  lemma NotYetLateStep(s: Server, a: Action)
    requires NotYetLate(s) && Enabled(s, a)
    ensures NotYetLate(Step(s, a))
  {
    match a
    case On(id, step) =>
      var (e, effect) := EntryStep(s.entries[id], s.entries[id].leg in s.legsGone, step);
      EffectOnEntries(s, id, e, effect);
    case Commit(leg, id) =>
      if Step(s, a) != s {
        EffectOnEntries(s, id, CommitEntry(s.entries[id]), Unregister);
      }
    case _ =>
  }

  lemma {:induction false} NeverLateUncommitted(maxPerLeg: nat, schedule: seq<Action>)
    ensures NotYetLate(Exec(maxPerLeg, schedule))
    decreases |schedule|
  {
    if schedule != [] {
      var before := schedule[..|schedule| - 1];
      NeverLateUncommitted(maxPerLeg, before);
      if Enabled(Exec(maxPerLeg, before), schedule[|schedule| - 1]) {
        NotYetLateStep(Exec(maxPerLeg, before), schedule[|schedule| - 1]);
      }
    }
  }

  /** Between the region in which synthesis settles and its announcement. */
  predicate AboutToAnnounce(e: Entry) {
    e.guarded.stage == Ready && !e.synth.SynthExited?
  }

  lemma MuteCommit(maxPerLeg: nat, schedule: seq<Action>, leg: LegId, id: TtsId)
    requires Lookup(Exec(maxPerLeg, schedule).registry, leg, id).Some?
    requires id in Exec(maxPerLeg, schedule).entries && !AboutToAnnounce(Exec(maxPerLeg, schedule).entries[id])
    ensures Mute(Exec(maxPerLeg, schedule + [Commit(leg, id)]), id)
  {
    CommitFound(maxPerLeg, schedule, leg, id);
    NeverLateUncommitted(maxPerLeg, schedule);
    var e := Exec(maxPerLeg, schedule).entries[id];
    assert OpenerFits(e) && StageFits(e) by {
      ExecKeeps(maxPerLeg, schedule);
      assert EntryOk(Exec(maxPerLeg, schedule), id);
    }
  }

  /** A committed utterance whose synthesis has settled well and has yet to announce it. */
  predicate WillAnnounce(e: Entry) {
    && !e.committer.Uncommitted?
    && (e.synth.Announcing?
        || (e.synth.ClosingReady? && !e.synth.discarded && e.synth.result.Good? && !e.synth.committed))
  }

  lemma AnnouncingCommit(maxPerLeg: nat, schedule: seq<Action>, leg: LegId, id: TtsId)
    requires Lookup(Exec(maxPerLeg, schedule).registry, leg, id).Some?
    requires id in Exec(maxPerLeg, schedule).entries && AboutToAnnounce(Exec(maxPerLeg, schedule).entries[id])
    ensures var t := Exec(maxPerLeg, schedule + [Commit(leg, id)]);
            id in t.entries && WillAnnounce(t.entries[id])
  {
    CommitFound(maxPerLeg, schedule, leg, id);
    var e := Exec(maxPerLeg, schedule).entries[id];
    assert SynthFits(e) && StageFits(e) by {
      ExecKeeps(maxPerLeg, schedule);
      assert EntryOk(Exec(maxPerLeg, schedule), id);
    }
  }

  lemma LateAnnouncement(maxPerLeg: nat, schedule: seq<Action>, id: TtsId) returns (later: seq<Action>)
    requires id in Exec(maxPerLeg, schedule).entries && WillAnnounce(Exec(maxPerLeg, schedule).entries[id])
    ensures AnnouncedLate(Exec(maxPerLeg, schedule + later), id)
    decreases if Exec(maxPerLeg, schedule).entries[id].synth.Announcing? then 0 else 1
  {
    OnEntry(maxPerLeg, schedule, id, SynthStep);
    later := [On(id, SynthStep)];
    if !Exec(maxPerLeg, schedule).entries[id].synth.Announcing? {
      var rest := LateAnnouncement(maxPerLeg, schedule + later, id);
      assert schedule + (later + rest) == schedule + later + rest;
      later := later + rest;
    }
  }

  /** The promise not to announce "ready to commit" of a committed utterance can
      fail exactly when the commit falls between the region in which synthesis
      settles and the announcement. */
  lemma AnnouncedAfterCommitExactly(maxPerLeg: nat, schedule: seq<Action>, leg: LegId, id: TtsId)
    requires Lookup(Exec(maxPerLeg, schedule).registry, leg, id).Some?
    ensures id in Exec(maxPerLeg, schedule).entries
    ensures (exists later :: AnnouncedLate(Exec(maxPerLeg, schedule + [Commit(leg, id)] + later), id))
            <==> AboutToAnnounce(Exec(maxPerLeg, schedule).entries[id])
  {
    CommitFound(maxPerLeg, schedule, leg, id);
    var committed := schedule + [Commit(leg, id)];
    if AboutToAnnounce(Exec(maxPerLeg, schedule).entries[id]) {
      AnnouncingCommit(maxPerLeg, schedule, leg, id);
      var later := LateAnnouncement(maxPerLeg, committed, id);
      assert AnnouncedLate(Exec(maxPerLeg, committed + later), id);
    } else {
      MuteCommit(maxPerLeg, schedule, leg, id);
      forall later
        ensures !AnnouncedLate(Exec(maxPerLeg, committed + later), id)
      {
        StaysMute(maxPerLeg, committed, later, id);
      }
    }
  }

  // ---- Progress ----

  function OpenerCost(o: Opener): nat {
    match o case SettingCancel => 20 case StartingSynthesis => 19 case StartingWatch => 10 case Opened => 0
  }

  function SynthCost(y: Synth): nat {
    match y
    case NotStarted => 0
    case Running => 5
    case ClosingReady(_, _, _) => 4
    case FinishingFailure(_) => 2
    case ReportingFailure(_) => 1
    case Announcing => 1
    case SynthExited => 0
  }

  function WatchCost(w: Watch): nat {
    match w case Unwatched => 0 case Selecting => 6 case Discarding(_) => 5 case WatchExited => 0
  }

  function DiscarderCost(d: Discarder): nat {
    match d case FinishingDiscard(_) => 2 case PublishingDiscard(_) => 1 case _ => 0
  }

  function CommitterCost(c: Committer): nat {
    match c
    case FinishingCommit => 5
    case RegisteringPlayer => 4
    case AwaitingReady => 3
    case Playing(_) => 2
    case Deregistering => 1
    case _ => 0
  }

  /** The steps an entry may still cost: those of its goroutines, and while it
      is undecided those of the discard or commit that will decide it. */
  function Remaining(e: Entry): nat {
    (if e.guarded.stage == Committed || e.guarded.stage == Closed then 0 else 6)
    + OpenerCost(e.opener) + SynthCost(e.synth) + WatchCost(e.watch)
    + DiscarderCost(e.discarder) + CommitterCost(e.committer)
  }

  /** The steps of an entry's own goroutines; requests of the application are not among them. */
  predicate OwnStep(a: EntryAction) {
    !a.AppDiscards?
  }

  /** The next step of an entry's own goroutines. */
  function NextOwnStep(e: Entry, provider: Synthesis): EntryAction {
    if !e.opener.Opened? then OpenerStep
    else if e.synth.Running? then SynthesisReturns(provider)
    else if !e.synth.SynthExited? then SynthStep
    else if e.discarder.FinishingDiscard? || e.discarder.PublishingDiscard? then DiscarderStep
    else if e.watch.Selecting? then TimerFires
    else if e.watch.Discarding? then WatchStep
    else CommitterStep
  }

  lemma OwnStepEnabled(e: Entry, legGone: bool, registered: bool, hasPlayer: bool, provider: Synthesis)
    requires EntryInv(e, registered, hasPlayer) && !Quiet(e)
    ensures EntryEnabled(e, legGone, NextOwnStep(e, provider)) && OwnStep(NextOwnStep(e, provider))
  {
  }

  lemma StepSpends(e: Entry, legGone: bool, a: EntryAction)
    requires OpenerFits(e) && StageFits(e) && EntryEnabled(e, legGone, a)
    ensures Remaining(EntryStep(e, legGone, a).0) <= Remaining(e)
    ensures OwnStep(a) ==> Remaining(EntryStep(e, legGone, a).0) < Remaining(e)
  {
    if a.SynthesisReturns? || a.SynthStep? || a.OpenerStep? {
      SynthesisSpends(e, legGone, a);
    }
  }

  lemma SynthesisSpends(e: Entry, legGone: bool, a: EntryAction)
    requires OpenerFits(e) && StageFits(e) && EntryEnabled(e, legGone, a)
    requires a.SynthesisReturns? || a.SynthStep? || a.OpenerStep?
    ensures Remaining(EntryStep(e, legGone, a).0) < Remaining(e)
  {
  }

  lemma CommitSpends(e: Entry)
    requires StageFits(e) && (e.guarded.stage == Synthesizing || e.guarded.stage == Ready)
    ensures Remaining(CommitEntry(e)) <= Remaining(e)
  {
  }

  /** Every utterance settles: until it is quiet one of its own goroutines can
      step - the commit goroutine waits only for a synthesis that will close
      `ready`, the watcher at worst for its timer - and no schedule can make
      them step for ever, because each step spends from a bounded budget that
      no request of the application can raise. */
  lemma UtteranceSettles(maxPerLeg: nat, schedule: seq<Action>, id: TtsId, provider: Synthesis)
    requires id in Exec(maxPerLeg, schedule).entries
    ensures var s := Exec(maxPerLeg, schedule);
            var e := s.entries[id];
            var legGone := e.leg in s.legsGone;
            && (!Quiet(e) ==> exists a :: OwnStep(a) && EntryEnabled(e, legGone, a))
            && (forall a | EntryEnabled(e, legGone, a) ::
                  && Remaining(EntryStep(e, legGone, a).0) <= Remaining(e)
                  && (OwnStep(a) ==> Remaining(EntryStep(e, legGone, a).0) < Remaining(e)))
            && (IsStaged(s, id) ==> Remaining(CommitEntry(e)) <= Remaining(e))
  {
    ExecKeeps(maxPerLeg, schedule);
    var s := Exec(maxPerLeg, schedule);
    var e := s.entries[id];
    var legGone := e.leg in s.legsGone;
    if IsStaged(s, id) {
      CommitSpends(e);
    }
    if !Quiet(e) {
      OwnStepEnabled(e, legGone, IsStaged(s, id), IsPlaying(s, id), provider);
    }
    forall a | EntryEnabled(e, legGone, a)
      ensures Remaining(EntryStep(e, legGone, a).0) <= Remaining(e)
      ensures OwnStep(a) ==> Remaining(EntryStep(e, legGone, a).0) < Remaining(e)
    {
      StepSpends(e, legGone, a);
    }
  }
}
