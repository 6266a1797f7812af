/** The per-leg captures of a multi-channel room recording and their merge
    (internal/api/recording.go, multiChannelState). */
module MultiChannel {
  import opened Wrappers

  type Leg = string
  /** Captures are numbered in the order in which they began. */
  type Capture = nat
  /** The writers of room recording sessions, which share the captures' slots. */
  type Pump = nat

  /** The lock-protected fields, and the recorders that are paused; a capture
      stands for its recorder and its file. */
  datatype Core = Core(
    active: bool,
    recorders: map<Leg, Capture>,
    order: seq<Leg>,
    files: map<Leg, Capture>,
    joins: map<Leg, nat>,
    paused: bool,
    silenced: set<Capture>)

  const OPENED := Core(true, map[], [], map[], map[], false, {})

  /** One channel of the merge. */
  datatype Input = Input(leg: Leg, file: Capture, joinOffset: nat)

  // ---- The lock regions ----

  function Note(order: seq<Leg>, leg: Leg): seq<Leg> {
    if leg in order then order else order + [leg]
  }

  /** Whether startLeg gets past its guards. */
  predicate MayStart(c: Core, leg: Leg) {
    c.active && leg !in c.recorders
  }

  /** startLeg; `ok` says whether the recorder could open its file. */
  function StartLeg(c: Core, leg: Leg, ok: bool, capture: Capture, now: nat): Core {
    if !MayStart(c, leg) then c
    else if !ok then c.(order := Note(c.order, leg))
    else c.(recorders := c.recorders[leg := capture], order := Note(c.order, leg), joins := c.joins[leg := now],
            silenced := if c.paused then c.silenced + {capture} else c.silenced)
  }

  /** What a participant's one record tap feeds. */
  datatype Tap = Free | Capturing(capture: Capture) | Pumping(pump: Pump)

  /** Setting the record tap of a participant, if the mixer has it. */
  function PutTap(slots: map<Leg, Tap>, leg: Leg, tap: Tap): map<Leg, Tap> {
    if leg in slots then slots[leg := tap] else slots
  }

  /** The record taps after startLeg: set first, cleared again on failure. */
  function SlotsAfter(slots: map<Leg, Tap>, c: Core, leg: Leg, ok: bool, capture: Capture): map<Leg, Tap> {
    if !MayStart(c, leg) then slots else PutTap(slots, leg, if ok then Capturing(capture) else Free)
  }

  /** Pausing or resuming some recorders. */
  function Silence(c: Core, captures: set<Capture>, on: bool): Core {
    c.(silenced := if on then c.silenced + captures else c.silenced - captures)
  }

  /** The second lock region of stopLeg. */
  function EndStop(c: Core, leg: Leg, capture: Capture, finalized: bool): Core {
    if finalized then c.(files := c.files[leg := capture]) else c
  }

  function Inputs(order: seq<Leg>, files: map<Leg, Capture>, joins: map<Leg, nat>): seq<Input> {
    if order == [] then []
    else
      var leg := order[|order| - 1];
      Inputs(order[..|order| - 1], files, joins) +
      if leg in files then [Input(leg, files[leg], if leg in joins then joins[leg] else 0)] else []
  }

  function Omitted(order: seq<Leg>, files: map<Leg, Capture>): seq<Leg> {
    if order == [] then []
    else
      var leg := order[|order| - 1];
      Omitted(order[..|order| - 1], files) + if leg in files then [] else [leg]
  }

  /** The files once every running capture has been stopped, those in `good` finalized. */
  function FilesAfter(c: Core, good: set<Capture>): map<Leg, Capture> {
    c.files + map leg | leg in c.recorders && c.recorders[leg] in good :: c.recorders[leg]
  }

  /** What stopAll leaves behind. */
  function Stopped(c: Core, good: set<Capture>): Core {
    c.(active := false, recorders := map[], files := FilesAfter(c, good))
  }

  /** The participants of a mixer, each with one record tap. */
  class Mixer {
    var slots: map<Leg, Tap>

    /** A fresh instance, in place of one under the same id if there is one. */
    method AddParticipant(leg: Leg)
      modifies this
      ensures slots == old(slots)[leg := Free]
    {
      slots := slots[leg := Free];
    }

    method SetParticipantRecordTap(leg: Leg, tap: Tap)
      modifies this
      ensures slots == PutTap(old(slots), leg, tap)
    {
      if leg in slots {
        slots := slots[leg := tap];
      }
    }

    /** Clears the tap, whoever set it. */
    method ClearParticipantRecordTap(leg: Leg)
      modifies this
      ensures slots == PutTap(old(slots), leg, Free)
    {
      if leg in slots {
        slots := slots[leg := Free];
      }
    }
  }

  class MultiChannelState {
    var active: bool
    var paused: bool
    var recorders: map<Leg, Capture>
    var participantOrder: seq<Leg>
    var files: map<Leg, Capture>
    var joinOffsets: map<Leg, nat>
    var silenced: set<Capture>

    constructor ()
      ensures Contents() == OPENED
    {
      active, paused, silenced := true, false, {};
      recorders, participantOrder, files, joinOffsets := map[], [], map[], map[];
    }

    ghost function Contents(): Core
      reads this
    {
      Core(active, recorders, participantOrder, files, joinOffsets, paused, silenced)
    }

    method NoteParticipant(leg: Leg)
      modifies this
      ensures Contents() == old(Contents()).(order := Note(old(participantOrder), leg))
    {
      if leg !in participantOrder {
        participantOrder := participantOrder + [leg];
      }
    }

    /** startLeg; a recorder that starts while the room is paused starts paused. */
    method Start(leg: Leg, m: Mixer, ok: bool, capture: Capture, now: nat)
      modifies this, m
      ensures Contents() == StartLeg(old(Contents()), leg, ok, capture, now)
      ensures m.slots == SlotsAfter(old(m.slots), old(Contents()), leg, ok, capture)
    {
      if !active || leg in recorders {
        return;
      }
      m.SetParticipantRecordTap(leg, Capturing(capture));
      if !ok {
        m.ClearParticipantRecordTap(leg);
        NoteParticipant(leg);
        return;
      }
      if paused {
        silenced := silenced + {capture};
      }
      recorders := recorders[leg := capture];
      NoteParticipant(leg);
      joinOffsets := joinOffsets[leg := now];
    }

    /** The per-participant half of pausing or resuming the room. */
    method SetPaused(on: bool)
      modifies this
      ensures Contents() == Silence(old(Contents()), old(recorders).Values, on).(paused := on)
    {
      paused := on;
      var recs := recorders.Values;
      while recs != {}
        invariant recs <= recorders.Values
        invariant Contents() == Silence(old(Contents()), recorders.Values - recs, on).(paused := on)
        decreases recs
      {
        var rec :| rec in recs;
        silenced := if on then silenced + {rec} else silenced - {rec};
        recs := recs - {rec};
      }
    }

    method BeginStop(leg: Leg) returns (capture: Option<Capture>)
      modifies this
      ensures capture == if leg in old(recorders) then Some(old(recorders)[leg]) else None
      ensures Contents() == old(Contents()).(recorders := old(recorders) - {leg})
    {
      if leg !in recorders {
        return None;
      }
      capture := Some(recorders[leg]);
      recorders := recorders - {leg};
    }

    method FinishStop(leg: Leg, capture: Capture, finalized: bool)
      modifies this
      ensures Contents() == EndStop(old(Contents()), leg, capture, finalized)
    {
      if !finalized {
        return;
      }
      files := files[leg := capture];
    }

    /** stopLeg with nothing in between; `good` are the captures that finalize. */
    method StopLeg(leg: Leg, m: Mixer, good: set<Capture>)
      modifies this, m
      ensures leg !in old(recorders) ==> Contents() == old(Contents()) && m.slots == old(m.slots)
      ensures leg in old(recorders) ==>
                var capture := old(recorders)[leg];
                && m.slots == PutTap(old(m.slots), leg, Free)
                && Contents() == EndStop(old(Contents()).(recorders := old(recorders) - {leg}),
                                         leg, capture, capture in good)
    {
      var capture := BeginStop(leg);
      if capture.None? {
        return;
      }
      m.ClearParticipantRecordTap(leg);
      FinishStop(leg, capture.value, capture.value in good);
    }

    /** stopAll: every running capture is stopped, in whatever order the map yields. */
    method StopAll(m: Mixer, good: set<Capture>) returns (inputs: seq<Input>, omitted: seq<Leg>)
      modifies this, m
      ensures Contents() == Stopped(old(Contents()), good)
      ensures inputs == Inputs(participantOrder, files, joinOffsets)
      ensures omitted == Omitted(participantOrder, files)
    {
      active := false;
      ghost var before := old(Contents());
      var legs := recorders.Keys;
      while legs != {}
        invariant legs == recorders.Keys && recorders.Keys <= before.recorders.Keys
        invariant forall leg | leg in recorders :: recorders[leg] == before.recorders[leg]
        invariant Contents() == before.(active := false, recorders := recorders, files := files)
        invariant forall leg :: leg in files <==>
                                leg in before.files
                                || (leg in before.recorders && leg !in recorders && before.recorders[leg] in good)
        invariant forall leg | leg in files ::
                    files[leg] == if leg in before.recorders && leg !in recorders && before.recorders[leg] in good
                                  then before.recorders[leg] else before.files[leg]
        decreases legs
      {
        var leg :| leg in legs;
        StopLeg(leg, m, good);
        legs := legs - {leg};
      }
      assert files == FilesAfter(before, good);
      inputs, omitted := Collect();
    }

    method Collect() returns (inputs: seq<Input>, omitted: seq<Leg>)
      ensures inputs == Inputs(participantOrder, files, joinOffsets)
      ensures omitted == Omitted(participantOrder, files)
    {
      inputs, omitted := [], [];
      for i := 0 to |participantOrder|
        invariant inputs == Inputs(participantOrder[..i], files, joinOffsets)
        invariant omitted == Omitted(participantOrder[..i], files)
      {
        assert participantOrder[..i + 1][..i] == participantOrder[..i];
        var leg := participantOrder[i];
        if leg !in files {
          omitted := omitted + [leg];
          continue;
        }
        inputs := inputs + [Input(leg, files[leg], if leg in joinOffsets then joinOffsets[leg] else 0)];
      }
      assert participantOrder[..|participantOrder|] == participantOrder;
    }
  }
}
