/** The bounded pipe that carries recorded audio off the media clock: it drops a
    frame rather than block the writer (internal/api/recording.go, pipeReader
    and pipeWriter).

    Write, Close and TryRead are not atomic; each action below is one of their
    atomic steps. */
module LossyPipe {
  import opened Wrappers
  import opened ByteStreams

  const CAPACITY: nat := 100

  type Bytes = seq<Byte>

  /** Where the writer is inside Write. */
  datatype WriterAt = Outside | Counting(data: Bytes) | Selecting(data: Bytes)

  datatype Pipe = Pipe(
    queue: seq<Bytes>,
    done: bool,
    rest: Bytes,
    closed: bool,
    signalling: bool,
    offered: nat,
    dropped: nat,
    writer: WriterAt,
    probing: bool)

  const FRESH := Pipe([], false, [], false, false, 0, 0, Outside, false)

  /** The branch a select takes; with several ready, any of them. */
  datatype Pick = Send | SeeDone | Drop

  predicate Ready(p: Pipe, pick: Pick) {
    match pick
    case Send => |p.queue| < CAPACITY
    case SeeDone => p.done
    case Drop => |p.queue| >= CAPACITY && !p.done
  }

  datatype Action =
    | WriteBegins(frame: Bytes)
    | WriterCounts
    | WriterSelects(pick: Pick)
    | CloseSwaps
    | CloseSignals
    | ReadTakes(n: nat)
    | ReadEnds
    | Probe(n: nat)
    | ProbeEnds

  predicate HasData(p: Pipe) {
    p.rest != [] || p.queue != []
  }

  predicate Enabled(p: Pipe, a: Action) {
    match a
    case WriteBegins(_) => p.writer.Outside?
    case WriterCounts => p.writer.Counting?
    case WriterSelects(pick) => p.writer.Selecting? && Ready(p, pick)
    case CloseSwaps => true
    case CloseSignals => p.signalling
    case ReadTakes(_) => !p.probing && HasData(p)
    case ReadEnds => !p.probing && p.rest == [] && p.done
    case Probe(_) => !p.probing
    case ProbeEnds => p.probing
  }

  /** What came of the frames and bytes, beyond what the pipe itself remembers. */
  datatype History = History(accepted: seq<Bytes>, delivered: Bytes, abandoned: nat, ended: bool)

  const NOTHING := History([], [], 0, false)

  /** The bytes a read into `n` bytes gets: the remainder first, else one frame. */
  function Take(p: Pipe, n: nat): (Pipe, Bytes)
    requires HasData(p)
  {
    var (source, queue) := if p.rest != [] then (p.rest, p.queue) else (p.queue[0], p.queue[1..]);
    var k := if n < |source| then n else |source|;
    (p.(queue := queue, rest := source[k..]), source[..k])
  }

  function Step(p: Pipe, h: History, a: Action): (Pipe, History)
    requires Enabled(p, a)
  {
    match a
    case WriteBegins(frame) => (if p.closed then p else p.(writer := Counting(frame)), h)
    case WriterCounts => (p.(offered := p.offered + 1, writer := Selecting(p.writer.data)), h)
    case WriterSelects(Send) =>
      (p.(queue := p.queue + [p.writer.data], writer := Outside), h.(accepted := h.accepted + [p.writer.data]))
    case WriterSelects(SeeDone) => (p.(writer := Outside), h.(abandoned := h.abandoned + 1))
    case WriterSelects(Drop) => (p.(dropped := p.dropped + 1, writer := Outside), h)
    case CloseSwaps => (if p.closed then p else p.(closed := true, signalling := true), h)
    case CloseSignals => (p.(done := true, signalling := false), h)
    case ReadTakes(n) =>
      var (q, bytes) := Take(p, n);
      (q, h.(delivered := h.delivered + bytes))
    case ReadEnds => (p, h.(ended := true))
    case Probe(n) =>
      if HasData(p) then
        var (q, bytes) := Take(p, n);
        (q, h.(delivered := h.delivered + bytes))
      else (p.(probing := true), h)
    case ProbeEnds => (p.(probing := false), h.(ended := h.ended || p.done))
  }

  function Exec(schedule: seq<Action>): (Pipe, History) {
    if schedule == [] then (FRESH, NOTHING)
    else
      var (p, h) := Exec(schedule[..|schedule| - 1]);
      var a := schedule[|schedule| - 1];
      if Enabled(p, a) then Step(p, h, a) else (p, h)
  }

  // ---- The objects ----

  class Channel {
    var queue: seq<Bytes>
    var done: bool

    constructor ()
      ensures queue == [] && !done
    {
      queue, done := [], false;
    }
  }

  /** A Write without anything in between. */
  function WholeWrite(p: Pipe, frame: Bytes, pick: Pick): Pipe
    requires p.writer.Outside? && (!p.closed ==> Ready(p, pick))
  {
    var (begun, h) := Step(p, NOTHING, WriteBegins(frame));
    if begun.writer.Outside? then begun
    else
      var (counted, g) := Step(begun, h, WriterCounts);
      Step(counted, g, WriterSelects(pick)).0
  }

  class PipeWriter {
    const ch: Channel
    var closed: bool
    var offered: nat
    var dropped: nat

    ghost function View(): Pipe
      reads this, ch
    {
      FRESH.(queue := ch.queue, done := ch.done, closed := closed, offered := offered, dropped := dropped)
    }

    constructor (ch: Channel)
      ensures this.ch == ch && !closed && offered == 0 && dropped == 0
    {
      this.ch, closed, offered, dropped := ch, false, 0, 0;
    }

    /** Write, with the branch the runtime picks at its select. */
    method Write(p: Bytes, pick: Pick) returns (n: nat)
      requires !closed ==> Ready(View(), pick)
      modifies `offered, `dropped, ch`queue
      ensures n == |p| && View() == WholeWrite(old(View()), p, pick)
    {
      if closed {
        return |p|;
      }
      offered := offered + 1;
      match pick {
        case Send => ch.queue := ch.queue + [p];
        case SeeDone =>
        case Drop => dropped := dropped + 1;
      }
      n := |p|;
    }

    /** The compare-and-swap of Close, then its signal. */
    method Close()
      modifies `closed, ch`done
      ensures closed && ch.done == (old(ch.done) || !old(closed))
    {
      if !closed {
        closed := true;
        ch.done := true;
      }
    }
  }

  class PipeReader {
    const ch: Channel
    var buf: Bytes

    ghost function View(): Pipe
      reads this, ch
    {
      FRESH.(queue := ch.queue, done := ch.done, rest := buf)
    }

    constructor (ch: Channel)
      ensures this.ch == ch && buf == []
    {
      this.ch, buf := ch, [];
    }

    /** The delivering branches shared by Read and TryRead. */
    method Receive(n: nat) returns (bytes: Option<Bytes>)
      modifies `buf, ch`queue
      ensures var before := old(View());
              if HasData(before) then View() == Take(before, n).0 && bytes == Some(Take(before, n).1)
              else View() == before && bytes == None
    {
      if |buf| > 0 {
        var k := if n < |buf| then n else |buf|;
        bytes := Some(buf[..k]);
        buf := buf[k..];
        return;
      }
      if |ch.queue| > 0 {
        var data := ch.queue[0];
        ch.queue := ch.queue[1..];
        var k := if n < |data| then n else |data|;
        buf := data[k..];
        return Some(data[..k]);
      }
      bytes := None;
    }

    /** Read; `seesDone` is the branch the runtime picks when both are ready, and
        with neither result it is still waiting. */
    method Read(n: nat, seesDone: bool) returns (bytes: Option<Bytes>, ended: bool)
      modifies `buf, ch`queue
      ensures ended ==> Enabled(old(View()), ReadEnds) && View() == old(View()) && bytes.None?
      ensures bytes.Some? ==>
                && Enabled(old(View()), ReadTakes(n))
                && (View(), bytes.value) == Take(old(View()), n)
      ensures bytes.None? && !ended <==> !Enabled(old(View()), ReadEnds) && !Enabled(old(View()), ReadTakes(n))
      ensures ended && Enabled(old(View()), ReadTakes(n)) ==> seesDone
    {
      ended := |buf| == 0 && ch.done && (|ch.queue| == 0 || seesDone);
      if ended {
        return None, true;
      }
      bytes := Receive(n);
    }

    /** TryRead with nothing in between its two looks. */
    method TryRead(n: nat) returns (bytes: Option<Bytes>, ended: bool)
      modifies `buf, ch`queue
      ensures var (p, h) := Step(old(View()), NOTHING, Probe(n));
              if p.probing then bytes.None? && ended == Step(p, h, ProbeEnds).1.ended && View() == old(View())
              else bytes == Some(h.delivered) && !ended && View() == p
    {
      bytes := Receive(n);
      ended := bytes.None? && ch.done;
      assert bytes.Some? ==> NOTHING.delivered + bytes.value == bytes.value;
    }
  }

  // ---- Every interleaving ----

  predicate Inv(p: Pipe, h: History) {
    && h.delivered + p.rest + Concat(p.queue) == Concat(h.accepted)
    && |p.queue| <= CAPACITY
    && p.offered == |h.accepted| + p.dropped + h.abandoned + (if p.writer.Selecting? then 1 else 0)
    && (p.done ==> p.closed)
    && (h.abandoned > 0 ==> p.done)
    && (h.ended ==> p.done)
  }

  /** The compare-and-swap elects one closer, who has signalled or is about to. */
  predicate Closing(p: Pipe) {
    p.closed <==> p.done || p.signalling
  }

  lemma TakeKeeps(p: Pipe, n: nat)
    requires HasData(p)
    ensures var (q, bytes) := Take(p, n);
            bytes + q.rest + Concat(q.queue) == p.rest + Concat(p.queue) && |q.queue| <= |p.queue|
  {
    var (q, bytes) := Take(p, n);
    if p.rest != [] {
      assert bytes + q.rest == p.rest;
    } else {
      assert bytes + q.rest == p.queue[0];
      assert p.rest + Concat(p.queue) == Concat(p.queue);
    }
  }

  lemma DeliveryKeeps(p: Pipe, h: History, n: nat)
    requires Inv(p, h) && HasData(p)
    ensures var (q, bytes) := Take(p, n); Inv(q, h.(delivered := h.delivered + bytes))
  {
    TakeKeeps(p, n);
    var (q, bytes) := Take(p, n);
    assert (h.delivered + bytes) + q.rest + Concat(q.queue) == h.delivered + (bytes + q.rest + Concat(q.queue));
    assert h.delivered + p.rest + Concat(p.queue) == h.delivered + (p.rest + Concat(p.queue));
  }

  lemma SendKeeps(p: Pipe, h: History)
    requires Inv(p, h) && Enabled(p, WriterSelects(Send))
    ensures var (q, g) := Step(p, h, WriterSelects(Send)); Inv(q, g)
  {
    ConcatSnoc(p.queue, p.writer.data);
    ConcatSnoc(h.accepted, p.writer.data);
    assert h.delivered + p.rest + (Concat(p.queue) + p.writer.data) ==
           (h.delivered + p.rest + Concat(p.queue)) + p.writer.data;
  }

  lemma StepKeeps(p: Pipe, h: History, a: Action)
    requires Inv(p, h) && Closing(p) && Enabled(p, a)
    ensures var (q, g) := Step(p, h, a); Inv(q, g) && Closing(q)
  {
    match a
    case WriterSelects(Send) => SendKeeps(p, h);
    case ReadTakes(n) => DeliveryKeeps(p, h, n);
    case Probe(n) =>
      if HasData(p) {
        DeliveryKeeps(p, h, n);
      }
    case _ =>
  }

  lemma {:induction false} ExecKeeps(schedule: seq<Action>)
    ensures var (p, h) := Exec(schedule); Inv(p, h) && Closing(p)
    decreases |schedule|
  {
    if schedule != [] {
      ExecKeeps(schedule[..|schedule| - 1]);
      var (p, h) := Exec(schedule[..|schedule| - 1]);
      var a := schedule[|schedule| - 1];
      if Enabled(p, a) {
        StepKeeps(p, h, a);
      }
    } else {
      assert NOTHING.delivered + FRESH.rest + Concat(FRESH.queue) == [];
    }
  }

  /** In every interleaving the bytes read are a prefix of the accepted frames,
      whatever the sizes of the reads; at most CAPACITY accepted frames wait
      unread; and every frame offered was accepted, dropped, abandoned at close,
      or is the one being offered. */
  lemma PipeAccounts(schedule: seq<Action>)
    ensures var (p, h) := Exec(schedule);
            && h.delivered <= Concat(h.accepted)
            && |p.queue| <= CAPACITY
            && p.offered == |h.accepted| + p.dropped + h.abandoned + (if p.writer.Selecting? then 1 else 0)
            && (h.ended || h.abandoned > 0 ==> p.closed)
  {
    ExecKeeps(schedule);
    var (p, h) := Exec(schedule);
    assert h.delivered + p.rest + Concat(p.queue) == h.delivered + (p.rest + Concat(p.queue));
  }

  /** Closed, without data, and the writer outside Write. */
  predicate Sealed(p: Pipe) {
    p.closed && !HasData(p) && p.writer.Outside?
  }

  /** Once sealed, a pipe stays sealed, and everything accepted was delivered. */
  lemma {:induction false} SealedForGood(schedule: seq<Action>, later: seq<Action>)
    requires Sealed(Exec(schedule).0)
    ensures var (p, h) := Exec(schedule + later);
            Sealed(p) && h.delivered == Concat(h.accepted)
    decreases |later|
  {
    if later == [] {
      assert schedule + later == schedule;
      ExecKeeps(schedule);
      var (p, h) := Exec(schedule);
      assert h.delivered + [] + [] == h.delivered;
    } else {
      var n := |later| - 1;
      SealedForGood(schedule, later[..n]);
      assert schedule + later == (schedule + later[..n]) + [later[n]];
      ExecSnoc(schedule + later[..n], later[n]);
    }
  }

  lemma ExecSnoc(schedule: seq<Action>, a: Action)
    ensures var (p, h) := Exec(schedule);
            Exec(schedule + [a]) == if Enabled(p, a) then Step(p, h, a) else (p, h)
  {
    assert (schedule + [a])[..|schedule|] == schedule;
  }

  /** The writer has passed its closed check, Close has run, and TryRead has
      just found the queue empty. */
  lemma ProbeOvertakesWrite(frame: Bytes) returns (schedule: seq<Action>)
    ensures Exec(schedule) == (FRESH.(done := true, closed := true, writer := Counting(frame), probing := true), NOTHING)
    ensures ReadEnds !in schedule
  {
    ExecSnoc([], WriteBegins(frame));
    schedule := [] + [WriteBegins(frame)];
    ExecSnoc(schedule, CloseSwaps);
    schedule := schedule + [CloseSwaps];
    ExecSnoc(schedule, CloseSignals);
    schedule := schedule + [CloseSignals];
    ExecSnoc(schedule, Probe(1));
    schedule := schedule + [Probe(1)];
  }

  /** TryRead's promise to report the end only with nothing queued fails: a
      writer that passed its closed check before Close can still queue a frame
      between TryRead's look at the queue and its look at `done`. */
  lemma TryReadCanEndEarly(frame: Bytes)
    ensures exists schedule ::
              var (p, h) := Exec(schedule);
              h.ended && p.queue == [frame] && h.delivered == [] && ReadEnds !in schedule
  {
    var s0 := ProbeOvertakesWrite(frame);
    ExecSnoc(s0, WriterCounts);
    var s1 := s0 + [WriterCounts];
    ExecSnoc(s1, WriterSelects(Send));
    var s2 := s1 + [WriterSelects(Send)];
    ExecSnoc(s2, ProbeEnds);
    var s3 := s2 + [ProbeEnds];
    assert Exec(s3).0.queue == [frame];
  }

  /** TryRead is between its two looks, and all that is queued came since the first. */
  predicate Between(p: Pipe, h: History, before: History) {
    && p.probing && p.rest == [] && h.delivered == before.delivered
    && h.accepted == before.accepted + p.queue
  }

  lemma StaysBetween(p: Pipe, h: History, before: History, a: Action)
    requires Between(p, h, before) && Enabled(p, a) && a != ProbeEnds
    ensures var (q, g) := Step(p, h, a); Between(q, g, before)
  {
    if a == WriterSelects(Send) {
      assert before.accepted + (p.queue + [p.writer.data]) == (before.accepted + p.queue) + [p.writer.data];
    }
  }

  /** What a TryRead that finds nothing can miss is exactly what is accepted
      between its two looks: it reports the end with nothing queued if and only
      if no frame was accepted meanwhile. */
  lemma {:induction false} TryReadMisses(schedule: seq<Action>, n: nat, during: seq<Action>)
    requires !HasData(Exec(schedule).0) && Enabled(Exec(schedule).0, Probe(n)) && ProbeEnds !in during
    ensures var before := Exec(schedule).1;
            var (p, h) := Exec(schedule + ([Probe(n)] + during));
            && Between(p, h, before)
            && (!HasData(p) <==> h.accepted == before.accepted)
    decreases |during|
  {
    if during == [] {
      ExecSnoc(schedule, Probe(n));
      assert schedule + ([Probe(n)] + during) == schedule + [Probe(n)];
      var h := Exec(schedule).1;
      assert h.accepted + [] == h.accepted;
    } else {
      var k := |during| - 1;
      TryReadMisses(schedule, n, during[..k]);
      var looking := schedule + ([Probe(n)] + during[..k]);
      assert schedule + ([Probe(n)] + during) == looking + [during[k]];
      ExecSnoc(looking, during[k]);
      var (p, h) := Exec(looking);
      if Enabled(p, during[k]) {
        StaysBetween(p, h, Exec(schedule).1, during[k]);
      }
    }
  }

  /** No byte is left to read, though empty frames may be. */
  predicate NoBytes(p: Pipe) {
    p.rest == [] && Concat(p.queue) == []
  }

  /** The bytes of the Write under way. */
  function InHand(p: Pipe): Bytes {
    if p.writer.Outside? then [] else p.writer.data
  }

  /** Closed, with no byte left and none on its way. */
  predicate Dry(p: Pipe) {
    p.closed && NoBytes(p) && InHand(p) == []
  }

  lemma TakeLeavesNoBytes(p: Pipe, n: nat)
    requires HasData(p) && NoBytes(p)
    ensures NoBytes(Take(p, n).0)
  {
    assert Concat(p.queue) == p.queue[0] + Concat(p.queue[1..]);
    assert p.queue[0] == [];
  }

  lemma StaysDry(p: Pipe, h: History, a: Action)
    requires Dry(p) && Enabled(p, a)
    ensures Dry(Step(p, h, a).0)
  {
    match a
    case WriterSelects(Send) =>
      ConcatSnoc(p.queue, p.writer.data);
    case ReadTakes(n) =>
      TakeLeavesNoBytes(p, n);
    case Probe(n) =>
      if HasData(p) {
        TakeLeavesNoBytes(p, n);
      }
    case _ =>
  }

  lemma {:induction false} DryForGood(schedule: seq<Action>, later: seq<Action>)
    requires Dry(Exec(schedule).0)
    ensures Dry(Exec(schedule + later).0)
    decreases |later|
  {
    if later == [] {
      assert schedule + later == schedule;
    } else {
      var n := |later| - 1;
      DryForGood(schedule, later[..n]);
      assert schedule + later == (schedule + later[..n]) + [later[n]];
      ExecSnoc(schedule + later[..n], later[n]);
      var (p, h) := Exec(schedule + later[..n]);
      if Enabled(p, later[n]) {
        StaysDry(p, h, later[n]);
      }
    }
  }

  /** An empty frame in hand has to go first. */
  predicate EmptyHanded(p: Pipe) {
    !p.writer.Outside? && p.writer.data == []
  }

  /** The writer's next step toward queueing a byte. */
  function NextWrite(p: Pipe, frame: Bytes): Action {
    match p.writer
    case Outside => WriteBegins(frame)
    case Counting(_) => WriterCounts
    case Selecting(_) => WriterSelects(Send)
  }

  function StepsToSend(p: Pipe): nat {
    (match p.writer case Outside => 2 case Counting(_) => 1 case Selecting(_) => 0) + if EmptyHanded(p) then 3 else 0
  }

  lemma WriteStep(p: Pipe, h: History, frame: Bytes)
    requires p.probing && NoBytes(p) && frame != [] && (!p.closed || InHand(p) != [])
    requires |p.queue| <= if EmptyHanded(p) then 0 else 1
    ensures Enabled(p, NextWrite(p, frame))
    ensures var q := Step(p, h, NextWrite(p, frame)).0;
            && q.probing && q.closed == p.closed
            && (NoBytes(q) ==>
                  && StepsToSend(q) < StepsToSend(p) && (!q.closed || InHand(q) != [])
                  && |q.queue| <= if EmptyHanded(q) then 0 else 1)
  {
    if p.writer.Selecting? {
      ConcatSnoc(p.queue, p.writer.data);
    }
  }

  /** Unless the pipe is dry, a byte can still be queued behind the back of a
      TryRead that found nothing. */
  lemma WriterCanSend(schedule: seq<Action>, frame: Bytes) returns (during: seq<Action>)
    requires frame != []
    requires var p := Exec(schedule).0;
             p.probing && NoBytes(p) && (!p.closed || InHand(p) != []) && |p.queue| <= if EmptyHanded(p) then 0 else 1
    ensures ProbeEnds !in during
    ensures var p, q := Exec(schedule).0, Exec(schedule + during).0;
            q.probing && !NoBytes(q) && q.closed == p.closed
    decreases StepsToSend(Exec(schedule).0)
  {
    var (p, h) := Exec(schedule);
    var next := NextWrite(p, frame);
    WriteStep(p, h, frame);
    ExecSnoc(schedule, next);
    during := [next];
    if NoBytes(Exec(schedule + [next]).0) {
      var rest := WriterCanSend(schedule + [next], frame);
      during := [next] + rest;
      assert schedule + during == schedule + [next] + rest;
    }
  }

  lemma CloserCanSignal(schedule: seq<Action>) returns (during: seq<Action>)
    requires Exec(schedule).0.probing
    ensures ProbeEnds !in during
    ensures var p, q := Exec(schedule).0, Exec(schedule + during).0;
            q.probing && q.done && q.queue == p.queue && q.rest == p.rest
    decreases if Exec(schedule).0.closed then 0 else 1
  {
    ExecKeeps(schedule);
    var p := Exec(schedule).0;
    if p.done {
      during := [];
      assert schedule + during == schedule;
    } else if p.signalling {
      during := [CloseSignals];
      ExecSnoc(schedule, CloseSignals);
    } else {
      ExecSnoc(schedule, CloseSwaps);
      var rest := CloserCanSignal(schedule + [CloseSwaps]);
      during := [CloseSwaps] + rest;
      assert schedule + during == schedule + [CloseSwaps] + rest;
    }
  }

  /** A TryRead about to look at `done` with bytes left behind and `done` closed:
      it will report the end all the same. */
  predicate EndsEarly(p: Pipe) {
    p.probing && p.done && !NoBytes(p)
  }

  lemma WetCanEndEarly(schedule: seq<Action>, n: nat) returns (during: seq<Action>)
    requires var p := Exec(schedule).0; !HasData(p) && !p.probing && !Dry(p)
    ensures ProbeEnds !in during
    ensures EndsEarly(Exec(schedule + ([Probe(n)] + during)).0)
  {
    ExecSnoc(schedule, Probe(n));
    var probed := schedule + [Probe(n)];
    var sending := WriterCanSend(probed, [0]);
    var closing := CloserCanSignal(probed + sending);
    during := sending + closing;
    assert probed + sending + closing == schedule + ([Probe(n)] + during);
  }

  lemma DryNeverEndsEarly(schedule: seq<Action>, n: nat, during: seq<Action>)
    requires Dry(Exec(schedule).0)
    ensures !EndsEarly(Exec(schedule + ([Probe(n)] + during)).0)
  {
    DryForGood(schedule, [Probe(n)] + during);
  }

  /** A TryRead that finds nothing may report the end with bytes queued exactly
      when, as it begins, the pipe is not closed or a Write of some bytes is under
      way. */
  lemma TryReadEndsEarlyExactly(schedule: seq<Action>, n: nat)
    requires var p := Exec(schedule).0; !HasData(p) && !p.probing
    ensures var p := Exec(schedule).0;
            (exists during :: ProbeEnds !in during && EndsEarly(Exec(schedule + ([Probe(n)] + during)).0))
            <==> !p.closed || InHand(p) != []
  {
    if Dry(Exec(schedule).0) {
      forall during
        ensures !EndsEarly(Exec(schedule + ([Probe(n)] + during)).0)
      {
        DryNeverEndsEarly(schedule, n, during);
      }
    } else {
      var during := WetCanEndEarly(schedule, n);
      assert ProbeEnds !in during && EndsEarly(Exec(schedule + ([Probe(n)] + during)).0);
    }
  }

  /** The promise does hold of a TryRead that begins after Close with no Write
      in flight: whatever happens next, when it reports the end everything
      accepted has been delivered. */
  lemma TryReadEndsDrained(schedule: seq<Action>, n: nat, during: seq<Action>)
    requires Sealed(Exec(schedule).0) && Enabled(Exec(schedule).0, Probe(n))
    ensures var (p, h) := Exec(schedule + ([Probe(n)] + during));
            !HasData(p) && h.delivered == Concat(h.accepted)
  {
    SealedForGood(schedule, [Probe(n)] + during);
  }
}
