/** The buffer between an agent's bursty speech and a paced reader
    (internal/api/agent.go, streamBuffer and forwardSpeech). */
module StreamBuffer {
  import opened Wrappers
  import opened ByteStreams

  // ---- The byte queue ----

  datatype Queue = Queue(buf: seq<Byte>, closed: bool)

  const EMPTY := Queue([], false)

  /** A blocking read seen at one moment: it would wait, the stream is over, or it delivers. */
  datatype ReadResult = Waits | EndOfStream | Delivers(bytes: seq<Byte>)

  /** ReadUnpaced into a slice of `n` bytes. */
  function ReadFrom(q: Queue, n: nat): (Queue, ReadResult) {
    if n == 0 then (q, Delivers([]))
    else if |q.buf| < n && !q.closed then (q, Waits)
    else if q.buf == [] then (q, EndOfStream)
    else
      var k := if n < |q.buf| then n else |q.buf|;
      (q.(buf := q.buf[k..]), Delivers(q.buf[..k]))
  }

  datatype Op = Write(bytes: seq<Byte>) | Read(n: nat) | DiscardBuffered | Close

  /** Bytes that left the queue, and how. */
  datatype Chunk = Taken(bytes: seq<Byte>) | Dropped(bytes: seq<Byte>)

  function Apply(q: Queue, op: Op): (Queue, seq<Chunk>) {
    match op
    case Write(bytes) => (if q.closed then q else q.(buf := q.buf + bytes), [])
    case Read(n) =>
      var (r, result) := ReadFrom(q, n);
      (r, if result.Delivers? then [Taken(result.bytes)] else [])
    case DiscardBuffered => (q.(buf := []), [Dropped(q.buf)])
    case Close => (q.(closed := true), [])
  }

  function Exec(ops: seq<Op>): (Queue, seq<Chunk>) {
    if ops == [] then (EMPTY, [])
    else
      var (q, chunks) := Exec(ops[..|ops| - 1]);
      var (r, more) := Apply(q, ops[|ops| - 1]);
      (r, chunks + more)
  }

  /** What the writer got accepted: every write before the first Close. */
  function Accepted(ops: seq<Op>): seq<Byte>
    decreases |ops|
  {
    if ops == [] || ops[0].Close? then []
    else (if ops[0].Write? then ops[0].bytes else []) + Accepted(ops[1..])
  }

  function AllBytes(chunks: seq<Chunk>): seq<Byte> {
    if chunks == [] then [] else AllBytes(chunks[..|chunks| - 1]) + chunks[|chunks| - 1].bytes
  }

  function TakenBytes(chunks: seq<Chunk>): seq<Byte> {
    if chunks == [] then []
    else TakenBytes(chunks[..|chunks| - 1]) + if chunks[|chunks| - 1].Taken? then chunks[|chunks| - 1].bytes else []
  }

  lemma {:induction false} AcceptedSnoc(ops: seq<Op>, op: Op)
    ensures Accepted(ops + [op]) ==
            Accepted(ops) + if op.Write? && Close !in ops then op.bytes else []
    decreases |ops|
  {
    if ops == [] {
      assert [op][1..] == [];
    } else {
      assert (ops + [op])[1..] == ops[1..] + [op];
      AcceptedSnoc(ops[1..], op);
    }
  }

  lemma AllBytesSnoc(chunks: seq<Chunk>, more: seq<Chunk>)
    requires |more| <= 1
    ensures AllBytes(chunks + more) == AllBytes(chunks) + if more == [] then [] else more[0].bytes
    ensures TakenBytes(chunks + more) ==
            TakenBytes(chunks) + if more != [] && more[0].Taken? then more[0].bytes else []
  {
    if more == [] {
      assert chunks + more == chunks;
    } else {
      assert (chunks + more)[..|chunks|] == chunks;
    }
  }

  /** The bytes one operation adds to the accepted ones. */
  function Admits(q: Queue, op: Op): seq<Byte> {
    if op.Write? && !q.closed then op.bytes else []
  }

  function BytesOf(more: seq<Chunk>): seq<Byte>
    requires |more| <= 1
  {
    if more == [] then [] else more[0].bytes
  }

  lemma ApplyMoves(q: Queue, op: Op)
    ensures var (r, more) := Apply(q, op);
            && |more| <= 1
            && q.buf + Admits(q, op) == BytesOf(more) + r.buf
            && (r.closed <==> q.closed || op.Close?)
            && (more != [] && !more[0].Taken? ==> op.DiscardBuffered?)
  {
  }

  lemma ConservedByOne(gone: seq<Byte>, q: Queue, op: Op)
    ensures var (r, more) := Apply(q, op);
            && |more| <= 1
            && (gone + q.buf) + Admits(q, op) == (gone + BytesOf(more)) + r.buf
            && (r.closed <==> q.closed || op.Close?)
  {
    var (r, more) := Apply(q, op);
    ApplyMoves(q, op);
    assert (gone + q.buf) + Admits(q, op) == gone + (q.buf + Admits(q, op));
    assert (gone + BytesOf(more)) + r.buf == gone + (BytesOf(more) + r.buf);
  }

  /** Conservation: in every history of writes, reads, discards and closes, the
      accepted bytes are exactly what left the queue, by reads and by discards
      in the order they left, followed by what is still buffered. */
  lemma {:induction false} Conservation(ops: seq<Op>)
    ensures var (q, chunks) := Exec(ops);
            && Accepted(ops) == AllBytes(chunks) + q.buf
            && (q.closed <==> Close in ops)
    decreases |ops|
  {
    if ops != [] {
      var before, op := ops[..|ops| - 1], ops[|ops| - 1];
      Conservation(before);
      assert ops == before + [op];
      AcceptedSnoc(before, op);
      var (q, chunks) := Exec(before);
      var (r, more) := Apply(q, op);
      ConservedByOne(AllBytes(chunks), q, op);
      AllBytesSnoc(chunks, more);
      assert AllBytes(chunks + more) == AllBytes(chunks) + BytesOf(more);
      assert op in ops && forall x :: x in ops <==> x in before || x == op;
    }
  }

  lemma {:induction false} NothingDropped(ops: seq<Op>)
    requires DiscardBuffered !in ops
    ensures TakenBytes(Exec(ops).1) == AllBytes(Exec(ops).1)
    decreases |ops|
  {
    if ops != [] {
      var before, op := ops[..|ops| - 1], ops[|ops| - 1];
      NothingDropped(before);
      var (q, chunks) := Exec(before);
      ApplyMoves(q, op);
      assert op in ops;
      AllBytesSnoc(chunks, Apply(q, op).1);
    }
  }

  /** Without discards, what was read so far is a prefix of what was accepted. */
  lemma ReadsArePrefix(ops: seq<Op>)
    requires DiscardBuffered !in ops
    ensures var (q, chunks) := Exec(ops); TakenBytes(chunks) + q.buf == Accepted(ops)
  {
    Conservation(ops);
    NothingDropped(ops);
  }

  /** A read delivers less than it was asked for only after Close, and reports
      the end only after Close with every accepted byte gone; it waits exactly
      while the stream is open and short of a full read. */
  lemma ReadOutcome(ops: seq<Op>, n: nat)
    requires n > 0
    ensures var (q, chunks) := Exec(ops);
            match ReadFrom(q, n).1
            case Waits => Close !in ops && |q.buf| < n
            case EndOfStream => Close in ops && AllBytes(chunks) == Accepted(ops)
            case Delivers(bytes) => 0 < |bytes| <= n && (|bytes| < n ==> Close in ops && ReadFrom(q, n).0.buf == [])
  {
    Conservation(ops);
  }

  // ---- The object, with its paced schedule ----

  class Buffer {
    var buf: seq<Byte>
    var closed: bool
    var nextRead: Option<int>
    const pace: int

    function View(): Queue
      reads this
    {
      Queue(buf, closed)
    }

    constructor (pace: int)
      ensures View() == EMPTY && nextRead == None && this.pace == pace
    {
      buf, closed, nextRead, this.pace := [], false, None, pace;
    }

    method Write(p: seq<Byte>) returns (n: nat)
      modifies `buf
      ensures n == |p| && View() == Apply(old(View()), Op.Write(p)).0
    {
      if !closed {
        buf := buf + p;
      }
      n := |p|;
    }

    method ReadUnpaced(n: nat) returns (result: ReadResult)
      modifies `buf
      ensures (View(), result) == ReadFrom(old(View()), n)
    {
      if n == 0 {
        return Delivers([]);
      }
      if |buf| < n && !closed {
        return Waits;
      }
      if |buf| == 0 && closed {
        return EndOfStream;
      }
      var k := if n < |buf| then n else |buf|;
      result := Delivers(buf[..k]);
      buf := buf[k..];
    }

    method Close()
      modifies `closed
      ensures View() == Apply(old(View()), Op.Close).0
    {
      closed := true;
    }

    method Discard()
      modifies `buf
      ensures View() == Apply(old(View()), DiscardBuffered).0
    {
      buf := [];
    }

    /** The scheduling half of a paced read at time `now`: how long to sleep. */
    method AwaitSlot(now: int) returns (sleep: int)
      modifies `nextRead
      ensures pace <= 0 ==> sleep == 0 && nextRead == old(nextRead)
      ensures pace > 0 ==>
                var slot := SlotAt(pace, old(nextRead), now);
                nextRead == Some(slot + pace) && sleep == (if now < slot then slot - now else 0)
    {
      sleep := 0;
      if pace <= 0 {
        return;
      }
      var slot := now;
      if nextRead.Some? {
        slot := nextRead.value;
        if now < slot {
          sleep := slot - now;
        } else if now - slot > pace {
          slot := now;
        }
      }
      nextRead := Some(slot + pace);
    }
  }

  // ---- Pacing ----

  /** The slot given to a read that asks at time `now`. */
  function SlotAt(pace: int, nextRead: Option<int>, now: int): int {
    match nextRead
    case None => now
    case Some(next) => if now >= next && now - next > pace then now else next
  }

  /** One paced read: when it asked, and when awaitSlot let it start. */
  datatype PacedRead = PacedRead(now: int, start: int)

  /** The schedule after the first `i` reads. */
  function NextRead(pace: int, asked: seq<PacedRead>, i: nat): Option<int>
    requires i <= |asked|
    decreases i, 0
  {
    if i == 0 then None else Some(Slot(pace, asked, i - 1) + pace)
  }

  /** The slot of the i-th read. */
  function Slot(pace: int, asked: seq<PacedRead>, i: nat): int
    requires i < |asked|
    decreases i, 1
  {
    SlotAt(pace, NextRead(pace, asked, i), asked[i].now)
  }

  /** A single reader with a clock: it asks again only after it started, and a
      sleep never ends early. */
  ghost predicate Sequential(pace: int, asked: seq<PacedRead>) {
    && (forall i | 0 < i < |asked| :: asked[i - 1].start <= asked[i].now)
    && (forall i | 0 <= i < |asked| ::
          if asked[i].now < Slot(pace, asked, i) then asked[i].start >= Slot(pace, asked, i)
          else asked[i].start == asked[i].now)
  }

  /** No sleep overshoots its slot by more than one pace. */
  ghost predicate OnTimeSleeps(pace: int, asked: seq<PacedRead>) {
    forall i | 0 <= i < |asked| && asked[i].now < Slot(pace, asked, i) ::
      asked[i].start <= Slot(pace, asked, i) + pace
  }

  /** The i-th read asks more than one pace after its scheduled slot. */
  predicate TooLate(pace: int, asked: seq<PacedRead>, i: nat)
    requires 0 < i < |asked|
  {
    asked[i].now > Slot(pace, asked, i - 1) + pace + pace
  }

  lemma SlotsAdvance(pace: int, asked: seq<PacedRead>, i: nat)
    requires pace > 0 && i + 1 < |asked|
    ensures Slot(pace, asked, i + 1) >= Slot(pace, asked, i) + pace
    ensures TooLate(pace, asked, i + 1) <==> Slot(pace, asked, i + 1) != Slot(pace, asked, i) + pace
  {
  }

  lemma {:induction false} SlotsSpread(pace: int, asked: seq<PacedRead>, i: nat, k: nat)
    requires pace > 0 && i + k < |asked|
    ensures Slot(pace, asked, i + k) >= Slot(pace, asked, i) + k * pace
  {
    if k > 0 {
      SlotsSpread(pace, asked, i, k - 1);
      SlotsAdvance(pace, asked, i + k - 1);
      assert k * pace == (k - 1) * pace + pace;
    }
  }

  /** The rate bound: no read starts before its slot, slots are at least one
      pace apart, and with on-time sleeps any k + 1 consecutive reads span at
      least k - 1 paces. */
  lemma PacingBound(pace: int, asked: seq<PacedRead>, i: nat, k: nat)
    requires pace > 0 && k > 0 && i + k < |asked| && Sequential(pace, asked)
    ensures asked[i].start >= Slot(pace, asked, i)
    ensures Slot(pace, asked, i + 1) >= Slot(pace, asked, i) + pace
    ensures OnTimeSleeps(pace, asked) ==>
              && asked[i].start <= Slot(pace, asked, i) + pace
              && asked[i + k].start - asked[i].start >= (k - 1) * pace
  {
    SlotsAdvance(pace, asked, i);
    SlotsSpread(pace, asked, i, k);
    assert k * pace == (k - 1) * pace + pace;
    assert asked[i + k].start >= Slot(pace, asked, i + k);
  }

  predicate OnFirstSchedule(pace: int, asked: seq<PacedRead>, i: nat)
    requires i < |asked|
  {
    Slot(pace, asked, i) == Slot(pace, asked, 0) + i * pace
  }

  /** No drift: every slot lies on the schedule set by the first read exactly
      when no read asks more than one pace after its slot. */
  lemma NoDrift(pace: int, asked: seq<PacedRead>)
    requires pace > 0
    ensures (forall i: nat | i < |asked| :: OnFirstSchedule(pace, asked, i))
            <==> (forall i: nat | 0 < i < |asked| :: !TooLate(pace, asked, i))
  {
    if forall i: nat | 0 < i < |asked| :: !TooLate(pace, asked, i) {
      forall i: nat | i < |asked|
        ensures OnFirstSchedule(pace, asked, i)
      {
        OnSchedule(pace, asked, i);
      }
    }
    if forall i: nat | i < |asked| :: OnFirstSchedule(pace, asked, i) {
      forall i: nat | 0 < i < |asked|
        ensures !TooLate(pace, asked, i)
      {
        SlotsAdvance(pace, asked, i - 1);
        assert i * pace == (i - 1) * pace + pace;
        assert OnFirstSchedule(pace, asked, i - 1) && OnFirstSchedule(pace, asked, i);
      }
    }
  }

  lemma {:induction false} OnSchedule(pace: int, asked: seq<PacedRead>, i: nat)
    requires pace > 0 && i < |asked| && forall j: nat | 0 < j < |asked| :: !TooLate(pace, asked, j)
    ensures OnFirstSchedule(pace, asked, i)
  {
    if i > 0 {
      OnSchedule(pace, asked, i - 1);
      SlotsAdvance(pace, asked, i - 1);
      assert i * pace == (i - 1) * pace + pace;
    }
  }

  // ---- forwardSpeech ----

  /** What happens between two reads of the forwarder: the producer's calls. */
  datatype Producer = Produce(bytes: seq<Byte>) | Flush | Finish

  function AsOp(a: Producer): Op {
    match a
    case Produce(bytes) => Write(bytes)
    case Flush => DiscardBuffered
    case Finish => Close
  }

  /** One attempt of the forwarder to move a frame; `accepts` says whether the
      leg's writer takes it. */
  datatype Step = Outside(a: Producer) | Forward(accepts: bool)

  datatype Pump = Pump(queue: Queue, sent: seq<seq<Byte>>, running: bool)

  function PumpStep(frameSize: nat, m: Pump, step: Step): Pump {
    match step
    case Outside(a) => m.(queue := Apply(m.queue, AsOp(a)).0)
    case Forward(accepts) =>
      if !m.running then m
      else
        var (q, result) := ReadFrom(m.queue, frameSize);
        match result
        case Waits => m
        case EndOfStream => m.(running := false)
        case Delivers(bytes) =>
          if bytes == [] then m.(running := false)
          else if accepts then m.(queue := q, sent := m.sent + [bytes])
          else m.(queue := q, running := false)
  }

  function RunPump(frameSize: nat, steps: seq<Step>): Pump {
    if steps == [] then Pump(EMPTY, [], true)
    else PumpStep(frameSize, RunPump(frameSize, steps[..|steps| - 1]), steps[|steps| - 1])
  }

  /** The producer's calls in a run. */
  function Produced(steps: seq<Step>): seq<Op> {
    if steps == [] then []
    else
      var last := steps[|steps| - 1];
      Produced(steps[..|steps| - 1]) + if last.Outside? then [AsOp(last.a)] else []
  }

  /** All frames are whole except possibly the last. */
  ghost predicate WholeButLast(frameSize: nat, sent: seq<seq<Byte>>) {
    && (forall i | 0 <= i < |sent| - 1 :: |sent[i]| == frameSize)
    && (sent != [] ==> 0 < |sent[|sent| - 1]| <= frameSize)
  }

  predicate Undisturbed(steps: seq<Step>) {
    forall x | x in steps :: x != Outside(Flush) && x != Forward(false)
  }

  /** The pump after a producer that made the calls `ops`. */
  ghost predicate PumpInv(frameSize: nat, m: Pump, ops: seq<Op>) {
    && Concat(m.sent) + m.queue.buf == Accepted(ops)
    && (m.queue.closed <==> Close in ops)
    && WholeButLast(frameSize, m.sent)
    && (m.sent != [] && |m.sent[|m.sent| - 1]| < frameSize ==> m.queue == Queue([], true))
    && (!m.running ==> m.queue == Queue([], true))
  }

  lemma ProducerKeeps(frameSize: nat, m: Pump, ops: seq<Op>, a: Producer)
    requires PumpInv(frameSize, m, ops) && !a.Flush?
    ensures PumpInv(frameSize, PumpStep(frameSize, m, Outside(a)), ops + [AsOp(a)])
  {
    AcceptedSnoc(ops, AsOp(a));
    assert forall x :: x in ops + [AsOp(a)] <==> x in ops || x == AsOp(a);
    var added := Admits(m.queue, AsOp(a));
    assert (Concat(m.sent) + m.queue.buf) + added == Concat(m.sent) + (m.queue.buf + added);
    assert m.queue.buf + [] == m.queue.buf;
  }

  /** Moving a frame from the queue to what was sent. */
  lemma FrameMoves(sent: seq<seq<Byte>>, bytes: seq<Byte>, rest: seq<Byte>)
    ensures Concat(sent + [bytes]) + rest == Concat(sent) + (bytes + rest)
  {
    ConcatSnoc(sent, bytes);
    assert (Concat(sent) + bytes) + rest == Concat(sent) + (bytes + rest);
  }

  lemma ForwardKeeps(frameSize: nat, m: Pump, ops: seq<Op>)
    requires frameSize > 0 && PumpInv(frameSize, m, ops)
    ensures PumpInv(frameSize, PumpStep(frameSize, m, Forward(true)), ops)
  {
    var (q, result) := ReadFrom(m.queue, frameSize);
    if m.running && result.Delivers? {
      FrameMoves(m.sent, result.bytes, q.buf);
      assert result.bytes + q.buf == m.queue.buf;
    }
  }

  lemma {:induction false} PumpKeeps(frameSize: nat, steps: seq<Step>)
    requires frameSize > 0 && Undisturbed(steps)
    ensures PumpInv(frameSize, RunPump(frameSize, steps), Produced(steps))
    decreases |steps|
  {
    if steps != [] {
      var before, last := steps[..|steps| - 1], steps[|steps| - 1];
      assert last in steps && forall x | x in before :: x in steps;
      PumpKeeps(frameSize, before);
      var m := RunPump(frameSize, before);
      if last.Outside? {
        ProducerKeeps(frameSize, m, Produced(before), last.a);
      } else {
        ForwardKeeps(frameSize, m, Produced(before));
        assert Produced(steps) == Produced(before);
      }
    }
  }

  /** Without discards or write errors the forwarder sends the accepted bytes in
      order, in whole frames except possibly the last, at every moment; and when
      it stops, the producer has closed the buffer and everything was sent. */
  lemma ForwardsEverything(frameSize: nat, steps: seq<Step>)
    requires frameSize > 0 && Undisturbed(steps)
    ensures var m := RunPump(frameSize, steps);
            && Concat(m.sent) + m.queue.buf == Accepted(Produced(steps))
            && WholeButLast(frameSize, m.sent)
            && (!m.running ==> Concat(m.sent) == Accepted(Produced(steps)) && Close in Produced(steps))
  {
    PumpKeeps(frameSize, steps);
    var m := RunPump(frameSize, steps);
    if !m.running {
      assert Concat(m.sent) + [] == Concat(m.sent);
    }
  }

  /** The queue after some calls of the producer. */
  function AfterCalls(q: Queue, calls: seq<Producer>): Queue {
    if calls == [] then q else Apply(AfterCalls(q, calls[..|calls| - 1]), AsOp(calls[|calls| - 1])).0
  }

  method MakeCalls(sb: Buffer, calls: seq<Producer>)
    modifies sb`buf, sb`closed
    ensures sb.View() == AfterCalls(old(sb.View()), calls)
  {
    for j := 0 to |calls|
      invariant sb.View() == AfterCalls(old(sb.View()), calls[..j])
    {
      assert calls[..j + 1][..j] == calls[..j];
      match calls[j] {
        case Produce(bytes) => var _ := sb.Write(bytes);
        case Flush => sb.Discard();
        case Finish => sb.Close();
      }
    }
    assert calls[..|calls|] == calls;
  }

  lemma {:induction false} CallsOnlyQueue(frameSize: nat, steps: seq<Step>, calls: seq<Producer>)
    ensures var m := RunPump(frameSize, steps);
            RunPump(frameSize, steps + Outsides(calls)) == m.(queue := AfterCalls(m.queue, calls))
    decreases |calls|
  {
    if calls == [] {
      assert steps + Outsides(calls) == steps;
    } else {
      var before, last := calls[..|calls| - 1], calls[|calls| - 1];
      CallsOnlyQueue(frameSize, steps, before);
      assert steps + Outsides(calls) == (steps + Outsides(before)) + [Outside(last)];
      PumpSnoc(frameSize, steps + Outsides(before), Outside(last));
    }
  }

  /** The loop itself, against a script of what the producer does before each
      attempt and whether the writer takes the frame. */
  method ForwardSpeech(sb: Buffer, frameSize: nat, script: seq<(seq<Producer>, bool)>)
      returns (sent: seq<seq<Byte>>, running: bool)
    requires sb.View() == EMPTY
    modifies sb`buf, sb`closed
    ensures Pump(sb.View(), sent, running) == RunPump(frameSize, Script(script))
  {
    sent, running := [], true;
    for i := 0 to |script|
      invariant Pump(sb.View(), sent, running) == RunPump(frameSize, Script(script[..i]))
    {
      var (calls, accepts) := script[i];
      ghost var earlier := Script(script[..i]);
      ScriptSnoc(script, i);
      CallsOnlyQueue(frameSize, earlier, calls);
      PumpSnoc(frameSize, earlier + Outsides(calls), Forward(accepts));
      MakeCalls(sb, calls);
      if running {
        var result := sb.ReadUnpaced(frameSize);
        match result {
          case Waits =>
          case EndOfStream => running := false;
          case Delivers(bytes) =>
            if bytes == [] || !accepts {
              running := false;
            } else {
              sent := sent + [bytes];
            }
        }
      }
    }
    assert script[..|script|] == script;
  }

  function Outsides(calls: seq<Producer>): seq<Step> {
    if calls == [] then [] else Outsides(calls[..|calls| - 1]) + [Outside(calls[|calls| - 1])]
  }

  function Script(script: seq<(seq<Producer>, bool)>): seq<Step> {
    if script == [] then []
    else
      var (calls, accepts) := script[|script| - 1];
      Script(script[..|script| - 1]) + Outsides(calls) + [Forward(accepts)]
  }

  lemma ScriptSnoc(script: seq<(seq<Producer>, bool)>, i: nat)
    requires i < |script|
    ensures Script(script[..i + 1]) == Script(script[..i]) + Outsides(script[i].0) + [Forward(script[i].1)]
  {
    assert script[..i + 1][..i] == script[..i];
  }

  lemma PumpSnoc(frameSize: nat, steps: seq<Step>, step: Step)
    ensures RunPump(frameSize, steps + [step]) == PumpStep(frameSize, RunPump(frameSize, steps), step)
  {
    assert (steps + [step])[..|steps|] == steps;
  }
}
