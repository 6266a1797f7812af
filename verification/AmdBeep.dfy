/** Beep detection after a machine verdict: four consecutive tonal frames
    within the beep window (internal/amd/beep.go and the beep half of
    internal/amd/amd.go). Whether a frame is tonal is a parameter. */
module AmdBeep {
  import opened Wrappers
  import opened ByteStreams
  import opened AmdParams
  import opened AmdFsm
  import opened AmdRuns
  import opened AmdStream

  type Tone = seq<Int16> -> bool

  const BEEP_MIN_FRAMES: nat := 4

  datatype BeepResult = BeepResult(detected: bool, beepMs: int)

  const NO_BEEP := BeepResult(false, 0)

  class BeepDetector {
    const tone: Tone
    const minFrames: nat
    var consecutiveFrames: nat
    var detected: bool

    constructor (tone: Tone, minFrames: nat)
      ensures this.tone == tone && this.minFrames == minFrames && consecutiveFrames == 0 && !detected
    {
      this.tone, this.minFrames := tone, minFrames;
      consecutiveFrames, detected := 0, false;
    }

    method Feed(samples: array<Int16>) returns (confirmed: bool)
      modifies this
      ensures (Ear(consecutiveFrames, detected), confirmed) ==
              Hear(minFrames, old(Ear(consecutiveFrames, detected)), tone(samples[..]))
    {
      if detected {
        return true;
      }
      if tone(samples[..]) {
        consecutiveFrames := consecutiveFrames + 1;
        if consecutiveFrames >= minFrames {
          detected := true;
          return true;
        }
      } else {
        consecutiveFrames := 0;
      }
      return false;
    }
  }

  /** The value of a BeepDetector's state. */
  datatype Ear = Ear(consecutive: nat, detected: bool)

  const FRESH_EAR := Ear(0, false)

  function Hear(minFrames: nat, e: Ear, tonal: bool): (Ear, bool) {
    if e.detected then (e, true)
    else if !tonal then (Ear(0, false), false)
    else if e.consecutive + 1 >= minFrames then (Ear(e.consecutive + 1, true), true)
    else (Ear(e.consecutive + 1, false), false)
  }

  /** Push mode over the classified frames of a buffer: the detector, the time
      waited and the frames used, up to a beep or the end of the window. */
  function Listening(timeout: int, e: Ear, waited: int, tones: seq<bool>): (Ear, int, nat, Option<BeepResult>)
    decreases |tones|
  {
    if tones == [] then (e, waited, 0, None)
    else if waited >= timeout then (e, waited, 0, Some(NO_BEEP))
    else
      var (heard, confirmed) := Hear(BEEP_MIN_FRAMES, e, tones[0]);
      if confirmed then (heard, waited + FRAME, 1, Some(BeepResult(true, Millis(waited + FRAME))))
      else
        var (f, w, used, beep) := Listening(timeout, heard, waited + FRAME, tones[1..]);
        (f, w, used + 1, beep)
  }

  function BeepDrain(tone: Tone, timeout: int, e: Ear, waited: int, buf: seq<Byte>):
      (Ear, int, seq<Byte>, Option<BeepResult>)
    decreases |buf|
  {
    if |buf| < FRAME_BYTES then (e, waited, buf, None)
    else if waited >= timeout then (e, waited, buf, Some(NO_BEEP))
    else
      var rest := buf[FRAME_BYTES..];
      var (heard, confirmed) := Hear(BEEP_MIN_FRAMES, e, tone(Samples(buf[..FRAME_BYTES])));
      if confirmed then (heard, waited + FRAME, rest, Some(BeepResult(true, Millis(waited + FRAME))))
      else BeepDrain(tone, timeout, heard, waited + FRAME, rest)
  }

  /** Any number of FeedBeep calls, up to the first that returns a result. */
  function BeepFeedAll(tone: Tone, timeout: int, e: Ear, waited: int, accum: seq<Byte>, chunks: seq<seq<Byte>>):
      Option<BeepResult>
    decreases |chunks|
  {
    if chunks == [] then None
    else
      var (f, w, rest, beep) := BeepDrain(tone, timeout, e, waited, accum + chunks[0]);
      if beep.Some? then beep else BeepFeedAll(tone, timeout, f, w, rest, chunks[1..])
  }

  /** The blocking WaitForBeep on a stream that delivers `stream` and then fails. */
  function BeepPull(tone: Tone, timeout: int, e: Ear, waited: int, stream: seq<Byte>,
                    cancelled: nat -> bool, i: nat): BeepResult
    decreases |stream|
  {
    if waited >= timeout || cancelled(i) || |stream| < FRAME_BYTES then NO_BEEP
    else
      var (heard, confirmed) := Hear(BEEP_MIN_FRAMES, e, tone(Samples(stream[..FRAME_BYTES])));
      if confirmed then BeepResult(true, Millis(waited + FRAME))
      else BeepPull(tone, timeout, heard, waited + FRAME, stream[FRAME_BYTES..], cancelled, i + 1)
  }

  // ---- What a beep is ----

  /** A run of four tonal frames ends with frame `i`, and none ends earlier. */
  ghost predicate FirstBeepAt(tones: seq<bool>, i: nat) {
    && i <= |tones| && EndsWith(tones[..i], true, BEEP_MIN_FRAMES)
    && forall j | 0 <= j < i :: !EndsWith(tones[..j], true, BEEP_MIN_FRAMES)
  }

  ghost predicate NoBeepWithin(tones: seq<bool>, n: nat) {
    forall j | 0 <= j <= n && j <= |tones| :: !EndsWith(tones[..j], true, BEEP_MIN_FRAMES)
  }

  /** The push result, read off the frames: a beep that ends within the window,
      a timeout once a frame past the window arrives, and otherwise nothing. */
  ghost predicate PushResult(timeout: int, tones: seq<bool>, beep: Option<BeepResult>)
    requires timeout >= 0
  {
    var window := FrameCount(timeout);
    match beep
    case None => NoBeepWithin(tones, window) && |tones| <= window
    case Some(r) =>
      if r.detected then exists i: nat :: FirstBeepAt(tones, i) && i <= window && r.beepMs == 20 * i
      else r == NO_BEEP && NoBeepWithin(tones, window) && |tones| > window
  }

  ghost predicate PullResult(timeout: int, tones: seq<bool>, r: BeepResult)
    requires timeout >= 0
  {
    var window := FrameCount(timeout);
    if r.detected then exists i: nat :: FirstBeepAt(tones, i) && i <= window && r.beepMs == 20 * i
    else r == NO_BEEP && NoBeepWithin(tones, window)
  }

  /** The detector after `seen` frames that hold no beep. */
  ghost predicate HeardSoFar(seen: seq<bool>, e: Ear, waited: int) {
    && !e.detected && e.consecutive == Tail(seen, true)
    && waited == |seen| * FRAME
    && NoBeepWithin(seen, |seen|)
  }

  lemma HearOne(seen: seq<bool>, e: Ear, waited: int, tonal: bool)
    requires HeardSoFar(seen, e, waited)
    ensures var (heard, confirmed) := Hear(BEEP_MIN_FRAMES, e, tonal);
            var now := seen + [tonal];
            && (confirmed ==> FirstBeepAt(now, |now|))
            && (!confirmed ==> HeardSoFar(now, heard, waited + FRAME))
            && Millis(waited + FRAME) == 20 * |now|
  {
    var now := seen + [tonal];
    assert now[..|now|] == now && now[..|seen|] == seen && seen[..|seen|] == seen;
    TailMeans(now, true, BEEP_MIN_FRAMES);
    TailMeans(seen, true, BEEP_MIN_FRAMES);
    assert EndsWith(seen[..|seen|], true, BEEP_MIN_FRAMES) == false;
    forall j | 0 <= j < |now|
      ensures !EndsWith(now[..j], true, BEEP_MIN_FRAMES)
    {
      assert now[..j] == seen[..j];
    }
  }

  lemma PrefixKeepsBeeps(seen: seq<bool>, more: seq<bool>, n: nat)
    requires n <= |seen|
    ensures NoBeepWithin(seen + more, n) <==> NoBeepWithin(seen, n)
    ensures FirstBeepAt(seen + more, n) <==> FirstBeepAt(seen, n)
  {
    forall j | 0 <= j <= n
      ensures (seen + more)[..j] == seen[..j]
    {
    }
  }

  lemma {:induction false} ListeningMeans(timeout: int, seen: seq<bool>, e: Ear, waited: int, tones: seq<bool>)
    requires timeout >= 0 && HeardSoFar(seen, e, waited) && |seen| <= FrameCount(timeout)
    ensures PushResult(timeout, seen + tones, Listening(timeout, e, waited, tones).3)
    decreases |tones|
  {
    var window := FrameCount(timeout);
    RoundUpIsThreshold(timeout, |seen|);
    if tones == [] {
      assert seen + tones == seen;
    } else if waited >= timeout {
      PrefixKeepsBeeps(seen, tones, |seen|);
    } else {
      var now := seen + [tones[0]];
      assert seen + tones == now + tones[1..];
      HearOne(seen, e, waited, tones[0]);
      var (heard, confirmed) := Hear(BEEP_MIN_FRAMES, e, tones[0]);
      if confirmed {
        PrefixKeepsBeeps(now, tones[1..], |now|);
        assert FirstBeepAt(seen + tones, |now|);
      } else {
        ListeningMeans(timeout, now, heard, waited + FRAME, tones[1..]);
      }
    }
  }

  // ---- Buffers ----

  lemma {:induction false} BeepDrainIsListening(tone: Tone, timeout: int, e: Ear, waited: int, buf: seq<Byte>)
    ensures var (f, w, used, beep) := Listening(timeout, e, waited, Classify(tone, buf));
            && FRAME_BYTES * used <= |buf|
            && BeepDrain(tone, timeout, e, waited, buf) == (f, w, buf[FRAME_BYTES * used..], beep)
    decreases |buf|
  {
    if |buf| >= FRAME_BYTES && waited < timeout {
      var rest := buf[FRAME_BYTES..];
      assert Classify(tone, buf)[1..] == Classify(tone, rest);
      var (heard, confirmed) := Hear(BEEP_MIN_FRAMES, e, Classify(tone, buf)[0]);
      if !confirmed {
        BeepDrainIsListening(tone, timeout, heard, waited + FRAME, rest);
        var n := Listening(timeout, heard, waited + FRAME, Classify(tone, rest)).2;
        assert rest[FRAME_BYTES * n..] == buf[FRAME_BYTES * (n + 1)..];
      }
    }
  }

  lemma {:induction false} BeepDrainAppend(tone: Tone, timeout: int, e: Ear, waited: int, a: seq<Byte>, b: seq<Byte>)
    ensures var (f, w, rest, beep) := BeepDrain(tone, timeout, e, waited, a);
            BeepDrain(tone, timeout, e, waited, a + b) ==
            if beep.Some? then (f, w, rest + b, beep) else BeepDrain(tone, timeout, f, w, rest + b)
    decreases |a|
  {
    if |a| >= FRAME_BYTES && waited < timeout {
      assert (a + b)[..FRAME_BYTES] == a[..FRAME_BYTES];
      assert (a + b)[FRAME_BYTES..] == a[FRAME_BYTES..] + b;
      var (heard, confirmed) := Hear(BEEP_MIN_FRAMES, e, tone(Samples(a[..FRAME_BYTES])));
      if !confirmed {
        BeepDrainAppend(tone, timeout, heard, waited + FRAME, a[FRAME_BYTES..], b);
      }
    }
  }

  lemma {:induction false} BeepFeedAllIsDrain(tone: Tone, timeout: int, e: Ear, waited: int, accum: seq<Byte>,
                                              chunks: seq<seq<Byte>>)
    requires BeepDrain(tone, timeout, e, waited, accum) == (e, waited, accum, None)
    ensures BeepFeedAll(tone, timeout, e, waited, accum, chunks) ==
            BeepDrain(tone, timeout, e, waited, accum + Concat(chunks)).3
    decreases |chunks|
  {
    if chunks == [] {
      assert accum + Concat(chunks) == accum;
    } else {
      var now := accum + chunks[0];
      var (f, w, rest, beep) := BeepDrain(tone, timeout, e, waited, now);
      assert accum + Concat(chunks) == now + Concat(chunks[1..]);
      BeepDrainAppend(tone, timeout, e, waited, now, Concat(chunks[1..]));
      if beep.None? {
        BeepDrainSettles(tone, timeout, e, waited, now);
        BeepFeedAllIsDrain(tone, timeout, f, w, rest, chunks[1..]);
      }
    }
  }

  lemma {:induction false} BeepDrainSettles(tone: Tone, timeout: int, e: Ear, waited: int, buf: seq<Byte>)
    requires BeepDrain(tone, timeout, e, waited, buf).3.None?
    ensures |BeepDrain(tone, timeout, e, waited, buf).2| < FRAME_BYTES
    decreases |buf|
  {
    if |buf| >= FRAME_BYTES {
      var heard := Hear(BEEP_MIN_FRAMES, e, tone(Samples(buf[..FRAME_BYTES]))).0;
      BeepDrainSettles(tone, timeout, heard, waited + FRAME, buf[FRAME_BYTES..]);
    }
  }

  lemma {:induction false} BeepPullIsListening(tone: Tone, timeout: int, e: Ear, waited: int, stream: seq<Byte>,
                                               cancelled: nat -> bool, i: nat)
    requires forall k: nat :: !cancelled(k)
    ensures var beep := Listening(timeout, e, waited, Classify(tone, stream)).3;
            BeepPull(tone, timeout, e, waited, stream, cancelled, i) ==
            if beep.Some? then beep.value else NO_BEEP
    decreases |stream|
  {
    if |stream| >= FRAME_BYTES && waited < timeout {
      var rest := stream[FRAME_BYTES..];
      assert Classify(tone, stream)[1..] == Classify(tone, rest);
      var (heard, confirmed) := Hear(BEEP_MIN_FRAMES, e, Classify(tone, stream)[0]);
      if !confirmed {
        BeepPullIsListening(tone, timeout, heard, waited + FRAME, rest, cancelled, i + 1);
      }
    }
  }

  // ---- Main results ----

  /** For every chunking, the push form reports the first run of four tonal
      frames that ends within the window, with its end time; it reports a
      timeout exactly when a whole frame past the window arrives. */
  lemma PushBeep(tone: Tone, timeout: int, chunks: seq<seq<Byte>>)
    requires timeout >= 0
    ensures PushResult(timeout, Classify(tone, Concat(chunks)),
                       BeepFeedAll(tone, timeout, FRESH_EAR, 0, [], chunks))
  {
    var tones := Classify(tone, Concat(chunks));
    BeepFeedAllIsDrain(tone, timeout, FRESH_EAR, 0, [], chunks);
    assert [] + Concat(chunks) == Concat(chunks);
    BeepDrainIsListening(tone, timeout, FRESH_EAR, 0, Concat(chunks));
    ListeningMeans(timeout, [], FRESH_EAR, 0, tones);
    assert [] + tones == tones;
  }

  /** The frames leave no choice: they determine the push result. */
  lemma PushResultIsDetermined(timeout: int, tones: seq<bool>, a: Option<BeepResult>, b: Option<BeepResult>)
    requires timeout >= 0 && PushResult(timeout, tones, a) && PushResult(timeout, tones, b)
    ensures a == b
  {
    if a.Some? && b.Some? && a.value.detected && b.value.detected {
      var i: nat :| FirstBeepAt(tones, i) && a.value.beepMs == 20 * i;
      var j: nat :| FirstBeepAt(tones, j) && b.value.beepMs == 20 * j;
      assert i == j;
    }
  }

  /** The pull form reports the same beep, at the same time, or none. */
  lemma PullBeep(tone: Tone, timeout: int, stream: seq<Byte>, cancelled: nat -> bool)
    requires timeout >= 0 && forall k: nat :: !cancelled(k)
    ensures PullResult(timeout, Classify(tone, stream),
                       BeepPull(tone, timeout, FRESH_EAR, 0, stream, cancelled, 0))
  {
    var tones := Classify(tone, stream);
    BeepPullIsListening(tone, timeout, FRESH_EAR, 0, stream, cancelled, 0);
    ListeningMeans(timeout, [], FRESH_EAR, 0, tones);
    assert [] + tones == tones;
  }

  /** A stream has at most one first beep, so both forms name the same one. */
  lemma PushAgreesWithPull(tone: Tone, timeout: int, chunks: seq<seq<Byte>>, cancelled: nat -> bool)
    requires timeout >= 0 && forall k: nat :: !cancelled(k)
    ensures var pushed := BeepFeedAll(tone, timeout, FRESH_EAR, 0, [], chunks);
            var pulled := BeepPull(tone, timeout, FRESH_EAR, 0, Concat(chunks), cancelled, 0);
            if pushed.Some? then pulled == pushed.value else pulled == NO_BEEP
  {
    BeepFeedAllIsDrain(tone, timeout, FRESH_EAR, 0, [], chunks);
    assert [] + Concat(chunks) == Concat(chunks);
    BeepDrainIsListening(tone, timeout, FRESH_EAR, 0, Concat(chunks));
    BeepPullIsListening(tone, timeout, FRESH_EAR, 0, Concat(chunks), cancelled, 0);
  }
}
