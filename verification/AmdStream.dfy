/** Byte streams of 16-bit PCM: how they are cut into frames and what the frames
    say (the decoding loops of internal/amd/amd.go). */
module AmdStream {
  import opened Wrappers
  import opened ByteStreams
  import opened AmdParams
  import opened AmdFsm
  import opened AmdRuns

  const SAMPLES_PER_FRAME: nat := 320
  const FRAME_BYTES: nat := 640

  function Samples(frame: seq<Byte>): seq<Int16>
    requires |frame| == FRAME_BYTES
  {
    seq(SAMPLES_PER_FRAME, i requires 0 <= i < SAMPLES_PER_FRAME => Sample(frame[2 * i], frame[2 * i + 1]))
  }

  /** The whole frames at the front of a buffer, each classified by `judge`. */
  function Classify(judge: seq<Int16> -> bool, buf: seq<Byte>): (frames: seq<bool>)
    ensures |frames| == |buf| / FRAME_BYTES
    decreases |buf|
  {
    if |buf| < FRAME_BYTES then []
    else [judge(Samples(buf[..FRAME_BYTES]))] + Classify(judge, buf[FRAME_BYTES..])
  }

  /** The speech/silence pattern of a byte stream. */
  function Voices(buf: seq<Byte>): seq<bool> {
    Classify((samples: seq<Int16>) => Voiced(samples), buf)
  }

  /** Decodes one frame of bytes into a reused array of samples. */
  method DecodeFrame(frame: seq<Byte>, samples: array<Int16>)
    requires |frame| == FRAME_BYTES && samples.Length == SAMPLES_PER_FRAME
    modifies samples
    ensures samples[..] == Samples(frame)
  {
    for i := 0 to samples.Length
      invariant forall k | 0 <= k < i :: samples[k] == Sample(frame[2 * k], frame[2 * k + 1])
    {
      samples[i] := Sample(frame[2 * i], frame[2 * i + 1]);
    }
  }

  // ---- Push mode ----

  /** Steps through the whole frames of a buffer until the first verdict; what is
      left is the unconsumed tail. */
  function Drain(p: Params, s: Snapshot, buf: seq<Byte>): (Snapshot, seq<Byte>, Option<Detection>)
    decreases |buf|
  {
    if |buf| < FRAME_BYTES then (s, buf, None)
    else
      var (t, det) := Step(p, s, Voiced(Samples(buf[..FRAME_BYTES])));
      if det.Some? then (t, buf[FRAME_BYTES..], det) else Drain(p, t, buf[FRAME_BYTES..])
  }

  /** Draining a buffer is running its frames. */
  lemma {:induction false} DrainIsRun(p: Params, s: Snapshot, buf: seq<Byte>)
    ensures var (t, det) := Run(p, s, Voices(buf));
            Drain(p, s, buf) == (t, buf[FRAME_BYTES * Used(p, s, Voices(buf))..], det)
    decreases |buf|
  {
    if |buf| >= FRAME_BYTES {
      var rest := buf[FRAME_BYTES..];
      assert Voices(buf)[1..] == Voices(rest);
      var (t, det) := Step(p, s, Voices(buf)[0]);
      if det.None? {
        DrainIsRun(p, t, rest);
        var n := Used(p, t, Voices(rest));
        assert rest[FRAME_BYTES * n..] == buf[FRAME_BYTES * (n + 1)..];
      }
    }
  }

  /** A verdict in the first part of a buffer does not depend on the rest, and
      an undecided first part leaves its tail to be continued. */
  lemma {:induction false} DrainAppend(p: Params, s: Snapshot, a: seq<Byte>, b: seq<Byte>)
    ensures var (t, rest, det) := Drain(p, s, a);
            Drain(p, s, a + b) == if det.Some? then (t, rest + b, det) else Drain(p, t, rest + b)
    decreases |a|
  {
    if |a| >= FRAME_BYTES {
      assert (a + b)[..FRAME_BYTES] == a[..FRAME_BYTES];
      assert (a + b)[FRAME_BYTES..] == a[FRAME_BYTES..] + b;
      DrainAppend(p, Step(p, s, Voiced(Samples(a[..FRAME_BYTES]))).0, a[FRAME_BYTES..], b);
    }
  }

  /** Any number of Feed calls, up to the first that returns a verdict: the
      state and remainder left, the verdict, and the number of calls made. */
  function FeedAll(p: Params, s: Snapshot, accum: seq<Byte>, chunks: seq<seq<Byte>>):
      (r: (Snapshot, seq<Byte>, Option<Detection>, nat))
    ensures r.3 <= |chunks|
    decreases |chunks|
  {
    if chunks == [] then (s, accum, None, 0)
    else
      var (t, rest, det) := Drain(p, s, accum + chunks[0]);
      if det.Some? then (t, rest, det, 1)
      else
        var (u, left, verdict, calls) := FeedAll(p, t, rest, chunks[1..]);
        (u, left, verdict, calls + 1)
  }

  /** What a chunked feed returned, against draining everything fed so far. */
  ghost predicate FedLikeDrain(p: Params, s: Snapshot, accum: seq<Byte>, chunks: seq<seq<Byte>>) {
    var (t, rest, det, calls) := FeedAll(p, s, accum, chunks);
    && (t, rest, det) == Drain(p, s, accum + Concat(chunks[..calls]))
    && (det.None? ==> calls == |chunks|)
    && (det.Some? ==> calls > 0 && Drain(p, s, accum + Concat(chunks[..calls - 1])).2.None?)
  }

  /** The last call of a chunked feed sees exactly the bytes fed so far. */
  lemma {:induction false} FeedAllIsDrain(p: Params, s: Snapshot, accum: seq<Byte>, chunks: seq<seq<Byte>>)
    requires Drain(p, s, accum) == (s, accum, None)
    ensures FedLikeDrain(p, s, accum, chunks)
    decreases |chunks|
  {
    if chunks == [] {
      assert accum + Concat([]) == accum;
    } else {
      var (t, rest, det) := Drain(p, s, accum + chunks[0]);
      if det.Some? {
        FedInOneCall(p, s, accum, chunks);
      } else {
        DrainStops(p, s, accum + chunks[0]);
        FeedAllIsDrain(p, t, rest, chunks[1..]);
        FedInLaterCalls(p, s, accum, chunks);
      }
    }
  }

  lemma FedInOneCall(p: Params, s: Snapshot, accum: seq<Byte>, chunks: seq<seq<Byte>>)
    requires chunks != [] && Drain(p, s, accum + chunks[0]).2.Some? && Drain(p, s, accum).2.None?
    ensures FedLikeDrain(p, s, accum, chunks)
  {
    FirstChunk(accum, chunks, 1);
    assert chunks[1..][..0] == [];
    assert (accum + chunks[0]) + Concat([]) == accum + chunks[0];
    assert accum + Concat(chunks[..0]) == accum;
  }

  lemma FedInLaterCalls(p: Params, s: Snapshot, accum: seq<Byte>, chunks: seq<seq<Byte>>)
    requires chunks != [] && Drain(p, s, accum + chunks[0]).2.None?
    requires var (t, rest, _) := Drain(p, s, accum + chunks[0]);
             FedLikeDrain(p, t, rest, chunks[1..])
    ensures FedLikeDrain(p, s, accum, chunks)
  {
    var (t, rest, _) := Drain(p, s, accum + chunks[0]);
    var (_, _, verdict, calls) := FeedAll(p, t, rest, chunks[1..]);
    LaterCalls(p, s, accum, chunks, calls);
    if verdict.Some? {
      LaterCalls(p, s, accum, chunks, calls - 1);
    }
  }

  /** After an undecided first call, later calls continue from its remainder. */
  lemma LaterCalls(p: Params, s: Snapshot, accum: seq<Byte>, chunks: seq<seq<Byte>>, n: nat)
    requires n < |chunks| && Drain(p, s, accum + chunks[0]).2.None?
    ensures var (t, rest, _) := Drain(p, s, accum + chunks[0]);
            Drain(p, s, accum + Concat(chunks[..n + 1])) == Drain(p, t, rest + Concat(chunks[1..][..n]))
  {
    FirstChunk(accum, chunks, n + 1);
    DrainAppend(p, s, accum + chunks[0], Concat(chunks[1..][..n]));
  }

  lemma FirstChunk(accum: seq<Byte>, chunks: seq<seq<Byte>>, n: nat)
    requires 0 < n <= |chunks|
    ensures accum + Concat(chunks[..n]) == (accum + chunks[0]) + Concat(chunks[1..][..n - 1])
  {
    assert chunks[..n][1..] == chunks[1..][..n - 1];
  }

  /** What an undecided drain leaves holds no whole frame. */
  lemma {:induction false} DrainStops(p: Params, s: Snapshot, buf: seq<Byte>)
    requires Drain(p, s, buf).2.None?
    ensures var (t, rest, _) := Drain(p, s, buf);
            && |rest| == |buf| % FRAME_BYTES
            && Drain(p, t, rest) == (t, rest, None)
    decreases |buf|
  {
    if |buf| >= FRAME_BYTES {
      assert (|buf| - FRAME_BYTES) % FRAME_BYTES == |buf| % FRAME_BYTES;
      DrainStops(p, Step(p, s, Voiced(Samples(buf[..FRAME_BYTES]))).0, buf[FRAME_BYTES..]);
    }
  }

  /** A verdict on the first bytes is the verdict on all of them. */
  lemma VerdictStands(p: Params, s: Snapshot, a: seq<Byte>, b: seq<Byte>)
    ensures Run(p, s, Voices(a)).1.Some? ==> Run(p, s, Voices(a + b)).1 == Run(p, s, Voices(a)).1
  {
    DrainAppend(p, s, a, b);
    DrainIsRun(p, s, a);
    DrainIsRun(p, s, a + b);
  }

  lemma VerdictOfAll(p: Params, s: Snapshot, chunks: seq<seq<Byte>>, n: nat)
    requires n <= |chunks|
    ensures var det := Run(p, s, Voices(Concat(chunks[..n]))).1;
            det.Some? ==> Run(p, s, Voices(Concat(chunks))).1 == det
  {
    assert chunks == chunks[..n] + chunks[n..];
    ConcatAppend(chunks[..n], chunks[n..]);
    VerdictStands(p, s, Concat(chunks[..n]), Concat(chunks[n..]));
  }

  lemma FeedAllFresh(p: Params, s: Snapshot, chunks: seq<seq<Byte>>)
    ensures var (t, rest, det, calls) := FeedAll(p, s, [], chunks);
            && (t, rest, det) == Drain(p, s, Concat(chunks[..calls]))
            && (det.None? ==> calls == |chunks|)
            && (det.Some? ==> calls > 0 && Drain(p, s, Concat(chunks[..calls - 1])).2.None?)
  {
    FeedAllIsDrain(p, s, [], chunks);
    var (t, rest, det, calls) := FeedAll(p, s, [], chunks);
    assert [] + Concat(chunks[..calls]) == Concat(chunks[..calls]);
    if det.Some? {
      assert [] + Concat(chunks[..calls - 1]) == Concat(chunks[..calls - 1]);
    }
  }

  /** Chunking does not matter: from any state of the machine with an empty
      accumulator, however a stream is split into calls, the first verdict is
      that of stepping the concatenated stream frame by frame, it comes from the
      first call whose bytes complete the deciding frame, and what is retained is
      the unconsumed suffix, less than a frame while undecided. */
  lemma ChunkingDoesNotMatter(p: Params, s: Snapshot, chunks: seq<seq<Byte>>)
    ensures var (t, rest, det, calls) := FeedAll(p, s, [], chunks);
            var fed := Concat(chunks[..calls]);
            && (t, det) == Run(p, s, Voices(fed))
            && det == Run(p, s, Voices(Concat(chunks))).1
            && (det.Some? ==> calls > 0 && Run(p, s, Voices(Concat(chunks[..calls - 1]))).1.None?)
            && (det.None? ==> calls == |chunks|)
            && FRAME_BYTES * Used(p, s, Voices(fed)) <= |fed|
            && rest == fed[FRAME_BYTES * Used(p, s, Voices(fed))..]
            && (det.None? ==> |rest| == |fed| % FRAME_BYTES)
  {
    var (t, rest, det, calls) := FeedAll(p, s, [], chunks);
    FeedAllFresh(p, s, chunks);
    DrainIsRun(p, s, Concat(chunks[..calls]));
    if det.None? {
      assert chunks[..calls] == chunks;
      DrainStops(p, s, Concat(chunks));
    } else {
      VerdictOfAll(p, s, chunks, calls);
      DrainIsRun(p, s, Concat(chunks[..calls - 1]));
    }
  }

  // ---- Pull mode ----

  /** What the blocking Run returns on a stream that delivers `stream` and then
      fails, with the context observed as cancelled before the i-th frame. */
  function Pull(p: Params, s: Snapshot, stream: seq<Byte>, cancelled: nat -> bool, i: nat): Detection
    decreases |stream|
  {
    if cancelled(i) || |stream| < FRAME_BYTES then Report(NotSure, s)
    else
      var (t, det) := Step(p, s, Voiced(Samples(stream[..FRAME_BYTES])));
      if det.Some? then det.value else Pull(p, t, stream[FRAME_BYTES..], cancelled, i + 1)
  }

  /** Without cancellation the pull mode returns the verdict of the frames, and
      not_sure with the measurements so far when they hold none. */
  lemma {:induction false} PullIsRun(p: Params, s: Snapshot, stream: seq<Byte>, cancelled: nat -> bool, i: nat)
    requires forall k | i <= k < i + Used(p, s, Voices(stream)) + 1 :: !cancelled(k)
    ensures var (t, det) := Run(p, s, Voices(stream));
            Pull(p, s, stream, cancelled, i) == if det.Some? then det.value else Report(NotSure, t)
    decreases |stream|
  {
    if |stream| >= FRAME_BYTES {
      var rest := stream[FRAME_BYTES..];
      assert Voices(stream)[1..] == Voices(rest);
      var (t, det) := Step(p, s, Voices(stream)[0]);
      if det.None? {
        PullIsRun(p, t, rest, cancelled, i + 1);
      }
    }
  }

  /** Push and pull agree: when the stream holds a verdict, every chunking of it
      feeds to the Detection that the blocking Run returns. */
  lemma PushAgreesWithPull(p: Params, chunks: seq<seq<Byte>>, cancelled: nat -> bool)
    requires forall k: nat :: !cancelled(k)
    requires FeedAll(p, START, [], chunks).2.Some?
    ensures FeedAll(p, START, [], chunks).2 == Some(Pull(p, START, Concat(chunks), cancelled, 0))
  {
    ChunkingDoesNotMatter(p, START, chunks);
    PullIsRun(p, START, Concat(chunks), cancelled, 0);
  }

  /** On a stream without a verdict they differ only in what a silent line is
      called: the pull mode says not_sure, the deadline of the push mode says
      no_speech while still waiting; the measurements are the same. */
  lemma ExhaustedStream(p: Params, chunks: seq<seq<Byte>>, cancelled: nat -> bool)
    requires p.Positive() && forall k: nat :: !cancelled(k)
    requires FeedAll(p, START, [], chunks).2.None?
    ensures var s := FeedAll(p, START, [], chunks).0;
            var pulled := Pull(p, START, Concat(chunks), cancelled, 0);
            && pulled.result == NotSure
            && DeadlineReport(s) == if s.phase == WaitingForSpeech then pulled.(result := NoSpeech) else pulled
  {
    ChunkingDoesNotMatter(p, START, chunks);
    assert chunks[..|chunks|] == chunks;
    PullIsRun(p, START, Concat(chunks), cancelled, 0);
    RunKeeps(p, START, Voices(Concat(chunks)));
  }
}
