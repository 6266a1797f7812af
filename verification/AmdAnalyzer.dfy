/** The analyzer object: the push surface that keeps its state between calls,
    and the two blocking loops that keep their own (internal/amd/amd.go). */
module AmdAnalyzer {
  import opened Wrappers
  import opened ByteStreams
  import opened AmdParams
  import opened AmdFsm
  import opened AmdStream
  import opened AmdBeep

  class Analyzer {
    const params: Params
    const tone: Tone

    const feedState: FsmState
    const feedAccum: Accumulator

    const beepDet: BeepDetector
    const beepAccum: Accumulator
    var beepWaited: int

    const frameSamples: array<Int16>

    ghost predicate Valid()
      reads feedAccum, beepAccum
    {
      && frameSamples.Length == SAMPLES_PER_FRAME
      && beepDet.minFrames == BEEP_MIN_FRAMES && beepDet.tone == tone
      && feedAccum.Valid() && beepAccum.Valid()
      && feedAccum != beepAccum && feedAccum.buf != beepAccum.buf
      && feedAccum.buf as object != frameSamples && beepAccum.buf as object != frameSamples
    }

    /** The bytes fed and not yet consumed. */
    ghost function Fed(): seq<Byte>
      requires feedAccum.Valid()
      reads feedAccum, feedAccum.buf
    {
      feedAccum.Contents()
    }

    ghost function FedBeep(): seq<Byte>
      requires beepAccum.Valid()
      reads beepAccum, beepAccum.buf
    {
      beepAccum.Contents()
    }

    function HeardBeeps(): Ear
      reads beepDet
    {
      Ear(beepDet.consecutiveFrames, beepDet.detected)
    }

    constructor (params: Params, tone: Tone)
      ensures Valid() && this.params == params && this.tone == tone
      ensures feedState.View() == START && Fed() == []
      ensures HeardBeeps() == FRESH_EAR && FedBeep() == [] && beepWaited == 0
      ensures fresh(feedState) && fresh(feedAccum) && fresh(feedAccum.buf)
      ensures fresh(beepDet) && fresh(beepAccum) && fresh(beepAccum.buf) && fresh(frameSamples)
    {
      this.params, this.tone := params, tone;
      feedState := new FsmState();
      feedAccum := new Accumulator();
      beepDet := new BeepDetector(tone, BEEP_MIN_FRAMES);
      beepAccum := new Accumulator();
      beepWaited := 0;
      frameSamples := new Int16[SAMPLES_PER_FRAME];
    }

    /** One push of bytes: drains every complete frame, stops at a verdict, and
        moves the unconsumed tail to the front of the accumulator. */
    method Feed(pcm: seq<Byte>) returns (det: Option<Detection>)
      requires Valid()
      modifies feedAccum, feedAccum.buf, feedState, frameSamples
      ensures Valid() && (feedAccum.buf == old(feedAccum.buf) || fresh(feedAccum.buf))
      ensures (feedState.View(), Fed(), det) == Drain(params, old(feedState.View()), old(Fed()) + pcm)
    {
      feedAccum.Append(pcm);
      var off;
      off, det := Classify();
      feedAccum.Compact(off);
    }

    /** The loop of Feed: how far it gets, and the verdict that stops it. */
    method Classify() returns (off: nat, det: Option<Detection>)
      requires Valid()
      modifies feedState, frameSamples
      ensures off <= feedAccum.len
      ensures (feedState.View(), Fed()[off..], det) == Drain(params, old(feedState.View()), Fed())
    {
      ghost var all := Fed();
      off := 0;
      while feedAccum.len - off >= FRAME_BYTES
        invariant off <= feedAccum.len
        invariant Drain(params, old(feedState.View()), all) == Drain(params, feedState.View(), all[off..])
      {
        var frame := feedAccum.buf[off..off + FRAME_BYTES];
        assert all[off..][..FRAME_BYTES] == frame;
        assert all[off..][FRAME_BYTES..] == all[off + FRAME_BYTES..];
        DecodeFrame(frame, frameSamples);
        off := off + FRAME_BYTES;
        det := feedState.Advance(params, frameSamples);
        if det.Some? {
          return;
        }
      }
      det := None;
    }

    method OnDeadline() returns (det: Detection)
      ensures det == DeadlineReport(feedState.View())
    {
      det := feedState.OnDeadline();
    }

    /** One push of bytes to the beep detector. */
    method FeedBeep(pcm: seq<Byte>) returns (beep: Option<BeepResult>)
      requires Valid()
      modifies `beepWaited, beepAccum, beepAccum.buf, beepDet, frameSamples
      ensures Valid() && (beepAccum.buf == old(beepAccum.buf) || fresh(beepAccum.buf))
      ensures (HeardBeeps(), beepWaited, FedBeep(), beep) ==
              BeepDrain(tone, params.beepTimeout, old(HeardBeeps()), old(beepWaited), old(FedBeep()) + pcm)
    {
      beepAccum.Append(pcm);
      var off;
      off, beep := Listen();
      beepAccum.Compact(off);
    }

    /** The loop of FeedBeep. */
    method Listen() returns (off: nat, beep: Option<BeepResult>)
      requires Valid()
      modifies `beepWaited, beepDet, frameSamples
      ensures off <= beepAccum.len
      ensures (HeardBeeps(), beepWaited, FedBeep()[off..], beep) ==
              BeepDrain(tone, params.beepTimeout, old(HeardBeeps()), old(beepWaited), FedBeep())
    {
      ghost var all := FedBeep();
      off := 0;
      while beepAccum.len - off >= FRAME_BYTES
        invariant off <= beepAccum.len
        invariant BeepDrain(tone, params.beepTimeout, old(HeardBeeps()), old(beepWaited), all) ==
                  BeepDrain(tone, params.beepTimeout, HeardBeeps(), beepWaited, all[off..])
      {
        if beepWaited >= params.beepTimeout {
          return off, Some(NO_BEEP);
        }
        var frame := beepAccum.buf[off..off + FRAME_BYTES];
        assert all[off..][..FRAME_BYTES] == frame;
        assert all[off..][FRAME_BYTES..] == all[off + FRAME_BYTES..];
        DecodeFrame(frame, frameSamples);
        off := off + FRAME_BYTES;
        beepWaited := beepWaited + FRAME;
        var confirmed := beepDet.Feed(frameSamples);
        if confirmed {
          return off, Some(BeepResult(true, Millis(beepWaited)));
        }
      }
      beep := None;
    }

    /** The blocking classification of a stream, with its own local state. */
    method Run(stream: seq<Byte>, cancelled: nat -> bool) returns (det: Detection)
      ensures det == Pull(params, START, stream, cancelled, 0)
    {
      var samples := new Int16[SAMPLES_PER_FRAME];
      var st := new FsmState();
      var read, i := 0, 0;
      while true
        invariant 0 <= read <= |stream|
        invariant Pull(params, START, stream, cancelled, 0) == Pull(params, st.View(), stream[read..], cancelled, i)
        decreases |stream| - read
      {
        if cancelled(i) || |stream| - read < FRAME_BYTES {
          return Detection(NotSure, Millis(st.initialSilence), Millis(st.greetingDur), Millis(st.elapsed));
        }
        var buf := stream[read..read + FRAME_BYTES];
        assert stream[read..][..FRAME_BYTES] == buf;
        assert stream[read..][FRAME_BYTES..] == stream[read + FRAME_BYTES..];
        read := read + FRAME_BYTES;
        DecodeFrame(buf, samples);
        var verdict := st.Advance(params, samples);
        if verdict.Some? {
          return verdict.value;
        }
        i := i + 1;
      }
    }

    /** The blocking wait for a beep, with its own local state. */
    method WaitForBeep(stream: seq<Byte>, cancelled: nat -> bool) returns (beep: BeepResult)
      ensures beep == BeepPull(tone, params.beepTimeout, FRESH_EAR, 0, stream, cancelled, 0)
    {
      var bd := new BeepDetector(tone, BEEP_MIN_FRAMES);
      var samples := new Int16[SAMPLES_PER_FRAME];
      var waited, read, i := 0, 0, 0;
      while waited < params.beepTimeout
        invariant 0 <= read <= |stream|
        invariant bd.tone == tone && bd.minFrames == BEEP_MIN_FRAMES
        invariant BeepPull(tone, params.beepTimeout, FRESH_EAR, 0, stream, cancelled, 0) ==
                  BeepPull(tone, params.beepTimeout, Ear(bd.consecutiveFrames, bd.detected), waited,
                           stream[read..], cancelled, i)
        decreases |stream| - read
      {
        if cancelled(i) || |stream| - read < FRAME_BYTES {
          return NO_BEEP;
        }
        var buf := stream[read..read + FRAME_BYTES];
        assert stream[read..][..FRAME_BYTES] == buf;
        assert stream[read..][FRAME_BYTES..] == stream[read + FRAME_BYTES..];
        read := read + FRAME_BYTES;
        DecodeFrame(buf, samples);
        waited := waited + FRAME;
        var confirmed := bd.Feed(samples);
        if confirmed {
          return BeepResult(true, Millis(waited));
        }
        i := i + 1;
      }
      return NO_BEEP;
    }
  }
}
