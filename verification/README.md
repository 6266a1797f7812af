# VoiceBlender: a verified model of its call-audio state machines

VoiceBlender bridges SIP, WebRTC and streamed audio. Around its media path sit a
number of small state machines whose correctness is argued in comments: answering
machine detection and the driver that races it against a deadline, speculative
speech synthesis, audio queues between clocks, parked transfers, and the
bookkeeping of recordings. This project models them in Dafny and proves what those
comments promise, or shows exactly when the code does not keep the promise.

`dafny verify dfyconfig.toml` checks everything.

## How the modules fit together

| file | models |
|---|---|
| `Int64.dfy`, `ByteStreams.dfy`, `Wrappers.dfy` | Go's 64-bit integers, bytes and samples, optional values and results |
| `AmdParams.dfy` | detection thresholds, 64-bit validation arithmetic, exact rounding |
| `AmdFsm.dfy` | one 20 ms step of the detector, as the object that is stepped and as a function |
| `AmdRuns.dfy` | runs of the detector: invariants, time accounting, what a greeting consists of |
| `AmdReach.dfy` | which verdicts can be reached at all, and how exact validation is |
| `AmdStream.dfy` | byte streams cut into frames; push against pull |
| `AmdBeep.dfy` | the beep detector and its push and pull forms |
| `AmdAnalyzer.dfy` | the analyzer object with its accumulators and loops |
| `AmdDriver.dfy` | the read loop and the deadline goroutine racing for one verdict |
| `AmdSession.dfy` | driver and analyzer together, over the bytes the leg delivers |
| `TtsStaging.dfy` | staged utterances: synthesis, watcher, commit, discard, registry |
| `StreamBuffer.dfy` | the paced byte queue and the forwarder of agent speech |
| `LossyPipe.dfy` | the bounded pipe that drops rather than blocks |
| `PendingRefer.dfy` | parked REFERs (section 2.4.4 of RFC 3515) |
| `MultiChannel.dfy` | per-leg captures of a room recording: the lock regions and the object |
| `MultiChannelRuns.dfy` | every history of them, and the merge |
| `MultiChannelTaps.dfy` | whether a running capture is fed |
| `MultiChannelPause.dfy` | pausing and resuming the room meanwhile |
| `SiprecSelect.dfy` | party selection and metadata of a recording session (section 6.7 of RFC 7865) |
| `Wav.dfy` | the WAV writer and the chunk-walking reader |

State that the source updates in place is a class, whose methods are proved against
functions on a value (the class's `View` or `Contents`); those functions carry the
theorems. Concurrent code is a state machine in which every lock region and every
lock-free action is one atomic step. The same region functions specify the class
methods and drive the state machine, so the theorems over all schedules are about
the methods' own effects.

## Modelling decisions

- A frame is voiced when its RMS is at least 300. That is the exact integer test
  `sum of squares >= 90000 * n`: a sum of at most 320 squares of 16-bit samples is
  far below 2^53, so the float accumulation is exact, and the gap between the
  integers on either side of the threshold is too wide for the division and the
  square root to round across it.
- `isTonal` is an arbitrary predicate on the samples of a frame.
- Durations in validation and merging are 64-bit and wrap. The detector's own
  counters are unbounded integers; `AmdRuns.TimeAccounting` shows that while a run
  is undecided all of them stay below the total analysis time, so none can wrap.
- The wall clock, timers, the leg's context, what synthesis returns, whether a
  writer accepts a frame, whether a capture is finalized and which ready branch a
  `select` takes are inputs of a step, or steps of the environment.
- Go strings compare by bytes; a character of a string here stands for one byte.

## Where the code and its promises differ

- `Validate` promises that an accepted window can reach a verdict. Of all
  positive 64-bit thresholds, two families break it. `BlindWindow`: a greeting
  threshold of one frame or less, an analysis of two to three frames, and an initial
  silence as long. `WrappedCheckPasses`: a threshold so long that its rounding or a
  sum wraps. `AmdReach.ValidationIsExact` says exactly when, and both can be asked
  for (`AmdReach.BlindRequest`, `AmdReach.RoundingCanWrap`).
- `MergeMillis` promises that a negative override is refused. It is, unless the
  conversion to nanoseconds wraps (`AmdParams.OverrideKeepsSign`).
- A staged utterance that was committed can still be reported discarded: the stage
  is overwritten before it is compared with "committed". That can happen exactly
  when the commit found the utterance still synthesizing
  (`TtsStaging.CommitReportedDiscardedExactly`). The "already committed" answer of
  a commit cannot occur (`TtsStaging.NotFoundAgain`, `TtsStaging.RegistryInvariant`).
- `TryRead` promises the end only with nothing queued. A call that finds nothing can
  break the promise exactly when, as it begins, the pipe is not closed or a `Write`
  of some bytes is under way (`LossyPipe.TryReadEndsEarlyExactly`).
- A second REFER on a leg displaces the first, which is then never answered
  (`PendingRefer.DisplacedIsForgotten`), and whose timer can decline the second
  before its own window is over (`PendingRefer.TimedOutByAnotherExactly`).
- "Staged" can be announced of an utterance that was already committed, exactly when
  the commit falls between the region in which synthesis settles and the
  announcement (`TtsStaging.AnnouncedAfterCommitExactly`).
- After a rejoin, a merged channel can be placed at the wrong offset
  (`MultiChannelRuns.JoinOffsetMatches` says exactly when). A leg can be reported
  omitted and its capture published afterwards, exactly when a stop of it was under
  way as the recording was stopped (`MultiChannelRuns.OmittedTooEarlyExactly`).
- A capture can record silence. A participant has one record tap; room recording
  sessions set and clear it too, and a participant rebuilt for a new sample rate
  starts without it. `MultiChannelTaps.FedExactlyWhenQuiet` says which starts are
  safe, `MultiChannelTaps.FedUntilTaken` what takes the tap away later, and
  `CaptureLosesItsTap`, `EndingSessionSilences` and `HurriedRejoinIsSilent` are
  histories in which it happens.
- A pause can fail to silence a capture: overlapping pauses and resumes sweep the
  recorders in no order. `MultiChannelPause.PauseHoldsExactly` says at which requests,
  `MultiChannelPause.PauseCanBeOvertaken` is a history.
- `readWAV` returns what `writeWAV` wrote for exactly the inputs that fit the 32-bit
  fields (`Wav.RoundTrip`).

## Model

| member | source | states |
|---|---|---|
| `AmdParams.AnalysisFramesRoundsUp` | internal/amd/params.go:86-89 | the 64-bit rounding is rounding up to whole frames up to the last representable frame, and negative beyond it |
| `AmdParams.RoundUpIsThreshold` | internal/amd/params.go:56-61 | a verdict fires at the first frame boundary at or past its threshold: a frame multiple passes a threshold iff it passes the rounded one |
| `AmdParams.ChecksAgainstExactWindows` | internal/amd/params.go:62-84 | the three checks never refuse a window that exact arithmetic accepts, and equal it while no threshold is near the 64-bit limit |
| `AmdParams.OverrideKeepsSign` | internal/amd/params.go:94-98 | a negative override stays negative iff its reduced nanoseconds do |
| `AmdParams.NegativeOverrideRefused` | internal/amd/params.go:91-120 | any surviving negative override makes the merged thresholds invalid, whatever the other five are |
| `AmdParams.NegativeOverrideCanWrap` | internal/amd/params.go:99-120 | a concrete negative override that is accepted |
| `AmdFsm.Energy` | internal/amd/amd.go:426-435 | the accumulated energy is the sum of squares of the whole frame |
| `AmdFsm.IsVoiced` | internal/amd/amd.go:149-154 | the threshold test on a frame |
| `AmdFsm.FsmState.Advance` | internal/amd/amd.go:149-247 | one step changes the whole state and reports as the step function says |
| `AmdFsm.FsmState.Debounce` | internal/amd/amd.go:153-167 | the debounced voice activity: on after two voiced frames, off after four silent ones |
| `AmdFsm.FsmState.AwaitSpeech` | internal/amd/amd.go:180-194 | the waiting phase |
| `AmdFsm.FsmState.FollowGreeting` | internal/amd/amd.go:196-239 | the greeting phase with noise bursts, human and machine verdicts and fallback |
| `AmdFsm.FsmState.OnDeadline` | internal/amd/amd.go:319-337 | the verdict at a wall-clock deadline, with the measurements so far |
| `AmdRuns.RunAppend` | internal/amd/amd.go:146-149 | a verdict ends the run; an undecided run can be continued frame by frame |
| `AmdRuns.StepKeeps` | internal/amd/amd.go:149-247 | the invariant of every run, and what each verdict costs in analysed time |
| `AmdRuns.TimeAccounting` | internal/amd/amd.go:134-247 | initial silence, greeting and current silence are frame multiples that fit the elapsed time; waiting means no greeting and no speech |
| `AmdRuns.VerdictReportsFit` | internal/amd/amd.go:169-232 | every reported verdict: silence plus greeting fit the total, which fits the frames fed |
| `AmdRuns.DeadlineVerdict` | internal/amd/amd.go:326-337 | at any deadline: no_speech iff still waiting, and the same bound on the report |
| `AmdRuns.RunEnds` | internal/amd/amd.go:169-177 | every run ends within the total analysis time rounded up to frames |
| `AmdRuns.TailMeans` | internal/amd/amd.go:141-142 | the run length of equal frames at the end of a stream, by its definition |
| `AmdRuns.GreetingIsCountedTalk` | internal/amd/amd.go:180-239 | while undecided, the greeting duration is the finished bursts of at least the minimum word length plus the open burst, read off the frames alone, and a deadline reports it |
| `AmdRuns.ReportedGreetingIsCountedTalk` | internal/amd/amd.go:169-232 | every verdict comes at the frame it reports and reports the speech counted up to there: without that frame at the hard deadline, with it otherwise |
| `AmdReach.NoSpeechWitness` | internal/amd/params.go:62-64 | a run that ends in no_speech, built from the thresholds |
| `AmdReach.MachineWitness` | internal/amd/params.go:70-72 | a run that ends in machine |
| `AmdReach.HumanWitness` | internal/amd/params.go:78-84 | a run that ends in human |
| `AmdReach.ReachableExactly` | internal/amd/amd.go:149-247 | for each verdict: some frame sequence produces it iff an arithmetic condition on the thresholds holds |
| `AmdReach.VerdictImpliesCheck` | internal/amd/params.go:56-84 | a verdict of any run implies the check made for it, for all positive 64-bit thresholds |
| `AmdReach.RefusedIsNeverUseful` | internal/amd/params.go:45-52 | a window refused for reachability ends every run not_sure |
| `AmdReach.UsefulUnlessHopeless` | internal/amd/params.go:45-52 | some verdict is reachable iff the analysis outlasts one of three sums |
| `AmdReach.ValidationIsExact` | internal/amd/params.go:24-54 | over all positive 64-bit thresholds, Validate accepts exactly the useful windows iff the window is neither blind nor hopeless with a wrapped sum that passes |
| `AmdReach.ValidationIsExactWithinClock` | internal/amd/params.go:24-54 | away from the 64-bit limit only blind windows are misjudged, and none with a greeting threshold above one frame |
| `AmdReach.BlindRequest` | internal/api/legs.go:1891-1903 | a request for a blind window, accepted although no run decides |
| `AmdReach.RoundingCanWrap` | internal/api/legs.go:1891-1903 | a request whose windows wrap, accepted although no run decides |
| `AmdStream.DecodeFrame` | internal/amd/amd.go:303-307 | the bytes of a frame as little-endian samples, into the reused array |
| `AmdStream.DrainIsRun` | internal/amd/amd.go:301-316 | draining a buffer is stepping its whole frames; what stays is the unconsumed tail |
| `AmdStream.DrainAppend` | internal/amd/amd.go:288-316 | a buffer drained in two parts behaves as drained at once |
| `AmdStream.ChunkingDoesNotMatter` | internal/amd/amd.go:288-317 | for every chunking: the verdict, the call it comes from, and the retained remainder are those of the concatenated stream |
| `AmdStream.PullIsRun` | internal/amd/amd.go:252-286 | the blocking loop returns the verdict of the stream's frames, or not_sure with its measurements |
| `AmdStream.PushAgreesWithPull` | internal/amd/amd.go:249-317 | every chunking of a deciding stream yields the Detection of the blocking loop |
| `AmdStream.ExhaustedStream` | internal/amd/amd.go:266-337 | on an undecided stream both report the same measurements and differ only in calling a silent line no_speech |
| `AmdBeep.BeepDetector.Feed` | internal/amd/beep.go:37-52 | one frame of the consecutive-tone counter |
| `AmdBeep.PushBeep` | internal/amd/amd.go:381-422 | for every chunking: the first run of four tonal frames that ends in the window, at its time; a timeout exactly when one more whole frame arrives |
| `AmdBeep.PushResultIsDetermined` | internal/amd/amd.go:381-390 | that description leaves one possible result |
| `AmdBeep.PullBeep` | internal/amd/amd.go:347-379 | the blocking wait reports that same beep or none |
| `AmdBeep.PushAgreesWithPull` | internal/amd/amd.go:347-422 | both forms agree on every stream and chunking |
| `ByteStreams.Accumulator.Append` | internal/amd/amd.go:298-298 | appending in place or into a larger array |
| `ByteStreams.Accumulator.Compact` | internal/amd/amd.go:83-90 | the unconsumed tail is shifted to the front in place, and the array kept |
| `AmdAnalyzer.Analyzer.Feed` | internal/amd/amd.go:297-317 | the push with its accumulator: state, remainder and verdict are those of draining |
| `AmdAnalyzer.Analyzer.Classify` | internal/amd/amd.go:301-313 | its loop over the whole frames, up to a verdict |
| `AmdAnalyzer.Analyzer.OnDeadline` | internal/amd/amd.go:326-337 | the deadline report of the push state |
| `AmdAnalyzer.Analyzer.FeedBeep` | internal/amd/amd.go:392-422 | the push to beep detection and all it leaves behind |
| `AmdAnalyzer.Analyzer.Listen` | internal/amd/amd.go:399-418 | its loop, with the window tested before each frame |
| `AmdAnalyzer.Analyzer.Run` | internal/amd/amd.go:252-286 | the blocking classification loop |
| `AmdAnalyzer.Analyzer.WaitForBeep` | internal/amd/amd.go:350-379 | the blocking beep loop |
| `AmdDriver.LegTap.ClearIfMine` | internal/leg/sip_leg.go:1648-1661 | compare-and-clear of the tap |
| `AmdDriver.Driver.EnterWrite` | internal/api/legs.go:1699-1752 | the first region of Write: a done driver leaves the analyzer alone, a beeping one feeds only beep detection, any other only classification |
| `AmdDriver.Driver.Resolve` | internal/api/legs.go:1756-1766 | the second region: pending ends, a lost tap ends the analysis |
| `AmdDriver.Driver.ContinueWrite` | internal/api/legs.go:1711-1774 | the rest of Write, action by action |
| `AmdDriver.Driver.ContextEnded` | internal/api/legs.go:1786-1793 | the context branch of the watcher |
| `AmdDriver.Driver.DeadlineFired` | internal/api/legs.go:1796-1817 | the deadline region, deferring to a pending verdict |
| `AmdDriver.Driver.ContinueWatch` | internal/api/legs.go:1784-1828 | the watcher, action by action |
| `AmdDriver.PublishesAtMostOnce` | internal/api/legs.go:1830-1834 | over all interleavings: at most one amd.result and one amd.beep, the beep after its machine result, each after its publisher reached it and passed an ownership test of its own, and no feeding of a done driver |
| `AmdDriver.QuiescentDriver` | internal/api/legs.go:1745-1828 | at quiescence the driver's tap is gone, and an undisturbed analysis published exactly one result, wherever the deadline fell |
| `AmdDriver.DriverSettles` | internal/api/legs.go:1667-1676 | until quiescent some goroutine can step, and their steps are bounded: nobody parks |
| `AmdSession.PlayIsSchedule` | internal/api/legs.go:1699-1828 | driver and analyzer together only do what some schedule of the driver does |
| `AmdSession.ResultsAreTruthful` | internal/api/legs.go:1699-1828 | over all interleavings: the read loop publishes the verdict of the frames written while the analysis ran, the watcher the deadline report of a run they left undecided, and a beep is the first one in its window |
| `AmdSession.HeardIsWhatWasWritten` | internal/api/legs.go:1699-1752 | the bytes fed to the classifier and then to the beep detector are a prefix of those written, and all of them until the analysis is done |
| `AmdSession.Deliver` | internal/api/legs.go:1699-1752 | Write on the driver object and its analyzer is the step of the session |
| `AmdSession.OneTruthfulResult` | internal/api/legs.go:1830-1834 | an undisturbed session at rest has published exactly one such result |
| `TtsStaging.Collect` | internal/api/tts_preflight.go:143-156 | buffering succeeds iff the provider delivered at most the limit, and then holds every byte |
| `TtsStaging.InsertEffect` | internal/api/tts_preflight.go:122-125 | staging one utterance leaves every other lookup alone |
| `TtsStaging.RemoveEffect` | internal/api/tts_preflight.go:253-256 | so does removing one |
| `TtsStaging.Registry.Register` | internal/api/tts_preflight.go:115-126 | refuse, never evict, at the per-leg limit |
| `TtsStaging.Registry.Settle` | internal/api/tts_preflight.go:158-180 | the region in which synthesis settles |
| `TtsStaging.Registry.Discard` | internal/api/tts_preflight.go:243-257 | at most one discard wins, none after commit or failure |
| `TtsStaging.Registry.Commit` | internal/api/tts_preflight.go:275-291 | the region of a commit, with its two refusals |
| `TtsStaging.RegistryInvariant` | internal/api/tts_preflight.go:62-67 | always: registered iff synthesizing or ready, per-leg limit, no empty table, never both staged and in the player table |
| `TtsStaging.NotFoundAgain` | internal/api/tts_preflight.go:275-329 | a decided utterance is never found again by commit or discard |
| `TtsStaging.OneOutcome` | internal/api/tts_preflight.go:137-312 | over all interleavings: at most one outcome, exactly one once settled; playback of the complete audio iff committed and synthesized; both channels closed exactly once |
| `TtsStaging.CommitReportedDiscardedExactly` | internal/api/tts_preflight.go:158-199 | a commit that finds its utterance can end in a discard report iff the utterance was still synthesizing, and only for a leg that is gone |
| `TtsStaging.CommittedCanBeReportedDiscarded` | internal/api/tts_preflight.go:163-199 | so a commit sent at once can |
| `TtsStaging.AnnouncedAfterCommitExactly` | internal/api/tts_preflight.go:179-222 | tts.staged can follow a commit iff the commit fell between the settling region and the announcement |
| `TtsStaging.UtteranceSettles` | internal/api/tts_preflight.go:225-301 | watcher and commit goroutine always terminate: some step is possible until quiet, and each spends a bounded budget |
| `StreamBuffer.Buffer.Write` | internal/api/agent.go:41-51 | appends unless closed, and always reports full success |
| `StreamBuffer.Buffer.ReadUnpaced` | internal/api/agent.go:68-91 | waits for a full read or the end, delivers from the front and compacts |
| `StreamBuffer.Buffer.Close` | internal/api/agent.go:116-121 | closes and keeps what is buffered |
| `StreamBuffer.Buffer.Discard` | internal/api/agent.go:123-129 | empties and stays open |
| `StreamBuffer.Buffer.AwaitSlot` | internal/api/agent.go:93-114 | the slot of a read, the sleep to it, and the next slot |
| `StreamBuffer.Conservation` | internal/api/agent.go:41-129 | accepted bytes are, in order, what was read or discarded and what is buffered |
| `StreamBuffer.ReadsArePrefix` | internal/api/agent.go:75-91 | without discards the bytes read and the buffer are the accepted bytes |
| `StreamBuffer.ReadOutcome` | internal/api/agent.go:75-91 | short reads only after Close; the end only after Close with all bytes gone; waits exactly while open and short |
| `StreamBuffer.SlotsAdvance` | internal/api/agent.go:103-113 | slots are at least a pace apart, more only on a resync |
| `StreamBuffer.PacingBound` | internal/api/agent.go:20-25 | no read before its slot; with on-time sleeps k+1 reads span at least k-1 paces |
| `StreamBuffer.NoDrift` | internal/api/agent.go:93-97 | all slots lie on the first read's schedule iff no read is more than a pace late |
| `StreamBuffer.ForwardsEverything` | internal/api/agent.go:131-145 | without discards and write errors the accepted bytes are forwarded in order, whole frames but for the last, all of them when it stops |
| `StreamBuffer.ForwardSpeech` | internal/api/agent.go:133-145 | the loop on the buffer object does what the pump machine does |
| `LossyPipe.PipeWriter.Write` | internal/api/recording.go:1197-1212 | Write on each branch of its select: send, abandon or drop, and the counters |
| `LossyPipe.PipeWriter.Close` | internal/api/recording.go:1220-1225 | closing is done once |
| `LossyPipe.PipeReader.Receive` | internal/api/recording.go:1138-1149 | the remainder first, then one frame, keeping what does not fit |
| `LossyPipe.PipeReader.Read` | internal/api/recording.go:1138-1154 | delivers, ends or waits, and which of the first two when both are ready |
| `LossyPipe.PipeReader.TryRead` | internal/api/recording.go:1163-1185 | delivers, ends or reports nothing, as its two looks say |
| `LossyPipe.PipeAccounts` | internal/api/recording.go:1126-1225 | bytes read are a prefix of the accepted frames, at most 100 queued, and offered frames are accepted, dropped, abandoned or in hand |
| `LossyPipe.SealedForGood` | internal/api/recording.go:1197-1225 | once closed, empty and without a writer inside, everything accepted was delivered for good |
| `LossyPipe.TryReadCanEndEarly` | internal/api/recording.go:1156-1185 | a schedule in which TryRead reports the end with a frame queued |
| `LossyPipe.TryReadEndsEarlyExactly` | internal/api/recording.go:1156-1185 | a TryRead that finds nothing may report the end with bytes queued iff the pipe was not closed or a Write of some bytes was under way as it began |
| `LossyPipe.TryReadMisses` | internal/api/recording.go:1163-1185 | what it then leaves queued is exactly what was accepted between its two looks |
| `LossyPipe.TryReadEndsDrained` | internal/api/recording.go:1156-1160 | begun after Close with no write in flight, the promise holds |
| `PendingRefer.Store.Put` | internal/api/transfer.go:501-505 | parking replaces the leg's entry |
| `PendingRefer.Store.MarkAccepted` | internal/api/transfer.go:507-521 | the accept transition |
| `PendingRefer.Store.PeekAccepted` | internal/api/transfer.go:523-533 | finds the REFER that the progress operation progresses, and nothing when it does nothing |
| `PendingRefer.Store.TakeAccepted` | internal/api/transfer.go:535-545 | completion removes accepted entries only |
| `PendingRefer.Store.TakeIfPending` | internal/api/transfer.go:547-561 | decline and timeout remove undecided entries only |
| `PendingRefer.EveryLifeIsLegal` | internal/api/transfer.go:489-703 | over all histories: one winner of accept, decline and timeout; one completion, after the accept; nothing later |
| `PendingRefer.EveryReferHasOnePlace` | internal/api/transfer.go:489-495 | a parked REFER is stored, finished or displaced, exactly one of them |
| `PendingRefer.DisplacedIsForgotten` | internal/api/transfer.go:501-505 | no later operation, its own timer included, reaches a displaced REFER |
| `PendingRefer.SecondReferSilencesFirst` | internal/api/transfer.go:501-505 | so a second REFER leaves a pending first one without a decision |
| `PendingRefer.TimedOutByAnotherExactly` | internal/api/transfer.go:318-323 | an undecided REFER can be declined by the timer of another iff another timer for its leg has yet to run |
| `PendingRefer.TimersHaveOwners` | internal/api/transfer.go:507-561 | a timer yet to run is that of the undecided REFER, of a displaced one, or fired too late to be stopped |
| `PendingRefer.FirstTimerDeclinesSecond` | internal/api/transfer.go:687-703 | a history in which the timer of a displaced REFER declines the one that displaced it |
| `MultiChannel.MultiChannelState.NoteParticipant` | internal/api/recording.go:55-62 | at most one channel position a leg |
| `MultiChannel.MultiChannelState.Start` | internal/api/recording.go:65-102 | a start with its guards, its tap, its pause and its failure path |
| `MultiChannel.MultiChannelState.SetPaused` | internal/api/recording.go:943-958 | the flag and every running recorder are paused or resumed |
| `MultiChannel.MultiChannelState.BeginStop` | internal/api/recording.go:105-116 | the first region of a stop |
| `MultiChannel.MultiChannelState.FinishStop` | internal/api/recording.go:130-137 | only a finalized capture becomes the leg's file |
| `MultiChannel.MultiChannelState.StopLeg` | internal/api/recording.go:105-139 | both regions and the tap cleared between them |
| `MultiChannel.MultiChannelState.StopAll` | internal/api/recording.go:141-176 | the whole state it leaves, whatever the map order, and what it collects |
| `MultiChannelRuns.StopAllIsHistory` | internal/api/recording.go:141-176 | what stopAll leaves and collects, at any point of any history, is that of a continuation of the history: published channels merged, the rest omitted, stops under way still under way |
| `MultiChannelRuns.OmittedTooEarlyExactly` | internal/api/recording.go:130-176 | an omitted leg can publish a capture afterwards iff a stop of it was under way as stopAll was called |
| `MultiChannel.MultiChannelState.Collect` | internal/api/recording.go:158-176 | the merge inputs and omissions in channel order |
| `MultiChannelRuns.ChannelsAreFirstTries` | internal/api/recording.go:55-62 | positions are duplicate-free, in the order of each leg's first try, failed or not |
| `MultiChannelRuns.EveryCaptureEndsOnce` | internal/api/recording.go:105-139 | a capture is recording, being stopped, or ended exactly once |
| `MultiChannelRuns.MergePartition` | internal/api/recording.go:158-176 | merged and omitted legs are the channels with and without a published capture; with no stop in flight omitted means every capture was discarded |
| `MultiChannelRuns.SelectPartitions` | internal/api/recording.go:159-162 | the two halves are disjoint, duplicate-free and complete |
| `MultiChannelRuns.JoinOffsetMatches` | internal/api/recording.go:163-175 | a merged channel holds the last published capture at the offset of the last started one; they match iff they are one capture |
| `MultiChannelRuns.RejoinCanMisplace` | internal/api/recording.go:99-175 | a rejoin after which they do not |
| `MultiChannelTaps.FedExactlyWhenQuiet` | internal/api/recording.go:76-119 | a capture is fed while it records, in every continuation that does not take its tap away, iff at its start the mixer has the leg, no stop has yet to clear the tap and no recording session holds the leg |
| `MultiChannelTaps.FedUntilTaken` | internal/api/siprec_src.go:247-286 | a capture that started so is fed throughout a continuation iff no session attaches to its leg and its participant is not replaced or removed while it records |
| `MultiChannelTaps.CaptureLosesItsTap` | internal/mixer/mixer.go:381-400 | a session that attaches, or a rebuilt participant, leaves the capture recording unfed |
| `MultiChannelTaps.EndingSessionSilences` | internal/api/siprec_src.go:342-356 | a session that ends clears the tap of a capture that started meanwhile |
| `MultiChannelTaps.HurriedRejoinIsSilent` | internal/api/recording.go:76-119 | a rejoin that overtakes the previous stop loses its tap |
| `MultiChannelPause.PauseHoldsExactly` | internal/api/recording.go:924-962 | after a pause or resume and until the next, every running capture that no request has yet to reach is silent iff the room is paused, iff no earlier request with the other setting had yet to reach a running capture |
| `MultiChannelPause.PauseReachesEveryCapture` | internal/api/recording.go:90-95 | so once an uncontested pause is through every running capture is silent, late joiners included, and after such a resume none is |
| `MultiChannelPause.PauseCanBeOvertaken` | internal/api/recording.go:943-958 | a history that ends paused, every request through, with a capture recorded in full |
| `SiprecSelect.SelectParties` | internal/api/siprec_src.go:164-197 | the selection loop with its index and its seen set |
| `SiprecSelect.SelectionIsCanonical` | internal/api/siprec_src.go:164-197 | the selection is the candidates filtered by membership, in candidate order, whatever the allowlist's order or duplicates; unknown ids are exactly reported |
| `SiprecSelect.AscendingIsUnique` | internal/api/siprec_src.go:193-195 | the order by id leaves one possible sequence |
| `SiprecSelect.DecimalReadsBack` | internal/api/siprec_src.go:211-211 | a printed number can be read back, so labels differ |
| `SiprecSelect.BuildMetadata` | internal/api/siprec_src.go:199-234 | the document and label map of the parties, and that they are faithful |
| `SiprecSelect.MetadataIsFaithful` | internal/api/siprec_src.go:199-234 | one stream a party, pairwise distinct ids and labels, and following the document from party to stream gives the label of the map |
| `SiprecSelect.SessionIsCanonical` | internal/api/siprec_src.go:164-234 | two allowlists that name the same parties yield the same document and labels, and they are faithful |
| `Wav.WriteWav` | cmd/gen-noisy-greetings/main.go:458-477 | the file that is written, filled in place by index |
| `Wav.ConstantFields` | cmd/gen-noisy-greetings/main.go:467-473 | the constant header fields are the little-endian numbers of the source |
| `Wav.OpenWav` | cmd/gen-noisy-greetings/main.go:285-329 | the chunk walk with its moving offset and its errors |
| `Wav.ReadChunk` | cmd/gen-noisy-greetings/main.go:303-325 | one chunk, and that the walk always advances |
| `Wav.DataStaysInside` | cmd/gen-noisy-greetings/main.go:316-323 | a data extent that is found lies inside the file |
| `Wav.ReadAt` | cmd/gen-noisy-greetings/main.go:198-214 | the seek-backed read and its failure past the end |
| `Wav.ReadWav` | cmd/gen-noisy-greetings/main.go:448-456 | opening and reading give what the round trip is stated of |
| `Wav.ParserFindsData` | cmd/gen-noisy-greetings/main.go:302-326 | any well-formed padded chunks before data within the first 4096 bytes are walked over, keeping the last rate |
| `Wav.ReadAfterWrite` | cmd/gen-noisy-greetings/main.go:448-477 | what reading back any written file gives |
| `Wav.RoundTrip` | cmd/gen-noisy-greetings/main.go:448-477 | the same samples and rate come back iff they fit the 32-bit fields |

## Left out

- AmdAnalyzer.Analyzer.Feed: the beep detector and the scratch array are made at construction rather than on first use.
- AmdDriver.QuiescentDriver: the leg-tap mode only; the room-observer mode, whose detach callback lives elsewhere, and the goroutine that closes a cleared tap are not part of this model.
- AmdDriver.PublishesAtMostOnce: one Write at a time, as the leg's read loop makes them; several taps of later AMD starts are one "other" owner.
- TtsStaging.OneOutcome: ids are fresh (UUID collisions are not modelled), and the effect of cancelling a synthesis is that it may fail at any time.
- TtsStaging.UtteranceSettles: the provider is assumed to return eventually; playback itself is one step.
- StreamBuffer.ForwardSpeech: blocking is a step that cannot happen yet; the condition variable and its wake-ups are not modelled.
- StreamBuffer.PacingBound: that a sleep wakes within one pace is a hypothesis, and one reader paces at a time, as the source requires.
- LossyPipe.PipeAccounts: one writer and one reader; a close may come from anywhere.
- MultiChannelRuns.JoinOffsetMatches: the clock advances between two starts; leave offsets (which nothing reads), the merge itself and uploads are not modelled.
- MultiChannel.MultiChannelState.Start: one step, although the mixer and the recorder run without its lock: audio between the recorder's start and its pause (recording.go:79-95) can be captured, and a session's tap set between the set and the clear of a failed start is lost.
- MultiChannel.MultiChannelState.StopAll: nothing runs in between its steps; interleaved stops are in the state machine.
- MultiChannelPause.PauseHoldsExactly: the room mix recorder that a request also reaches, and recorders that end on their own, are not modelled.
- MultiChannelTaps.FedUntilTaken: "fed" is that the participant's tap is the capture's; what the mixer then writes is not part of this model.
- SiprecSelect.SelectParties: the library sort is an insertion sort here; the ids are distinct, so every sort gives the same sequence.
- Wav.OpenWav: a read fills the 4096-byte head when the file is that long; the level estimate made on opening, resampling and the in-memory sources are left out; a chunk cut off by the head where the source would panic is an error value.
- PendingRefer.TimedOutByAnotherExactly: a timer cannot run before its REFER is parked, two statements after it is armed.
- PendingRefer.EveryLifeIsLegal: SIP responses and NOTIFYs sent on a transition, and outbound transfers, whose lookup and delete are separate regions.
- Goertzel energies, filters, noise mixing and every other use of floating point.
- HTTP and WebSocket plumbing, provider clients, the SIP engine, mixer, recorder and merge: foreign calls with no invariant of their own here.
