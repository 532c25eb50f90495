# Verified models of the OWEN call stack

OWEN answers and places phone calls with AI agents. This Dafny project models the parts of it that carry state
from one step to the next: the audio and byte streams of the media service, the conversation protocol, the
run-level state machines of the backend, and the few places where concurrent requests share something. For each
part it states what the part promises over every input, every segmentation or every run, and proves it.

`dafny verify dfyconfig.toml` checks everything.

## How the model is laid out

| file | models |
|---|---|
| `Bytes.dfy` | bytes, 16-bit samples, concatenation of chunks |
| `Resample.dfy` | streaming 24 kHz to 8 kHz decimation |
| `AudioSocket.dfy` | the AudioSocket wire codec and its incremental parser |
| `EchoServer.dfy` | the connection handler's frame loop and the session counters |
| `TurnDetection.dfy` | the energy turn detector |
| `LocalTurns.dfy` | turns driven by that detector: half duplex, guard window, barge-in |
| `HalfDuplex.dfy` | received frames and the playout queue together |
| `EagerTurns.dfy` | turns driven by a streaming recogniser: drafts, the commit gate, cancellation |
| `TurnLife.dfy` | the life of one turn task: what ends it, what it says, when its tools run |
| `Playout.dfy` | the outbound queue, its 20 ms pump, and the frame splitter |
| `Speakable.dfy` | cutting a streamed reply into sentences |
| `Recutting.dfy` | when the sentences do not depend on how the reply was streamed |
| `Wav.dfy` | the WAV container |
| `ToolCalls.dfy` | reassembly and dispatch of streamed tool calls |
| `Realtime.dfy` | the realtime agent's event loop and reconnect loop |
| `OutboundCall.dfy` | the limits on AI-placed calls |
| `FlowLibrary.dfy` | flows, versions, assignment to numbers, pinning of calls |
| `FlowEffects.dfy` | what the flow handlers leave behind, and how long it lasts |
| `TokenRefresh.dfy` | single-flight token refresh in the browser |
| `Registries.dfy` | the capacity gate, the session registry, the channel watchers |

Every stateful class of the source is a Dafny class whose methods are proved against a function on values
(`Step`, `Split`, `Collect`, ...). What the source promises is then proved about that function, for whole runs:
a run is a sequence of atomic actions, since asyncio and a browser tab run one task at a time between awaits.
Actions come in any order and with any arguments; an action that is not possible in a state does nothing.

I/O, clocks and vendors are parameters: received bytes and socket closes, the time of an event, whether a frame
is loud, the outcome of a request. Samples are exact integers and the filter kernel is 63 arbitrary reals.

All lemmas switch automatic induction off; where a proof is by induction, its body says so.

## What the proofs brought to light

The code is modelled as it is. Where it keeps less than its comments or its callers expect, there is a concrete
run that shows it and, where a condition decides the matter, a lemma that states it.

- A turn may hold fewer loud frames than the minimum: the counter includes frames the pre-roll has dropped. It
  cannot happen exactly when the pre-roll covers the start run or the whole minimum
  (`TurnDetection.EnoughSpeechExactlyWhen`). The pipeline builds the detector with the class's own values for these
  three settings, 3, 10 and 5 (`owen-voice/app/pipeline.py:153-156`, `owen-voice/app/dsp.py:43-68`), so as shipped it
  cannot happen (`TurnDetection.ShippedSettingsAreCovered`); other settings can be given to the class.
- A comment in `owen-voice/app/dsp.py:199` says that "3.5" is not split. It is when a delta ends after the point. The
  sentences of a streamed reply are those of the same reply in one piece exactly when no delta ends on a '.', '!' or
  '?' that the text goes on after (`Recutting.SentencesIgnoreTheDeltasExactlyWhen`). No word is lost either way.
- The blocking reply used when the stream gives no sentence does not wait for the gate
  (`EagerTurns.FallbackIgnoresTheGate`). Something is said before the committed end exactly by a turn that fell back
  on it (`EagerTurns.HeardBeforeTheEndExactlyWhen`), and tools are dispatched before it exactly when such a turn has
  spoken (`EagerTurns.ActsBeforeTheEndExactlyWhen`).
- An `end` without words leaves a draft parked at the gate (`EagerTurns.EmptyEndParksTheDraft`): the gate is closed
  exactly since an accepted eager end after which came no end with words, no retraction and no error
  (`EagerTurns.GateIsClosedExactlyWhen`). An eager end that no start precedes makes two live turns, and so does an end
  after an end (`EagerTurns.UnannouncedEagerEndMakesTwoTurns`, `EagerTurns.SecondEndMakesTwoTurns`); an event leaves one
  turn exactly when it does not begin one beside a live one (`EagerTurns.OneTurnStaysExactlyWhen`). The recogniser's
  contract rules all three out.
- A connection that sends a second, different UUID frame never finishes the first session
  (`EchoServer.FinishesEverySessionItOpened`, with the run `EchoServer.SecondUuidLeavesTheFirstOpen`).
- The repeat rule for outbound calls is decided on a two-day log. It is kept over every run exactly when no three
  calling hours let the log forget (`OutboundCall.RepeatRuleHoldsExactlyWhen`): with two calls a day or more, exactly up
  to 2880 minutes (`OutboundCall.RepeatRuleNeedsTheLog`); with one call a day and no change of the clocks, exactly up to
  3600 (`OutboundCall.RepeatRuleOnceADay`).
- `frontend/src/api.ts:36-39` says the backend rotates the refresh token on every use. The backend issues a new
  one but does not revoke the old one, and nothing in its payload (`backend/app/core/security.py:36-47`) makes two
  tokens issued to one user at the same instant differ. `TokenRefresh.RedeemedTokenGoesExactlyWhen` states what
  the answer must carry.
- An archived flow answers calls if it is assigned after it was archived: assignment does not look at the mark
  (`FlowLibrary.ArchivedFlowsAnswerExactlyWhenAssigned`).
- The tool fragments of a cancelled turn are dispatched with those of the next one
  (`ToolCalls.LeftoversJoinTheNextTurn`), which may leave by the cancelled turn's exit
  (`ToolCalls.LeftoverDecidesTheNextPort`). A turn acts on its own fragments alone exactly when none were left over
  (`ToolCalls.ActsOnItsOwnExactlyWhen`).
- `prune` with nothing to keep prunes nothing, and a slot is lost when a request ends before its release
  (`Registries.PruneKeepsTheNewest`, `Registries.SlotsAddUp`, with the run `Registries.LostSlotRefusesTheNext`).
- The peak level can be 32768, one more than the largest positive sample (`EchoServer.PeakOfIsPeak`).

## Model

| member | source | states |
|---|---|---|
| Bytes.SamplesOfEncoding | owen-voice/app/resample.py:90-100 | writing 16-bit little-endian samples and reading them back is the identity |
| Bytes.LittleEndian | owen-voice/app/resample.py:90-100 | a sample is its low byte and its high byte, in two's complement |
| Bytes.SampleAt | owen-voice/app/resample.py:90-90 | sample i is bytes 2i and 2i + 1; a trailing odd byte is not one |
| Resample.DecimateChunks | owen-voice/app/resample.py:57-138 | however the synthesized bytes are cut (odd lengths and empty chunks included), the pieces and the flush join to the decimation of the whole, with the filter and with the fallback |
| Resample.DecimateOnce | owen-voice/app/resample.py:141-144 | the one-shot form is the whole-input definition |
| Resample.Decimator.Feed | owen-voice/app/resample.py:78-100 | keeps the last 62 samples, the phase -N mod 3 and the half sample, and returns exactly the output that the new bytes determine |
| Resample.Decimator.FeedFilter | owen-voice/app/resample.py:90-100 | the filtered part of a feed: the strided convolution of tail and new samples, the new tail and the new phase |
| Resample.Decimator.FeedBox | owen-voice/app/resample.py:119-124 | keeps the samples of the unfinished group and returns the means of the full ones |
| Resample.Decimator.Flush | owen-voice/app/resample.py:102-115 | completes the determined output to the whole-input decimation; only a half sample stays behind |
| Resample.Box | owen-voice/app/resample.py:127-138 | the loop computes one mean for each full group of three samples |
| Resample.FirShape | owen-voice/app/resample.py:90-115 | with N whole samples there are ceil((N+62)/3) outputs, and output k is the convolution of the 63-sample window at input position 3k without its fraction, or the nearer end of the 16-bit range |
| Resample.ClipIs | owen-voice/app/resample.py:100-100 | clipping gives 32767 and -32768 at and beyond the ends, and in between the value without its fraction |
| Resample.WindowIs | owen-voice/app/resample.py:90-98 | the window holds the 63 newest input samples, silence where there are none |
| Resample.ConvAdds | owen-voice/app/resample.py:95-95 | the convolution adds up |
| Resample.ConvOfOneSample | owen-voice/app/resample.py:95-95 | a single sample meets the tap at the mirrored place |
| Resample.BoxShape | owen-voice/app/resample.py:104-106 | the fallback gives ceil(N/3) outputs, each the floored mean of its group padded with silence, so within 16 bits |
| Resample.Resume | owen-voice/app/resample.py:90-100 | a strided convolution over any stretch of the padded stream, started at the right phase, is exactly the next stretch of the whole output |
| Resample.EarlierOutputsStand | owen-voice/app/resample.py:90-100 | samples that arrive later never change an output already given |
| Resample.CarryStep | owen-voice/app/resample.py:98-99 | the slice and the modulus kept after a feed are the tail and phase of everything heard so far |
| Resample.CarryHalfSample | owen-voice/app/resample.py:79-84 | carrying the odd byte cuts the stream between two samples |
| AudioSocket.ParseKeepsEveryByte | owen-voice/app/audiosocket.py:119-133 | the frames encoded again, followed by the buffered bytes, are the bytes fed, and what is buffered is not a whole frame |
| AudioSocket.ParseIsUnique | owen-voice/app/audiosocket.py:119-133 | any frames and unfinished bytes that make up a stream are the ones the parser finds |
| AudioSocket.ParseResumes | owen-voice/app/audiosocket.py:116-133 | parsing may stop after any byte and resume with what was left over |
| AudioSocket.FrameParser.Feed | owen-voice/app/audiosocket.py:119-133 | terminates, and yields the frames of the buffered and the new bytes, keeping the rest |
| AudioSocket.ParseChunks | owen-voice/app/audiosocket.py:107-133 | the frames and the buffer depend on the concatenation only, not on the segmentation |
| AudioSocket.DecodeEncoded | owen-voice/app/audiosocket.py:91-133 | encoded frames cut anywhere parse back to those frames with nothing buffered |
| AudioSocket.EncodeThenParse | owen-voice/app/audiosocket.py:91-104 | encoding refuses exactly payloads over 65535 bytes; otherwise it reads back with the kind reduced to a byte |
| AudioSocket.FrameLayout | owen-voice/app/audiosocket.py:91-96 | on the wire: the kind, the length with its high byte first, the payload |
| EchoServer.HandleConnection | owen-voice/app/server.py:48-165 | under any segmentation the handler's effect is one fold over the frames of the bytes received |
| EchoServer.EchoIsFaithful | owen-voice/app/server.py:63-124 | the bytes written parse to exactly the attributed audio of echoing sessions in order; every session's counters and peak are those of the audio attributed to it |
| EchoServer.RunAccounts | owen-voice/app/server.py:92-124 | each session's rx and tx counters and peak are sums over the payloads attributed to it |
| EchoServer.RunWrites | owen-voice/app/server.py:117-124 | what is written is the concatenation of the echoed frames |
| EchoServer.UnidentifiedIsIgnored | owen-voice/app/server.py:87-90 | frames before a UUID frame change nothing |
| EchoServer.PeakOfIsPeak | owen-voice/app/session.py:296-306 | the running peak is the greatest absolute sample or the peak so far |
| EchoServer.MeasurePeak | owen-voice/app/session.py:296-306 | the loop computes that peak |
| EchoServer.HoldsAllItAnnounced | owen-voice/app/server.py:64-72 | the connection ends holding every session it announced exactly when all its UUID frames agree |
| EchoServer.FinishesEverySessionItOpened | owen-voice/app/server.py:151-165 | every announced session is marked done exactly when all UUID frames the loop looked at are the same |
| EchoServer.SecondUuidLeavesTheFirstOpen | owen-voice/app/server.py:64-72 | the witness: two known identifiers on one connection leave the first session waiting |
| EchoServer.DigitsAndErrorsAreTheirOwn | owen-voice/app/server.py:126-140 | over every stream a session's digits are the ASCII bytes of the DTMF frames it is given, in order, and its error that of the error frame that ended it |
| EchoServer.AsciiKeepsAscii | owen-voice/app/server.py:127-128 | decoding drops exactly the bytes that are not ASCII |
| EchoServer.ClosingSession | owen-voice/app/server.py:151-165 | the held session is disconnected and done, with the port already decided, or `failed` if an error was recorded, or the default; no other session is touched |
| EchoServer.Connection.HandleFrame | owen-voice/app/server.py:64-143 | one frame does to the session and the socket what the fold's step says |
| EchoServer.Connection.HandleFrames | owen-voice/app/server.py:63-143 | the frames of one read are one stretch of the fold, left early by a frame that ends the connection |
| EchoServer.Connection.Close | owen-voice/app/server.py:151-165 | only the session held at the end is closed; its port is `failed` exactly when an error was recorded and no port was set |
| TurnDetection.InvAlways | owen-voice/app/dsp.py:81-125 | after any events the buffer is an exact slice of the pushed frames and the run counters are the runs just heard |
| TurnDetection.UtteranceIsExactSlice | owen-voice/app/dsp.py:98-119 | each utterance is a contiguous slice ending at the current frame, crosses no reset, and ends at the first run of end_frames quiet frames since its onset |
| TurnDetection.UtterancesAreDisjoint | owen-voice/app/dsp.py:98-125 | utterances never share a frame nor reach back over a reset |
| TurnDetection.StartsExactlyWhen | owen-voice/app/dsp.py:84-96 | a turn starts exactly when none is going on and the newest frames since the last turn or reset are a start run of loud ones |
| TurnDetection.OnsetIsTheStart | owen-voice/app/dsp.py:89-95 | the onset of a turn is the event at which it started, and it has been going on since |
| TurnDetection.HandsOverExactlyWhen | owen-voice/app/dsp.py:98-119 | an utterance is handed out exactly when a turn is going on, the newest frames after its onset are an end run of quiet ones, and its start run and later loud frames make up the minimum |
| TurnDetection.MaxQuietRunIsTheLongest | owen-voice/app/dsp.py:104-105 | the counter is the longest quiet run within any turn so far |
| TurnDetection.CoveredStartMeansEnoughSpeech | owen-voice/app/dsp.py:84-119 | with a long enough pre-roll every utterance holds at least min_speech_frames loud frames |
| TurnDetection.UncoveredStartFails | owen-voice/app/dsp.py:84-119 | with a shorter one, loud frames followed by quiet give an utterance with too few |
| TurnDetection.EnoughSpeechExactlyWhen | owen-voice/app/dsp.py:84-119 | the minimum holds over all runs exactly when the pre-roll covers the start run or the minimum |
| TurnDetection.ShippedSettingsAreCovered | owen-voice/app/pipeline.py:153-156 | with the settings the pipeline uses, and any end_frames, the minimum holds in every run |
| TurnDetection.TurnDetector.PushFrame | owen-voice/app/dsp.py:81-119 | one pushed frame is one step of the specification |
| TurnDetection.TurnDetector.ResetDetector | owen-voice/app/dsp.py:121-125 | a reset forgets the turn and the pre-roll but not the longest quiet run |
| LocalTurns.AtMostOneLiveTurn | owen-voice/app/pipeline.py:393-432 | whatever the frames, the clock and the playout queue do, at most one turn is live, and none while the caller speaks |
| LocalTurns.HalfDuplexTrace | owen-voice/app/pipeline.py:366-393 | with half duplex on, the detector runs on the received frames with each frame heard during playout replaced by a reset |
| LocalTurns.HalfDuplexHearsOnlyTheCaller | owen-voice/app/pipeline.py:363-434 | an utterance handed to a turn is a gap-free run of received frames, none of which arrived while playout had anything queued |
| LocalTurns.HalfDuplexTurnsAreDisjoint | owen-voice/app/pipeline.py:363-434 | two turns never share a frame, nor reach back over our own speech |
| LocalTurns.HandedExactlyWhen | owen-voice/app/pipeline.py:420-432 | a frame hands an utterance to a new turn exactly when the detector hears it, an utterance ends with it, and it passes the energy floor; that turn is then held and live |
| LocalTurns.HalfDuplexHandsExactlyWhen | owen-voice/app/pipeline.py:366-432 | over whole runs with half duplex on, the utterances that become turns are exactly those of the trace that pass the floor |
| LocalTurns.GuardCountsFromOurFirstFrame | owen-voice/app/pipeline.py:376-379 | the guard clock started when the stretch of our speech still going on began, and is off while we are silent |
| LocalTurns.StartWithinTheGuardIsIgnored | owen-voice/app/pipeline.py:396-418 | within the guard window a start only resets the detector; after it it ends the held turn |
| LocalTurns.BargeInCancels | owen-voice/app/pipeline.py:396-418 | a believed start leaves no live turn, and nothing else cancels one |
| LocalTurns.Conversation.Receive | owen-voice/app/pipeline.py:354-434 | one received frame: half-duplex drop, guard window, barge-in, energy floor, new turn |
| HalfDuplex.TalkRunsOnFrames | owen-voice/app/pipeline.py:366-434 | in a call with real playout, listening is the model above on the frames marked with whether the queue held anything |
| HalfDuplex.PlayoutRunsOnOps | owen-voice/app/pipeline.py:84-140 | and playout is its model on everything done to it, the clears of barge-ins included |
| HalfDuplex.TurnsHearOnlyTheCaller | owen-voice/app/pipeline.py:363-434 | with half duplex on, an utterance handed to a turn is all the audio received from some frame on, each of these frames having found the playout queue empty |
| HalfDuplex.BargeInStopsTheTurn | owen-voice/app/pipeline.py:412-418 | after a barge-in no turn is live |
| HalfDuplex.BargeInSilencesUs | owen-voice/app/pipeline.py:412-413 | after a barge-in nothing queued before it is ever written |
| EagerTurns.SafeAlways | owen-voice/app/pipeline.py:438-524 | what holds in each phase of start (eager_end resumed)* [eager_end] end, over every interleaving with turn tasks and playout |
| EagerTurns.OneTurnAtATime | owen-voice/app/pipeline.py:467-524 | at most one turn is live; while the gate is closed it is the pending draft |
| EagerTurns.DraftSpeaksOnlyWhenReleased | owen-voice/app/pipeline.py:653-668 | what a draft streams is queued only after an `end` with the draft's own transcript, or an error |
| EagerTurns.EndIsAnswered | owen-voice/app/pipeline.py:493-508 | after a committed `end` the conversation holds a live turn for exactly those words, with the gate open |
| EagerTurns.NothingSpokenOverTheCaller | owen-voice/app/pipeline.py:467-491 | while the caller may still be talking no gated audio is queued; at any time it belongs to the held turn |
| EagerTurns.NobodyWaitsAtAnOpenGate | owen-voice/app/pipeline.py:460-508 | whatever the vendor sends, no task waits while the gate is open |
| EagerTurns.NobodyIsLeftWaiting | owen-voice/app/pipeline.py:460-508 | between rounds, and after the recogniser failed, no turn is parked at the gate |
| EagerTurns.DraftActsOnlyWhenReleased | owen-voice/app/pipeline.py:655-686 | a draft whose stream was spoken dispatches its tools only after its own `end`, or an error |
| EagerTurns.HeardBeforeTheEndExactlyWhen | owen-voice/app/pipeline.py:653-687 | before the committed `end`, audio is queued if and only if its turn fell back on the blocking reply |
| EagerTurns.ActsBeforeTheEndExactlyWhen | owen-voice/app/pipeline.py:674-686 | before the committed `end`, tools are dispatched if and only if their turn has just spoken the blocking reply |
| EagerTurns.GateIsClosedExactlyWhen | owen-voice/app/pipeline.py:464-507 | whatever the vendor sends, the gate is closed exactly since an accepted eager end with no `end` with words, retraction or error after it |
| EagerTurns.OneTurnStaysExactlyWhen | owen-voice/app/pipeline.py:467-524 | whatever the vendor sends, an event leaves at most one live turn exactly when it does not begin one beside a live turn |
| EagerTurns.FallbackIgnoresTheGate | owen-voice/app/pipeline.py:674-684 | the witness: a run in which the blocking reply of a mere draft is queued and survives the retraction |
| EagerTurns.EmptyEndParksTheDraft | owen-voice/app/pipeline.py:493-496 | the witness: a run in which an empty `end` leaves the draft waiting at a closed gate |
| EagerTurns.UnannouncedEagerEndMakesTwoTurns | owen-voice/app/pipeline.py:478-484 | the witness: an eager end without a start makes a second live turn |
| EagerTurns.SecondEndMakesTwoTurns | owen-voice/app/pipeline.py:493-508 | the witness: an `end` after an `end` makes a second live turn |
| EagerTurns.Conversation.HandleEvent | owen-voice/app/pipeline.py:450-508 | one vendor event has exactly the specified effect on turns, draft, gate and queue |
| EagerTurns.Conversation.AbandonTurn | owen-voice/app/pipeline.py:519-524 | cancels the held turn unless it has ended and forgets the draft |
| EagerTurns.Conversation.StartTurn | owen-voice/app/pipeline.py:514-517 | the new task becomes the held turn |
| EagerTurns.Conversation.SetCommit | owen-voice/app/pipeline.py:464-508 | opening the gate wakes every task that waits for it |
| EagerTurns.Conversation.Advance | owen-voice/app/pipeline.py:653-690 | where one step takes a task: sentence, gate, stream end, blocking reply, tools, end |
| EagerTurns.Conversation.RunStep | owen-voice/app/pipeline.py:653-690 | one atomic step of a turn task or of playout, with the audio it queues and the tools it dispatches |
| TurnLife.EndsExactlyWhen | owen-voice/app/pipeline.py:467-524 | over every run a live turn stops being live exactly when it finishes, or is the held turn and the vendor abandons it by a start, a retraction or an end with other words |
| TurnLife.DeadTurnsStayAsTheyAre | owen-voice/app/pipeline.py:519-524 | a cancelled or finished task never executes another step |
| TurnLife.EndReleasesTheDraft | owen-voice/app/pipeline.py:501-507 | a live turn at the gate is woken by the event that opens it |
| TurnLife.ReleasedTurnSpeaks | owen-voice/app/pipeline.py:666-667 | once a released turn has run again, each piece it enqueues is heard as its own, whatever happens around it |
| TurnLife.WholeReplyIsHeard | owen-voice/app/pipeline.py:653-670 | with the gate open a reply of any number of sentences, each of any number of pieces, is heard in full and in order |
| TurnLife.TurnWrapsUp | owen-voice/app/pipeline.py:657-691 | then its tools are dispatched, once, and the turn ends |
| TurnLife.FallbackIsHeard | owen-voice/app/pipeline.py:674-687 | a stream without a sentence is followed by the blocking reply, heard in full, and then by the tools |
| TurnLife.ToolsAreDispatchedOnce | owen-voice/app/pipeline.py:686-687 | over every run each turn's tools are dispatched at most once, after its reply |
| TurnLife.QueueIsTheNewest | owen-voice/app/pipeline.py:84-102 | over every run the queue holds the newest of what was said, as many pieces as barge-ins and ticks have left |
| Playout.SplitFrames | owen-voice/app/dsp.py:217-226 | the loop computes the specified frames |
| Playout.ChunkFramesIsPaddedInput | owen-voice/app/dsp.py:217-226 | every frame is full, and together they are the input followed by less than one frame of silence |
| Playout.NothingLost | owen-voice/app/pipeline.py:84-140 | frames queued are frames written, dropped or still waiting, and what waits is the newest part |
| Playout.WrittenFrame | owen-voice/app/pipeline.py:134-136 | a tick writes the oldest frame that has neither been written nor dropped |
| Playout.WrittenInOrder | owen-voice/app/pipeline.py:134-136 | frames are written in queueing order, each at most once |
| Playout.ClearIsFinal | owen-voice/app/pipeline.py:97-102 | no frame queued before a clear is written after it |
| Playout.StartsPrimed | owen-voice/app/pipeline.py:121-125 | playback (re)starts only with 20 frames queued or a complete, non-empty utterance |
| Playout.WritesExactlyWhen | owen-voice/app/pipeline.py:121-136 | a tick writes a frame exactly when one is queued and playback is running, 20 are queued, or the utterance is complete |
| Playout.PlaysOnExactlyWhen | owen-voice/app/pipeline.py:121-133 | playback runs from such a start until a tick finds the queue empty or it is cleared |
| Playout.CompleteExactlySince | owen-voice/app/pipeline.py:89-102 | an utterance counts as complete exactly since it was marked so, until the next one begins or the queue is cleared |
| Playout.FullFrames | owen-voice/app/pipeline.py:84-87 | every frame queued or written has 320 bytes |
| Playout.WireCarriesTheFrames | owen-voice/app/pipeline.py:134-139 | a peer that parses the written bytes gets exactly the written frames |
| Playout.CompleteUtterancePlaysOut | owen-voice/app/pipeline.py:121-139 | once complete, an utterance plays to its last frame, one a tick, and no underrun is counted however long the silence after it |
| Playout.EveryStartStopsOnce | owen-voice/app/pipeline.py:97-133 | over every run each start of playback stops once, by playing out, by a barge-in or by running dry mid-utterance, or is still running; the underrun counter is the number that ran dry |
| Playout.CadenceDoesNotDrift | owen-voice/app/pipeline.py:117-140 | pass k begins at t0 + 0.02k plus work not yet caught up with, which is nothing while no pass exceeds a period |
| Playout.PlayoutQueue.EnqueueAudio | owen-voice/app/pipeline.py:84-87 | appends the frames of the audio and returns their number |
| Playout.PlayoutQueue.SetComplete | owen-voice/app/pipeline.py:89-92 | marks the utterance complete and changes nothing else |
| Playout.PlayoutQueue.NewUtterance | owen-voice/app/pipeline.py:94-95 | takes the mark away and changes nothing else |
| Playout.PlayoutQueue.DropAll | owen-voice/app/pipeline.py:97-102 | empties the queue, stops playback and returns how much was dropped |
| Playout.PlayoutQueue.Pump | owen-voice/app/pipeline.py:119-139 | one pass of the pump is one tick of the specification |
| Speakable.SplitKeepsWords | owen-voice/app/dsp.py:187-214 | the non-blank characters of the chunks and the remainder are those of the buffer, in order; every chunk is trimmed and non-empty |
| Speakable.SplitTakesEverySentence | owen-voice/app/dsp.py:197-206 | nothing that ends a sentence is held back |
| Speakable.SplitGivesSingleSentences | owen-voice/app/dsp.py:197-206 | no chunk runs past the end of a sentence |
| Speakable.ForcedCutSparesWords | owen-voice/app/dsp.py:207-209 | a forced cut falls on the last space before the limit, and at the limit only when there is none |
| Speakable.ForcedChunkIsShort | owen-voice/app/dsp.py:207-213 | a chunk forced out is alone and no longer than the limit |
| Speakable.ForcedExactlyWhen | owen-voice/app/dsp.py:207-213 | text without a sentence end is cut by force exactly from the limit on; what stands before the cut is taken unless it is blank, and the text gets shorter |
| Speakable.SplitKeepsTheEnd | owen-voice/app/dsp.py:206-214 | what is kept is the end of the buffer, and starts with a word once anything has been taken |
| Speakable.SplitSpeakable | owen-voice/app/dsp.py:187-214 | the loop computes that split |
| Speakable.NoWordsLost | owen-voice/app/pipeline.py:636-649 | however a reply is divided into deltas, the words queued for speech are the words of the reply, in order |
| Speakable.Produce | owen-voice/app/pipeline.py:629-651 | the producer queues exactly those sentences, and loses no word |
| Recutting.SentencesIgnoreTheDeltasExactlyWhen | owen-voice/app/pipeline.py:636-649 | the sentences queued for a streamed reply are those of the reply in one piece exactly when no cut between deltas breaks a sentence, for replies in which a sentence ends within every 140 characters |
| Recutting.ProducedAgainstPieces | owen-voice/app/dsp.py:197-206 | in any state of the producer, streaming gives at least as many sentences as the whole text, the same ones when no cut breaks one, and more otherwise |
| Recutting.BreaksInPlainText | owen-voice/app/dsp.py:198-201 | with only blanks, tabs and line breaks for white space, a cut breaks a sentence exactly when '.', '!' or '?' stands before it and no white space after it |
| Recutting.SentencesDependOnTheDeltas | owen-voice/app/dsp.py:198-203 | the witness: "3.5" in one piece is one sentence, cut after the point it is two |
| Wav.UnwrapOfWrap | owen-voice/app/dsp.py:232-257 | unwrapping what was wrapped gives the payload back, whenever wrapping succeeds |
| Wav.WrapFits | owen-voice/app/dsp.py:232-242 | wrapping with the default rate fails exactly when the size does not fit 32 bits |
| Wav.WrapsExactlyWhen | owen-voice/app/dsp.py:232-242 | wrapping succeeds exactly when every header field fits its width |
| Wav.WrapLayout | owen-voice/app/dsp.py:232-242 | the bytes of the file: the sizes count what they should, the chunks are where a player looks for them |
| Wav.FormatLayout | owen-voice/app/dsp.py:236-240 | the format chunk describes uncompressed 16-bit samples at this rate and number of channels |
| Wav.UnwrapFindsFirstData | owen-voice/app/dsp.py:245-257 | after any chunks, odd sizes padded, the result is the body of the first data chunk, as far as it is there |
| Wav.UnwrapWithoutData | owen-voice/app/dsp.py:250-257 | a file without a data chunk gives no audio |
| Wav.WavUnwrap | owen-voice/app/dsp.py:245-257 | the scan terminates on every input and returns that body; anything that is not RIFF is returned as it is |
| ToolCalls.CollectedIsTable | owen-voice/app/pipeline.py:778-790 | the slot table holds, for each index in order of first appearance, the last name and all the argument text of its own fragments |
| ToolCalls.InterleavingDoesNotMatter | owen-voice/app/pipeline.py:778-790 | streams that agree on each index's fragments rebuild the same slots, and the same table if first appearances agree |
| ToolCalls.DispatchIgnoresInterleaving | owen-voice/app/pipeline.py:792-837 | then dispatch has the same exit port, pending custom calls, destination and captured fields |
| ToolCalls.LastExitWins | owen-voice/app/pipeline.py:816-826 | the exit port is that of the last enabled exit tool in table order |
| ToolCalls.NoExitKeepsPort | owen-voice/app/pipeline.py:801-837 | without an enabled exit tool neither the port nor the destination changes |
| ToolCalls.PendingIsTheCustomCalls | owen-voice/app/pipeline.py:808-815 | the agent's own tools are handed on with their arguments, all of them, in table order, and nothing else |
| ToolCalls.LastCaptureWins | owen-voice/app/pipeline.py:827-833 | captured fields are merged: the value of a key is the last one captured for it |
| ToolCalls.NoCaptureKeeps | owen-voice/app/pipeline.py:827-833 | a key captured by no slot keeps its earlier value, or stays absent |
| ToolCalls.LastDestinationWins | owen-voice/app/pipeline.py:822-823 | the destination is that of the last enabled transfer that names one |
| ToolCalls.NoIndexIsZero | owen-voice/app/pipeline.py:781-784 | a fragment without a readable index belongs to call 0 |
| ToolCalls.AppearanceOrderDecidesTheExit | owen-voice/app/pipeline.py:802-826 | two streams that agree on each index but not on first appearances may take different ports |
| ToolCalls.LeftoversJoinTheNextTurn | owen-voice/app/pipeline.py:836-837 | fragments left by a cancelled turn and those of the next build one table |
| ToolCalls.ActsOnItsOwnExactlyWhen | owen-voice/app/pipeline.py:778-837 | a turn acts as its own fragments say, for all tools and replies, exactly when the table it finds is empty |
| ToolCalls.LeftoverDecidesTheNextPort | owen-voice/app/pipeline.py:802-837 | the witness: a turn without tool calls leaves by the exit a cancelled turn asked for |
| ToolCalls.Conversation.CollectDelta | owen-voice/app/pipeline.py:778-790 | the lookup, the new slot, the overwritten name and the appended text amount to one step of the table |
| ToolCalls.Conversation.DispatchTools | owen-voice/app/pipeline.py:792-837 | acts on the slots in order and empties the table |
| ToolCalls.RunTurn | owen-voice/app/pipeline.py:778-837 | a turn that starts with an empty table acts exactly as its own fragments say |
| Realtime.OnlyEnabledToolsAct | backend/app/agents/openai_realtime.py:158-195 | no tool acts unless enabled; the two exit tools end the call, each on its own port; a lead keeps its non-empty fields; a message goes out exactly when it has a recipient and a text, trimmed |
| Realtime.LimitReachedExactlyWhen | backend/app/agents/openai_realtime.py:116-126 | a limit is reached exactly when the time since the first event reaches the maximum call length, or the time since anyone spoke or a tool was called the maximum silence |
| Realtime.StartTimeIs | backend/app/agents/openai_realtime.py:367-372 | the call is timed from the first event that is one |
| Realtime.LastActiveIs | backend/app/agents/openai_realtime.py:385-393 | silence is timed from the last speech or tool call; ticks do not count |
| Realtime.VerdictIsRight | backend/app/agents/openai_realtime.py:360-396 | how a connection ends, limit by limit and tool by tool, given the event at which it stops |
| Realtime.DriveStopsAtTheFirst | backend/app/agents/openai_realtime.py:342-409 | the loop stops at the first event whose elapsed or silent time reaches a limit, or an exit tool, error or end; it keeps what came before and nothing later, and ticks never extend the silence clock |
| Realtime.GatherAddsUp | backend/app/agents/openai_realtime.py:385-435 | the record grows by every non-blank line and every accepted message in order, and the last capture |
| Realtime.DriveLoop | backend/app/agents/openai_realtime.py:356-409 | the loop computes that fold, and ends as the limits, tools and errors of that event say |
| Realtime.TryOnceIs | backend/app/agents/openai_realtime.py:310-329 | one attempt ends and records as its own events decide, whatever was recorded before |
| Realtime.Run | backend/app/agents/openai_realtime.py:297-340 | at most max_reconnects + 1 attempts; each opened connection closed once; `failed` exactly when every allowed attempt raises, otherwise the port of the first that does not |
| Realtime.ConnectedIs | backend/app/agents/openai_realtime.py:312-329 | the closed connections are the opened ones, each once |
| Realtime.RecordOfAllAttempts | backend/app/agents/openai_realtime.py:300-301 | lines, messages and the last capture of all attempts survive every reconnect |
| OutboundCall.CheckRecent | backend/app/agents/outbound_call.py:134-141 | the loop decides whether the number was called since the repeat window began |
| OutboundCall.PruningKeepsTheDayCount | backend/app/agents/outbound_call.py:125-131 | pruning to two days never changes today's count, given only that New York is 4 or 5 hours behind UTC |
| OutboundCall.PruningKeepsTheRepeatRule | backend/app/agents/outbound_call.py:352-353 | nor the repeat rule, up to 2880 minutes |
| OutboundCall.PrunedLogDecidesLikeHistory | backend/app/agents/outbound_call.py:329-356 | with a clock that never goes back, every decision on the pruned log is the decision on the full history |
| OutboundCall.DaysAndHoursAlwaysHold | backend/app/agents/outbound_call.py:329-338 | over every run, and for every repeat window, no New York day exceeds the daily maximum and every call is in hours |
| OutboundCall.LimitsAlwaysHold | backend/app/agents/outbound_call.py:329-356 | the same, and up to 2880 minutes no number is called twice within the repeat minutes |
| OutboundCall.PlacesExactlyWhen | backend/app/agents/outbound_call.py:329-356 | over every run a request adds exactly its own call, and does so if and only if no earlier guard refused, it is in hours, the day is not full, the number was not called in the window and the spend cap is not reached |
| OutboundCall.PlacesExactlyWhenHistoryAllows | backend/app/agents/outbound_call.py:329-356 | up to 2880 minutes both counting rules are judged on everything ever placed |
| OutboundCall.EveryCallWasAllowed | backend/app/agents/outbound_call.py:329-356 | every call ever placed was asked for, and every limit allowed it then |
| OutboundCall.AnswerMeans | backend/app/agents/outbound_call.py:330-343 | which answer the caller gets: 429 from the two counting rules, 409 from the hours and, last, the spend cap |
| OutboundCall.RepeatRuleHoldsExactlyWhen | backend/app/agents/outbound_call.py:339-353 | for every setting and calendar the repeat rule holds over all runs exactly when no call is allowed, or no three calling hours let the log forget |
| OutboundCall.RepeatRuleNeedsTheLog | backend/app/agents/outbound_call.py:65-67 | with a daily maximum other than one, it holds exactly up to 2880 minutes, or when no call is allowed |
| OutboundCall.RepeatRuleOnceADay | backend/app/agents/outbound_call.py:334-353 | with one call a day and a constant offset it holds exactly up to 3600 minutes |
| OutboundCall.NormalisingIsIdempotent | backend/app/agents/outbound_call.py:101-108 | a normalised number is canonical or empty, and normalising it again changes nothing |
| OutboundCall.NormalisedIs | backend/app/agents/outbound_call.py:101-108 | the result is the full US number the digits make, with or without the country code, and else nothing |
| OutboundCall.SpellingsMeet | backend/app/agents/outbound_call.py:101-108 | two spellings of one number, with or without punctuation and country code, normalise to the same, and to something exactly when that is a full US number |
| OutboundCall.CallDesk.Place | backend/app/agents/outbound_call.py:329-356 | the guards in order, and the log they leave |
| FlowLibrary.SoundAlways | backend/app/api/flows.py:177-424 | over every run active pointers name validated versions of their own flow, numbers point at runnable flows, calls at existing versions, and version numbers grow in save order |
| FlowLibrary.DeleteSound | backend/app/api/flows.py:267-311 | deleting keeps every reference: refused while assigned, archived while a call refers to it, else only its own rows go |
| FlowLibrary.PinnedForEver | backend/app/flows/runtime.py:184-194 | a call once pinned keeps its version, with the graph as saved, in every later state |
| FlowLibrary.AssignedNumbersAlwaysResolve | backend/app/flows/runtime.py:149-181 | a number with a flow always resolves to a validated version of that flow |
| FlowLibrary.CloneCopiesWhatAnswers | backend/app/flows/service.py:60-77 | for a flow that answers calls, a clone copies the very version a call would run |
| FlowLibrary.ArchivedFlowsAnswerExactlyWhenAssigned | backend/app/api/numbers.py:89-101 | one handler call lets an archived flow answer exactly when it assigns one |
| FlowLibrary.NextNumberFollows | backend/app/flows/service.py:20-28 | a first version is number 1, any other one more than the greatest number the flow has |
| FlowLibrary.Latest | backend/app/flows/service.py:60-77 | the fallback source of a clone is a version with the greatest number |
| FlowLibrary.Library.CreateFlow | backend/app/api/flows.py:177-185 | a new flow has no version and is not archived |
| FlowLibrary.Library.CloneFlow | backend/app/api/flows.py:189-243 | a draft with one version, a copy of the source's active or latest one |
| FlowLibrary.Library.SaveVersion | backend/app/api/flows.py:371-391 | appends a version and changes none |
| FlowLibrary.Library.ActivateVersion | backend/app/api/flows.py:395-424 | moves the pointer only to a validated version of the same flow |
| FlowLibrary.Library.DeleteFlow | backend/app/api/flows.py:267-311 | refuses, archives or deletes as specified |
| FlowLibrary.Library.RestoreFlow | backend/app/api/flows.py:315-327 | clears the archive mark only |
| FlowLibrary.Library.AssignFlow | backend/app/api/numbers.py:85-102 | the guards and the binding; unassigning is always allowed |
| FlowLibrary.Library.PinCall | backend/app/flows/runtime.py:184-194 | pins only a call that has no pin |
| FlowEffects.RefusedChangesNothing | backend/app/api/flows.py:220-297 | a refused request leaves every table as it was |
| FlowEffects.VersionsAreImmutable | backend/app/api/flows.py:371-391 | a saved version stays exactly as it is for as long as its flow is not deleted |
| FlowEffects.SaveHoldsWhatWasSubmitted | backend/app/api/flows.py:371-391 | the saved version has the graph submitted and a number above every earlier one; nothing else changes |
| FlowEffects.CloneHoldsTheSource | backend/app/api/flows.py:189-243 | when a clone succeeds, and that it is a draft whose only version has the graph of the source's active version, or of its latest |
| FlowEffects.ActivationMovesThePointer | backend/app/api/flows.py:403-418 | activation succeeds exactly for a validated version of the flow, which is then the active one |
| FlowEffects.ActivationAnswersCalls | backend/app/flows/runtime.py:149-181 | until the next activation of the flow, a call to any number assigned to it runs exactly the activated version |
| FlowEffects.AssignmentBinds | backend/app/api/numbers.py:85-102 | an assignment succeeds exactly for the right media and an active flow, or to unassign, and then binds |
| FlowEffects.AssignmentStays | backend/app/api/numbers.py:100-102 | and lasts until the next assignment of that number |
| FlowEffects.DeleteOutcome | backend/app/api/flows.py:286-311 | which of the four things a delete does, and exactly what it removes |
| FlowEffects.RestoreUnhides | backend/app/api/flows.py:322-327 | a restore clears the archive mark and nothing else |
| FlowEffects.CreateOpensADraft | backend/app/api/flows.py:177-185 | a new flow is neither active nor archived, and nothing else changes |
| FlowEffects.FirstPinHolds | backend/app/flows/runtime.py:184-194 | a call keeps its first pin |
| FlowEffects.NewRowsAreBlank | backend/app/models/models.py:109-174 | a new number has no flow, a new call no pin |
| TokenRefresh.AtMostOneRefreshAndTwoFetches | frontend/src/api.ts:34-114 | in every interleaving at most one refresh is outstanding and no request fetches more than twice |
| TokenRefresh.RedeemedTokenIsNeverSentAgain | frontend/src/api.ts:36-70 | while answers carry new tokens, a refresh token whose redemption succeeded is never sent again |
| TokenRefresh.RedeemedTokenGoesExactlyWhen | frontend/src/api.ts:19-58 | after one successful answer the redeemed token is no longer stored exactly when the answer carries a new one, or none and the store had changed meanwhile |
| TokenRefresh.WithoutRotationItIsSentAgain | frontend/src/api.ts:21-24 | a run in which an answer without a new token leads to the redeemed one being sent again |
| TokenRefresh.ErasedExactlyWhenRefused | frontend/src/api.ts:51-109 | the stored refresh token disappears exactly at a sign-out or a definite refusal; a network or 5xx failure erases nothing |
| TokenRefresh.AccessErasedExactlyWhenRefused | frontend/src/api.ts:21-28 | so does the access token, which otherwise only ever changes to a new one |
| TokenRefresh.SuccessStoresTheTokens | frontend/src/api.ts:56-58 | a successful answer stores its access token, and its refresh token if it carries one |
| TokenRefresh.RequestEndsExactlyWhen | frontend/src/api.ts:94-114 | a request ends exactly when it is answered other than 401, when its second try is answered 401, or when its refresh did not succeed |
| TokenRefresh.RefreshedRequestIsRetried | frontend/src/api.ts:98-104 | a refused request redeems the stored token, both new ones are stored, and it is sent once more |
| TokenRefresh.FailedRefreshEndsTheRequest | frontend/src/api.ts:103-109 | a failed refresh ends it without a second fetch, and erases the tokens only if the server refused |
| TokenRefresh.LaterRefusalsJoin | frontend/src/api.ts:41-69 | a request refused while a refresh is out waits for that one |
| TokenRefresh.Client.RefreshAccessToken | frontend/src/api.ts:40-70 | joins the refresh in progress or starts the only one |
| TokenRefresh.Client.SetTokens | frontend/src/api.ts:21-24 | replaces the access token, and the refresh token only if there is a new one |
| TokenRefresh.Client.ClearToken | frontend/src/api.ts:25-28 | erases both tokens |
| TokenRefresh.Client.OnAnswer | frontend/src/api.ts:98-113 | a 401 waits for a refresh the first time and signs out the second |
| TokenRefresh.Client.OnSettled | frontend/src/api.ts:103-109 | retries once, gives up or signs out, as the refresh settled |
| TokenRefresh.Client.OnRefreshed | frontend/src/api.ts:46-62 | how a refresh settles and what it stores |
| TokenRefresh.Client.OnLanded | frontend/src/api.ts:65-67 | only the settled refresh is forgotten |
| Registries.SlotsAddUp | owen-voice/app/agent_api.py:127-195 | in every interleaving used and free slots add up to the capacity; a request is refused exactly when every slot is held, so an admitted one never waits; slots lost for ever are those of requests that ended before the release |
| Registries.SlotsAreHeldExactlyBy | owen-voice/app/agent_api.py:127-195 | a slot is held by exactly the requests admitted and not ended, and lost to exactly those that ended before their release |
| Registries.ReleasedSlotComesBack | owen-voice/app/agent_api.py:193-194 | a released slot is free for the next request |
| Registries.AdmitsExactlyWhen | owen-voice/app/agent_api.py:128-135 | a request is admitted exactly when fewer slots than the capacity are held |
| Registries.LostSlotRefusesTheNext | owen-voice/app/agent_api.py:127-195 | the witness: with one slot, one request that ends before its release makes the next one refused |
| Registries.CapacityGate.Enter | owen-voice/app/agent_api.py:127-135 | refuses at once or takes a slot |
| Registries.CapacityGate.Leave | owen-voice/app/agent_api.py:191-195 | gives the slot back after the teardown |
| Registries.PruneKeepsTheNewest | owen-voice/app/session.py:333-341 | every open session is kept; of the closed ones exactly the newest keep_last, all of them when keep_last is zero |
| Registries.SessionRegistry.PruneClosed | owen-voice/app/session.py:333-341 | the loop removes exactly the excess |
| Registries.SessionRegistry.Create | owen-voice/app/session.py:316-319 | registers an open session under its identifier |
| Registries.TableIsTheOpenWatches | backend/app/flows/dtmf.py:88-109 | each channel's list holds each queue exactly as often as it is watched and not yet unwatched, and no empty list persists |
| Registries.PairedRunsEndEmpty | backend/app/flows/dtmf.py:88-109 | when every watch is paired with an unwatch, the table ends empty |
| Registries.RemoveAllCounts | backend/app/flows/dtmf.py:98-109 | an unwatch removes the queue once for each mention of a channel, and touches nothing else |
| Registries.WatcherTable.WatchChannels | backend/app/flows/dtmf.py:88-95 | one new queue, subscribed to every named channel |
| Registries.WatcherTable.UnwatchChannels | backend/app/flows/dtmf.py:98-109 | detaches the queue, dropping lists that become empty |

## Left out

- Resample.Decimator.Feed: float32 rounding and the design of the kernel; samples are integers, taps arbitrary reals, sums exact.
- AudioSocket.FrameParser.Feed: the source yields frames lazily; the model returns the frames of one call together, which is the same for its only caller unless that caller stops early, and then the connection is over.
- EchoServer.HandleConnection: agent mode (its frames go to the conversation models), the tone pump's own output, the UUID timeout and exceptions (both end the loop like a close), the clock fields, and the digits' decoding to text.
- TurnDetection.TurnDetector.PushFrame: RMS values; each frame comes with whether it is loud, so the threshold may change from frame to frame.
- LocalTurns.Conversation.Receive: the time guardrails it returns and the energy statistics; the queue it clears is in `HalfDuplex`.
- EagerTurns.SafeAlways: the greeting and other speech outside turn tasks, and what a turn's model and voice say; a turn may fail or end at any step.
- EagerTurns.DraftSpeaksOnlyWhenReleased: says nothing of the blocking fallback reply, which does not pass the gate; `HeardBeforeTheEndExactlyWhen` does.
- EagerTurns.ActsBeforeTheEndExactlyWhen: what a dispatched tool does, such as ending the session by an exit port.
- Playout.PlayoutQueue.Pump: failing writes, and the sleep, which `CadenceDoesNotDrift` models apart.
- Speakable.SplitSpeakable: `force_at` below zero, which no caller passes.
- Recutting.SentencesIgnoreTheDeltasExactlyWhen: replies with 140 characters or more in which no sentence ends, where the forced cuts move with the deltas.
- ToolCalls.Conversation.DispatchTools: argument values other than strings, and the JSON reader, which is any function of the text.
- Realtime.Run: guardrails that add up across reconnects (the clocks restart with each attempt, as in the source), the optional SMS sender, transcript persistence and a failing close.
- OutboundCall.CallDesk.Place: log entries whose time cannot be parsed, the guards before calling hours (their refusal is a parameter), the spend cap's computation and the queued job.
- OutboundCall.RepeatRuleOnceADay: a bound in minutes when the clocks change; `RepeatRuleHoldsExactlyWhen` decides that case from the calendar.
- OutboundCall.NormalisingIsIdempotent: digits outside ASCII.
- FlowLibrary.SoundAlways: overlapping database transactions, renaming, the graph validator and the media provider (parameters), and numbers that disappear.
- TokenRefresh.RedeemedTokenIsNeverSentAgain: other tabs sharing the same storage, and token formats; tokens are numbers and a new one is one never issued before.
- Registries.SlotsAddUp: what happens inside a session, and the HTTP answer.
- Registries.PruneKeepsTheNewest: a negative keep_last, and sessions removed one at a time by `drop`.
- Registries.TableIsTheOpenWatches: the bounded event queues themselves, `push_channel_event` and the digit queues.
- Latin-script filtering, prompts, voices and languages, logging, metrics, dashboards, billing and all network, database and vendor I/O.
