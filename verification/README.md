# Verified model of a realtime speech engine

The engine streams speech to browsers and listens while it speaks. Its promises
run along one axis, the source audio frame: nothing the listener did not hear may
enter the conversation history, the listener's acknowledgements are the only
source of sending credit, and work started on a guess may not reach the
conversation before the turn it guessed is committed. This project models the
code that carries those promises and proves them for every input, every run and
every interleaving.

`dafny verify dfyconfig.toml` checks everything.

## How it is laid out

Code that updates fields in place is a class here, with the same fields and one
method per source method or locked section; each method is proved to compute a
function on values, and the theorems are lemmas about those functions and about
runs of them.

| part | specification and theorems | objects |
|---|---|---|
| browser player | `Resampling`, `PlayerModel`, `PlayerInvariant`, `PlayerRuns`, `PlayerAudible`, `PlayerReports`, `PlayerAck`, `PlayerCredit` | `PcmRing`, `Resampler`, `Player` |
| credit-v1 | `Protocol`, `ProtocolInvariant`, `ProtocolSteps`, `ProtocolPlayer`, `ProtocolRuns`, `ProtocolDescriptors`, `ProtocolCycles`, `ProtocolFlood`, `ProtocolServer`, `ProtocolGenerations`, `GenerationInvariant`, `GenerationServer`, `GenerationClient`, `GenerationPlayer`, `GenerationRuns`, `GenerationOverlap`, `ClientRules` | `Flow`, `Client`, `Sender` |
| conversation store | `ConversationModel`, `ConversationHistory`, `ConversationBounds`, `ConversationContext`, `ConversationText`, `ConversationStatus`, `ConversationExchanges` | `Conversation` |
| session | `Playback`, `PlaybackMoves`, `PlaybackRace`, `TurnModel`, `TurnInvariant`, `TurnDecisions`, `TurnInputs`, `TurnAnswers`, `TurnGuesses`, `TurnTexts`, `TurnSteps`, `TurnEvents`, `TurnWorks`, `TurnHeld`, `TurnWriters`, `TurnRuns`, `TurnPauses`, `TurnBarrier`, `TurnScenario`, `TurnWindow` | `Playback`, `SessionBooks`, `Session` |
| speech chunker | `ChunkerModel`, `ChunkerCuts`, `ChunkerSplits` | `Chunker` |
| recogniser runtime | `SttRuntime`, `SttFallback`, `SttPaths` | `SttService` |
| WAV | `WavModel`, `WavBytes` | `Wav` |

`Arithmetic` holds the few facts about products and quotients they share,
`Options` the type of values that may be missing.

* **Browser player.** Frames are integers and samples reals. The streaming
  resampler is compared with one formula for the whole source: output sample k is
  the source at position k*s/o, the last sample held. The ring, the packet
  descriptors and every report are covered, for any messages and render quanta.
* **Credit-v1.** Sender, session, worklet port and player exchange messages over
  first-in first-out channels and take steps in any order. The composition uses
  the player's own model, so the absence of deadlock is a statement about audio
  that will be rendered, not about an abstract receiver. One generation is treated
  alone first; then any number of them, one after another on the same channels,
  with messages of former ones still under way everywhere.
* **Conversation store.** Text is a sequence of bytes; what is valid or blank text
  is a parameter. Operations may come in any order for the history theorems; the
  size bounds assume one answer per turn with the former one settled first, which
  the session part proves of the session.
* **Session.** Each locked section is one event, and
  `Session.RealtimeSession.Handle` shows that whatever reaches the object is a step
  of the runs. Detector, classifier, recogniser, model, timers and clients are
  events that may come at any time, late or stale. All that is asked of an event is
  that fresh identifiers are fresh, that a worker reports from where it is, and that
  a packet writer records no more than it was handed and its window has granted. A log records commits,
  promotions, decisions and launches; it is what the run theorems speak about.
* **Recogniser runtime.** Any number of clients and closers, each a program
  counter, interleaved at every lock, channel operation and foreign call.
* **What each step does.** Beside what every step keeps, the modules `PlayerAudible`,
  `PlayerReports`, `ClientRules`, `ConversationText`, `ConversationStatus`,
  `ConversationExchanges`, `PlaybackMoves`, `TurnDecisions`, `TurnInputs`,
  `TurnAnswers`, `TurnGuesses`, `ChunkerCuts`, `SttFallback`, `SttPaths` and `WavBytes`
  say what it leads to, for all inputs and in terms of what can be observed: samples
  and reports, the log and the books, the characters and bytes themselves.
* **Integers.** Counters are unbounded except where width matters: the WAV size
  fields wrap at 2^32, and the player's exact-integer limit of JavaScript is its
  own check.

Small locked helpers have no row below: the section that calls them states the
whole new state, and `Session.RealtimeSession.Handle` and the recogniser's
invariant cover them all.

Where the code does less than one might expect, this is proved too. The
descriptor table of the player can fill up with small packets: that is the one
fault of the protocol (`ProtocolRuns.NextGood`). Packets of at least n frames never
fill it if and only if 4096*n is at least two seconds
(`ProtocolFlood.PacketSizeExact`). The server's own send loop writes less than a
full packet where a chunk or the window ends, and it can be led to do so all the
time: it is safe whatever the timing if and only if two seconds are at most 4096
frames (`ProtocolServer.ServerExact`). At any higher rate credit that comes back
frame by frame, in the middle of one chunk of five seconds, fills the table. The
frame totals of these runs stay representable at every output rate below 2^32
(`ProtocolServer.LongEnough`). A
blank behind a complete cut can make chunking depend on where deltas end
(`ChunkerSplits.SplitShows`); when it does is stated exactly
(`ChunkerSplits.SplitExact`, `ChunkerSplits.LevelExact`, `ChunkerSplits.AlikeExact`), and deltas that begin
with no blank never do (`ChunkerSplits.NoLeadIsBatch`). The written WAV is readable
by the strict readers if and only if it holds at least one whole sample and its
size does not wrap (`WavModel.StrictRoundTrip`). The TypeScript and Python readers accept the
same files but refuse a bad outer header with different codes
(`Wav.WavToPcmPython`). The validated byte bound of the store is necessary as
well as sufficient (`ConversationBounds.ByteBoundExact`). That the barrier
theorems are not empty is shown by a run that crosses the barrier
(`TurnScenario.UndisturbedAdopts`), and that an acknowledgement can overtake the
record of its write by one that does (`TurnWindow.RaceHappens`). A plain position
that does so under explicit credit is not remembered, unless the snapshot that the
clients send with it is (`PlaybackRace.PositionRecordExact`).

## Model

| member | source | states |
|---|---|---|
| Resampling.StreamedSample | sdk/typescript/src/audio-worklet.js:30-41 | the fraction the loop computes for sample k when a frame arrives is the linear interpolation of the source at position k*s/o |
| Resampling.HeldSample | sdk/typescript/src/audio-worklet.js:42-45 | every output position past the last source frame holds that frame |
| Resampling.EmittedIff | sdk/typescript/src/audio-worklet.js:34-38 | after N frames exactly the output samples with k*s <= (N-1)*o exist |
| Resampling.TargetIff | sdk/typescript/src/audio-worklet.js:29 | ceil(N*o/s) is the number of output positions below the end of the source |
| Resampling.OutputStable | sdk/typescript/src/audio-worklet.js:30-41 | decided output never changes when more source arrives |
| Resampling.SampleStable | sdk/typescript/src/audio-worklet.js:30-41 | each decided sample is fixed by the source so far, whatever follows |
| PcmRing.PCMFrameRing.constructor | sdk/typescript/src/audio-worklet.js:3-7 | an empty queue of the given capacity |
| PcmRing.PCMFrameRing.Clear | sdk/typescript/src/audio-worklet.js:8 | the queue is emptied |
| PcmRing.PCMFrameRing.Write | sdk/typescript/src/audio-worklet.js:10-15 | appends to the first-in first-out queue held in the ring, or reports that it is full |
| PcmRing.PCMFrameRing.Read | sdk/typescript/src/audio-worklet.js:16-21 | takes the oldest sample, whatever the indices wrapped to |
| Resampler.StreamingLinearResampler.constructor | sdk/typescript/src/audio-worklet.js:27-28 | nothing received, nothing emitted |
| Resampler.StreamingLinearResampler.Reset | sdk/typescript/src/audio-worklet.js:28 | forgets the source and the phase |
| Resampler.StreamingLinearResampler.TargetFrames | sdk/typescript/src/audio-worklet.js:29 | the output length of that many source frames |
| Resampler.StreamingLinearResampler.EmitSample | sdk/typescript/src/audio-worklet.js:35-37 | writes exactly the next sample of the interpolated source |
| Resampler.StreamingLinearResampler.PushFrame | sdk/typescript/src/audio-worklet.js:31-40 | writes every sample one more frame decides, and fails exactly when they do not fit |
| Resampler.StreamingLinearResampler.Push | sdk/typescript/src/audio-worklet.js:30-41 | one packet appends the interpolated samples it decides to the ring; "PCM ring full" is raised if and only if they do not fit |
| Resampler.StreamingLinearResampler.Finish | sdk/typescript/src/audio-worklet.js:42-45 | the tail completes the ring to the batch conversion of the whole source; it fails if and only if the tail does not fit |
| PlayerCredit.AdvertisedWindowFits | sdk/typescript/src/audio-worklet.js:117-124 | a sender keeping received minus acknowledged within the advertised capacity always passes the ring check, tail included |
| PlayerCredit.AdvertisedAccepted | sdk/typescript/src/audio-worklet.js:52-55 | for every ring the constructor allows, output rate >= 8000 and accepted source rate, the advertised capacity lies in the range the server accepts |
| PlayerCredit.TwoSecondRing | sdk/typescript/src/audio-worklet.js:177-179 | the advertised capacity is two source seconds if and only if the ring, less tail and rounding, holds two output seconds |
| PlayerCredit.DefaultRing | sdk/typescript/src/audio-worklet.js:52-55 | the default ring does hold them |
| PlayerInvariant.ProgressIsFloor | sdk/typescript/src/audio-worklet.js:160-164 | the reported position is always the smaller of received and the floor of the rendered position, never ahead of either |
| PlayerInvariant.DrainedFloor | sdk/typescript/src/audio-worklet.js:162-163 | at drain the floor formula already reaches the received total: the special case causes no jump |
| PlayerInvariant.ProgressMonotone | sdk/typescript/src/audio-worklet.js:160-164 | the reported position never moves back |
| PlayerInvariant.LiveDescriptors | sdk/typescript/src/audio-worklet.js:165-171 | live descriptors are exactly the packets ending after the reported position; none when it reaches the total |
| PlayerInvariant.EndedOk | sdk/typescript/src/audio-worklet.js:139-145 | the tail written at finish fits the room reserved when its packets were admitted |
| PlayerInvariant.EnqueueOk | sdk/typescript/src/audio-worklet.js:100-133 | every way an audio message ends keeps frames, descriptors, positions and reports consistent |
| PlayerInvariant.FinishOk | sdk/typescript/src/audio-worklet.js:139-145 | so does finishing, complete or incomplete |
| PlayerInvariant.ProcessOk | sdk/typescript/src/audio-worklet.js:203-230 | so does every render quantum |
| PlayerInvariant.FailOk | sdk/typescript/src/audio-worklet.js:134-138 | so does failing |
| PlayerInvariant.SetFormatOk | sdk/typescript/src/audio-worklet.js:92-99 | so does a format message |
| PlayerInvariant.SetGenerationOk | sdk/typescript/src/audio-worklet.js:87-91 | so does a new generation |
| PlayerInvariant.PauseOk | sdk/typescript/src/audio-worklet.js:151-155 | so does a pause |
| PlayerRuns.StepMoves | sdk/typescript/src/audio-worklet.js:64-74 | every message and quantum moves the frame counts by a frame step of one generation |
| PlayerRuns.AdvanceOk | sdk/typescript/src/audio-worklet.js:203-230 | one event keeps what was heard equal to the batch conversion so far |
| PlayerRuns.StreamingIsBatch | sdk/typescript/src/audio-worklet.js:30-46 | over any events, what was played is a prefix of the batch interpolation of the accepted source, and at completion exactly its ceil(N*o/s) samples |
| PlayerRuns.SplitIndependent | sdk/typescript/src/audio-worklet.js:24-46 | packet splits, pauses and quantum sizes leave no trace: completed generations of equal source and rate were heard identically |
| PlayerRuns.ReportsMonotone | sdk/typescript/src/audio-worklet.js:172-195 | over any run reported positions never exceed received or rendered and never go back within a generation |
| PlayerAudible.HeardExactly | sdk/typescript/src/audio-worklet.js:203-224 | a quantum plays nothing and changes nothing when there is no generation, playback is paused or completed, or the watermark is not reached; otherwise it plays all that fits |
| PlayerAudible.PauseTaken | sdk/typescript/src/audio-worklet.js:151-155 | a pause is taken in its own generation under a token, and reported at once with that token and the position; any other pause changes nothing |
| PlayerAudible.ResumeExact | sdk/typescript/src/audio-worklet.js:156-159 | the token of the pause ends it, and nothing else does |
| PlayerAudible.PauseToResume | sdk/typescript/src/audio-worklet.js:151-159 | over any events: from a pause that was taken until the resume with the last token, or until the generation is over, nothing more is heard; and that resume ends it |
| PlayerAudible.FirstSample | sdk/typescript/src/audio-worklet.js:210-215 | over any run: the first sample of a generation waits for the startup watermark, or for the end of the source, and for nothing else |
| PlayerAudible.QuantumGap | sdk/typescript/src/audio-worklet.js:212-226 | playing begins with the first sample; a quantum that runs short before the end of the source opens a gap, and a full one closes it |
| PlayerAudible.AfterGap | sdk/typescript/src/audio-worklet.js:210-226 | over any events: after a quantum that ran short the next sample waits for the low watermark, or for the end of the source, and for nothing else |
| PlayerAudible.OptionsTaken | sdk/typescript/src/audio-worklet.js:49-56 | 30 and 10 milliseconds and 30 seconds unless asked otherwise, within 0-100, 0-100 and 200-30000 |
| PlayerReports.QuantumPosts | sdk/typescript/src/audio-worklet.js:221-228 | what a quantum reports: an underrun when a gap opens, progress when the ring is empty or a twentieth of a second and 128 frames are unreported, then progress and completion when the last sample was played; every report tells the counts as they are |
| PlayerReports.DonePosts | sdk/typescript/src/audio-worklet.js:139-145 | the end is taken when nothing is missing, and completes at once when nothing is queued |
| PlayerReports.FormatPosts | sdk/typescript/src/audio-worklet.js:92-99 | a format in range is taken once and answered with credit; another one ends the generation, with the reason |
| PlayerReports.AudioPosts | sdk/typescript/src/audio-worklet.js:100-133 | a packet is ignored, taken and answered with credit, or ends the generation for its form, its place or its size, each said |
| PlayerReports.GenerationPosts | sdk/typescript/src/audio-worklet.js:87-91 | a new generation tells how far the former one was played, and begins with nothing |
| PlayerReports.ClearPosts | sdk/typescript/src/audio-worklet.js:146-150 | so does clearing, and ends in no generation |
| PlayerAck.StepAck | sdk/typescript/src/audio-worklet.js:165-202 | whatever happens, the last forwarded report is at most one report interval behind, is level when the ring is empty, and lags only by rounding |
| PlayerCredit.BlockedRenders | sdk/typescript/src/audio-worklet.js:203-219 | a player whose sender is out of credit renders at least one frame in the next quantum |
| PlayerCredit.AckArrives | sdk/typescript/src/audio-worklet.js:223-227 | within one report interval of quanta of any sizes a strictly later position is forwarded, the unforwarded underrun report notwithstanding |
| Player.DescriptorRing.Add | sdk/typescript/src/audio-worklet.js:125-129 | appends a packet end to the descriptor queue |
| Player.DescriptorRing.RetireUpTo | sdk/typescript/src/audio-worklet.js:165-171 | drops exactly the leading ends not beyond the position |
| Player.PCMPlayerProcessor.constructor | sdk/typescript/src/audio-worklet.js:49-75 | the initial state for bounded options |
| Player.PCMPlayerProcessor.Reset | sdk/typescript/src/audio-worklet.js:76-86 | forgets everything of the generation |
| Player.PCMPlayerProcessor.SourcePosition | sdk/typescript/src/audio-worklet.js:160-164 | computes the reported position |
| Player.PCMPlayerProcessor.UpdateProgress | sdk/typescript/src/audio-worklet.js:165-171 | stores it and retires descriptors |
| Player.PCMPlayerProcessor.Report | sdk/typescript/src/audio-worklet.js:172-195 | posts one snapshot, or nothing without a generation |
| Player.PCMPlayerProcessor.SetGeneration | sdk/typescript/src/audio-worklet.js:87-91 | reports for the former generation and starts afresh |
| Player.PCMPlayerProcessor.Clear | sdk/typescript/src/audio-worklet.js:146-150 | reports, forgets and leaves no generation; ignores other generations |
| Player.PCMPlayerProcessor.Fail | sdk/typescript/src/audio-worklet.js:134-138 | reports the overflow and clears |
| Player.PCMPlayerProcessor.SetFormat | sdk/typescript/src/audio-worklet.js:92-99 | fixes the rate or fails, and reports credit; a message without a generation is taken when none is active |
| Player.PCMPlayerProcessor.Enqueue | sdk/typescript/src/audio-worklet.js:100-133 | accepts, ignores or fails a packet, changing ring, resampler and descriptors accordingly; the ring never overflows |
| Player.PCMPlayerProcessor.Finish | sdk/typescript/src/audio-worklet.js:139-145 | writes the tail and drains, or fails on an incomplete source; the ring never overflows |
| Player.PCMPlayerProcessor.Pause | sdk/typescript/src/audio-worklet.js:151-155 | pauses with a token and reports |
| Player.PCMPlayerProcessor.Resume | sdk/typescript/src/audio-worklet.js:156-159 | resumes only for the pausing token |
| Player.PCMPlayerProcessor.CheckDrain | sdk/typescript/src/audio-worklet.js:196-202 | completes once, when done and empty |
| Player.PCMPlayerProcessor.Process | sdk/typescript/src/audio-worklet.js:203-230 | the samples handed out are the oldest in the ring and the whole new state is that of the model |
| Player.PCMPlayerProcessor.OnMessage | sdk/typescript/src/audio-worklet.js:64-74 | dispatches each message to its handler |
| Flow.ApplyOk | internal/audio/flow.go:55-88 | counters only grow and played <= received <= reserved <= played + 30 seconds |
| Flow.NoCreditMinted | internal/audio/flow.go:55-126 | over any run of grants, snapshots and acknowledgements the sender stays within thirty seconds of what was reported played |
| Flow.ReplayAddsNothing | internal/audio/flow.go:63-66 | a repeated or older snapshot adds no received and no played frames, at once or later |
| Flow.FlowController.constructor | internal/audio/flow.go:38-43 | a two-second window before any snapshot |
| Flow.FlowController.RequireCredit | internal/audio/flow.go:46-51 | no window until the first snapshot |
| Flow.FlowController.Update | internal/audio/flow.go:55-73 | rejects exactly the unacceptable snapshots, ignores stale ones, adopts the rest |
| Flow.FlowController.Acknowledge | internal/audio/flow.go:76-88 | only without explicit credit, never beyond what was reserved |
| Flow.FlowController.Snapshot | internal/audio/flow.go:90-96 | the state, and the open window or zero |
| Flow.FlowController.Reserve | internal/audio/flow.go:100-143 | grants min(requested, open window) of the state after whatever happened while it waited; reserves nothing otherwise |
| Client.PositionsKept | sdk/typescript/src/session.ts:159-174 | receipt and acknowledgement keep 0 <= played <= received |
| ClientRules.StartExact | sdk/typescript/src/session.ts:146-153 | a format is mono, sixteen bits, 1000 to 192000 Hz, and the same within a generation; the first one opens a window of two seconds |
| ClientRules.PacketExact | sdk/typescript/src/session.ts:159-173 | which packets are taken and for which reason any other is refused |
| ClientRules.PlayedExact | sdk/typescript/src/session.ts:229-237 | a received position is played unless a later one is known |
| ClientRules.SnapshotExact | sdk/typescript/src/session.ts:226-228 | a snapshot tells the window, both positions and what waits between them |
| Client.Session.constructor | sdk/typescript/src/session.ts:48-49 | no generation, no audio, no pair begun |
| Client.Session.Receive | sdk/typescript/src/session.ts:100-154 | outcome, generation, phase, audio, pair and messages sent after every text message; once a pair is begun every text message is refused and changes nothing, nothing but an audio delta begins one, and a generation that ends names exactly the frames received |
| Client.Session.OnGenerationCreated | sdk/typescript/src/session.ts:124-127 | forgets the audio of the former generation; an identifier is required |
| Client.Session.OnGenerationCancelled | sdk/typescript/src/session.ts:128-129 | drops the audio when the current generation is named; one that is done stays done |
| Client.Session.OnGenerationDone | sdk/typescript/src/session.ts:130-135 | a total other than the frames received is refused |
| Client.Session.SendCredit | sdk/typescript/src/session.ts:238-240 | sends the snapshot of the current audio |
| Client.Session.OnChunkStarted | sdk/typescript/src/session.ts:143-149 | opens the two-second window once, refuses other formats and rate changes |
| Client.Session.OnAudioDelta | sdk/typescript/src/session.ts:150-153 | begins a pair, which a transcription session refuses |
| Client.Session.OnBinary | sdk/typescript/src/session.ts:159-173 | accepts exactly whole, ordered packets inside the window, drops pairs of other generations, never moves played; a packet beyond the window has been counted when it is refused, any other refusal leaves the audio alone |
| Client.Session.AckPlayed | sdk/typescript/src/session.ts:229-237 | refuses positions beyond received, ignores older ones, otherwise acknowledges |
| Sender.NextPacket | internal/transport/http/realtime.go:887-925 | credit for one packet of whole frames within the wire limit |
| Sender.SendChunk | internal/transport/http/realtime.go:887-970 | what was written is a prefix of the chunk in numbered, contiguous, whole-frame packets, reserved frame for frame; success if and only if all was written |
| ProtocolInvariant.Ordered | sdk/typescript/src/session.ts:143-174 | player received <= client received <= reserved and server played <= client played <= rendered position, in every good state |
| ProtocolSteps.HonestAccepted | internal/audio/flow.go:55-72 | an honest snapshot is never rejected and never stale in order |
| ProtocolSteps.PacketWithinWindow | sdk/typescript/src/session.ts:159-173 | a packet of the server never trips the window, position or order checks |
| ProtocolRuns.NextGood | internal/transport/http/realtime.go:887-970 | every step of sender, session, player and channels keeps the whole invariant; the only fault there can be is a full descriptor table |
| ProtocolRuns.CountsAgree | internal/audio/flow.go:55-126 | in every reachable state reserved = received + in flight, server played <= client played <= received, and no party has refused another |
| ProtocolRuns.NothingUnheard | internal/realtime/conversation.go:212-254 | no acknowledgement is lost between write and record, and nothing is acknowledged that was not played out |
| ProtocolRuns.HeardIsProduced | sdk/typescript/src/audio-worklet.js:203-230 | end to end: what is heard is a prefix of the batch conversion of what the sender produced, and all of it at completion |
| ProtocolRuns.QuietAgrees | sdk/typescript/src/session.ts:226-240 | with nothing in flight the sender knows the last acknowledged position |
| ProtocolRuns.StarvedIsBlocked | internal/audio/flow.go:119-126 | a sender without credit and nothing in flight faces a player that can render |
| ProtocolRuns.NoDeadlock | sdk/typescript/src/browser.ts:31-36 | then render quanta of any sizes reopen the window within one report interval |
| ProtocolDescriptors.NeverFails | sdk/typescript/src/audio-worklet.js:57-60 | packets of at least a 2048th of a second never exhaust the descriptors, so no run of them fails anywhere |
| ProtocolFlood.PacketSizeExact | sdk/typescript/src/audio-worklet.js:57-60 | no run of packets of at least so many frames ever fails if and only if the table holds two seconds of them |
| ProtocolCycles.Cycle | sdk/typescript/src/audio-worklet.js:117-133 | a packet that arrives behind k rendered frames brings the sender the credit of exactly the position those frames reach, unless the table is full |
| GenerationRuns.ActUpheld | sdk/typescript/src/session.ts:124-174 | over any number of generations, whatever server, session, player or a writer of a former generation does, every generation there has been stays in a state it could be in alone, or the descriptor table is full |
| GenerationRuns.GenerationsAgree | sdk/typescript/src/session.ts:129-142 | over any run of any number of generations, with packets, snapshots and reports of former ones still in every queue, no party refuses another and the counts of the present one line up: reserved = received + in flight, server played <= client played <= received |
| GenerationRuns.HeardIsOwn | sdk/typescript/src/audio-worklet.js:86-91 | over any such run, what the listener has heard since the player entered its generation, the present or a former one, is a prefix of the batch conversion of what that generation alone produced, and all of it at completion |
| GenerationRuns.NothingUnheardAcross | internal/realtime/session.go:113-214 | over any such run, nothing heard of a former generation is acknowledged for the present one, and no acknowledgement is lost |
| GenerationRuns.NoDeadlockAcross | sdk/typescript/src/browser.ts:31-45 | at the end of any such run with nothing in flight all parties are in the present generation, and a sender out of credit is answered within one report interval of render quanta |
| GenerationOverlap.ThreeAtOnce | sdk/typescript/src/browser.ts:16-45 | such a run: server, session and player are in three different generations, with messages of former ones in every queue |
| ProtocolServer.ServedIsRun | internal/transport/http/realtime.go:887-925 | whatever the send loop does, cutting chunks by the wire limit, the chunk end and the open window, is a run of the protocol with no empty packet, so all of the above holds of it |
| ProtocolServer.ServerExact | internal/audio/flow.go:100-143 | the send loop never fills the table, whatever the timing and however few chunks an answer may have, if and only if the table holds two seconds of single frames; otherwise credit that returns frame by frame in the middle of one chunk fills it |
| ConversationModel.FindUser | internal/conversation/runtime.go:107-115 | the first user item of a turn |
| ConversationModel.FindAssistant | internal/conversation/runtime.go:116-124 | the first answer of a generation |
| ConversationModel.GroupEnd | internal/conversation/runtime.go:300-314 | the end of a run of items of one turn |
| ConversationHistory.RunHistory | internal/conversation/runtime.go:125-274 | after any operations in any order chunk ranges tile, played <= sent <= generated, and a chunk is played if and only if its end is heard |
| ConversationHistory.ApplyHistory | internal/conversation/runtime.go:125-274 | each operation keeps that |
| ConversationHistory.PlayedPrefix | internal/conversation/runtime.go:188-223 | played flags form a prefix |
| ConversationHistory.AllPlayedIffHeard | internal/conversation/runtime.go:236-259 | all chunks are played if and only if everything generated was heard |
| ConversationHistory.DeliveredIsHeard | internal/conversation/runtime.go:275-287 | the delivered text is exactly the text of the chunks heard in full |
| ConversationHistory.SentExact | internal/conversation/runtime.go:188-223 | the chunks' sent counts sum to the item's when the first chunk starts at frame 0 |
| ConversationHistory.SentAddsUp | internal/conversation/runtime.go:188-223 | in general they sum to it clamped to the chunks' range |
| ConversationHistory.TrimIsSuffix | internal/conversation/runtime.go:300-314 | eviction keeps the system item and a suffix of whole turns, and stops as early as the bounds or the current turn allow |
| ConversationHistory.ApplyEvolves | internal/conversation/runtime.go:139-274 | a settled item never changes again under any operation; pending text and counts only grow; only oldest turns go |
| ConversationHistory.RunEvolves | internal/conversation/runtime.go:139-274 | over any run |
| ConversationBounds.TrimBounded | internal/conversation/runtime.go:300-314 | eviction restores the bounds without touching the current exchange |
| ConversationBounds.ApplyBounded | internal/conversation/runtime.go:125-274 | each disciplined operation keeps items <= MaxItems and bytes <= MaxBytes |
| ConversationBounds.RunBounded | internal/conversation/runtime.go:125-314 | over any disciplined run |
| ConversationBounds.ByteBoundExact | internal/conversation/runtime.go:49-78 | the 4*MaxItemBytes term of the validated bound holds if and only if every disciplined run stays within MaxBytes |
| ConversationText.AppendExact | internal/conversation/runtime.go:146-167 | an accepted text extends what was written, or what was generated, and nothing else; which texts are accepted |
| ConversationText.AddChunkExact | internal/conversation/runtime.go:168-187 | an accepted chunk is the next one, with its text and range; which chunks are accepted |
| ConversationText.CommitUserExact | internal/conversation/runtime.go:125-138 | which user texts enter, as what |
| ConversationText.BeginExact | internal/conversation/runtime.go:139-145 | an answer begins pending and empty, once |
| ConversationText.HistoryIsWhatWasSaid | internal/conversation/runtime.go:125-187 | over any run: an answer holds exactly the accepted texts generated, written and spoken for its generation, in order, a user item the text committed for its turn |
| ConversationStatus.MarkedExact | internal/conversation/runtime.go:224-259 | an answer is completed when the model is done and all of it was written, or was heard; one that never had audio is cancelled |
| ConversationStatus.ProgressedExact | internal/conversation/runtime.go:188-223 | positions go forward within what was generated, chunk by chunk, and complete an answer heard to its end |
| ConversationStatus.FinalizedExact | internal/conversation/runtime.go:260-274 | an answer ended before is interrupted if anything of it reached the listener, and cancelled otherwise |
| ConversationStatus.OnlyItsAnswer | internal/conversation/runtime.go:188-274 | each of these concerns the pending answer of its generation alone |
| ConversationExchanges.RequestExact | internal/conversation/runtime.go:319-370 | the request is what was said, item by item: each committed user text and each answer behind it of which something was heard, in order, cut between questions, the candidate last |
| ConversationContext.ContextIsLongestSuffix | internal/conversation/runtime.go:319-370 | the request is the system message and the longest suffix of whole exchanges fitting both budgets |
| ConversationContext.ExchangesStartWithUser | internal/conversation/runtime.go:332-346 | every exchange starts with a user message |
| ConversationContext.OnlyHeard | internal/conversation/runtime.go:332-346 | every other message is a user text, the candidate, or exactly what was heard of an answer |
| ConversationContext.CandidateLast | internal/conversation/runtime.go:347-369 | a candidate is always last |
| ConversationContext.NewestUserLast | internal/conversation/runtime.go:319-370 | so is the newest user turn |
| ConversationContext.PeekCommitCommute | internal/realtime/speculation.go:255 | asking with a candidate and asking after committing it agree when nothing was evicted; otherwise the later request is a suffix |
| Conversation.Runtime.constructor | internal/conversation/runtime.go:98-105 | a store of just the system item |
| Conversation.Runtime.User | internal/conversation/runtime.go:107-115 | finds the turn's user item |
| Conversation.Runtime.Assistant | internal/conversation/runtime.go:116-124 | finds the generation's answer |
| Conversation.Runtime.CommitUser | internal/conversation/runtime.go:125-138 | adds the turn's user text once and evicts |
| Conversation.Runtime.BeginAssistant | internal/conversation/runtime.go:139-145 | opens an answer and evicts |
| Conversation.Runtime.Append | internal/conversation/runtime.go:146-167 | extends a pending text answer within its limit |
| Conversation.Runtime.AddChunk | internal/conversation/runtime.go:168-187 | appends a contiguous chunk within the limits |
| Conversation.Runtime.Progress | internal/conversation/runtime.go:188-223 | moves sent and played forward and flags chunks |
| Conversation.Runtime.Done | internal/conversation/runtime.go:224-235 | marks text or audio complete |
| Conversation.Runtime.Settle | internal/conversation/runtime.go:236-259 | completes an answer once everything was heard |
| Conversation.Runtime.Finalize | internal/conversation/runtime.go:260-274 | interrupts or cancels a pending answer |
| Conversation.Runtime.DeliveredText | internal/conversation/runtime.go:275-287 | the text of the played chunks |
| Conversation.Runtime.StoreSize | internal/conversation/runtime.go:288-297 | the bytes held |
| Conversation.Runtime.TrimStore | internal/conversation/runtime.go:300-314 | evicts oldest turns until the bounds hold |
| Conversation.Runtime.Context | internal/conversation/runtime.go:319-370 | computes the request window |
| Playback.PlaybackTimeline.SetFormat | internal/audio/timeline.go:80-96 | sets the rate and channels |
| Playback.PlaybackTimeline.AddGenerated | internal/audio/timeline.go:100-112 | generated grows |
| Playback.PlaybackTimeline.AddSent | internal/audio/timeline.go:115-127 | sent grows |
| Playback.PlaybackTimeline.SetPlayed | internal/audio/timeline.go:138-161 | never backwards, never beyond sent |
| Playback.PlaybackTimeline.SetPaused | internal/audio/timeline.go:164-172 | the pause flag |
| Playback.SyncOk | internal/realtime/conversation.go:60-71 | the pending answer is brought level with the timeline, within the store's bounds |
| Playback.AppendTextOk | internal/realtime/conversation.go:87-94 | text keeps the books: store bounded, newest item current, counts mirrored, no acknowledgement lost |
| Playback.RegisterSpeechOk | internal/realtime/conversation.go:188-211 | registering a chunk keeps them; chunks start where the timeline ends |
| Playback.RecordSentOk | internal/realtime/conversation.go:212-221 | recording written frames keeps them: acknowledgements that came first are applied |
| Playback.RecordSourceOk | internal/realtime/conversation.go:237-254 | a played position keeps them |
| Playback.UpdateCreditOk | internal/realtime/audio.go:31-47 | a credit snapshot keeps them |
| Playback.ReserveOk | internal/audio/flow.go:113-127 | a grant of the window keeps them and moves no position |
| PlaybackRace.CreditRecordCommute | internal/realtime/audio.go:31-47 | a credit snapshot that overtakes the record of the write it acknowledges leaves the books exactly as if it had come after |
| PlaybackRace.PositionRecordExact | internal/realtime/conversation.go:212-254 | a plain position that overtakes the record does so if and only if credit is not explicit, or nothing it says lies beyond what was recorded, or the window or an earlier position covers it |
| Playback.BeginGenerationOk | internal/realtime/session.go:113-162 | a new generation keeps them |
| Playback.EndGenerationOk | internal/realtime/session.go:181-214 | an ended one keeps them and leaves nothing pending |
| Playback.CommitUserOk | internal/realtime/conversation.go:134-159 | the user text enters a settled history as its newest item |
| PlaybackMoves.TextMoves | internal/realtime/conversation.go:87-94 | which texts are taken, and that they go to the running generation as generated or as written |
| PlaybackMoves.TextDoneMoves | internal/realtime/conversation.go:95-108 | marks the pending answer of the running generation and nothing else |
| PlaybackMoves.RegisterMoves | internal/realtime/conversation.go:188-211 | which chunks are registered, and that they begin where the generated audio ends |
| PlaybackMoves.FlowMoves | internal/realtime/audio.go:12-29 | a window of two seconds opens once, closed until the first snapshot if credit was negotiated |
| PlaybackMoves.ReserveMoves | internal/audio/flow.go:113-127 | a grant is what was asked for, or what is open |
| PlaybackMoves.SentMoves | internal/realtime/conversation.go:212-221 | where sent and played go when a write is recorded |
| PlaybackMoves.PositionMoves | internal/realtime/conversation.go:237-254 | where a position goes, and what it acknowledges |
| PlaybackMoves.CreditMoves | internal/realtime/audio.go:31-41 | which snapshots are refused, which are ignored, and where the rest goes |
| SessionBooks.Ledger.RequireAudioCredit | internal/realtime/audio.go:51-59 | accepted while no generation runs and refused otherwise |
| SessionBooks.Ledger.Reserve | internal/audio/flow.go:113-127 | grants what the open window holds of what is asked, and nothing while it is closed |
| SessionBooks.Ledger.AppendText | internal/realtime/conversation.go:87-94 | text of the active generation only |
| SessionBooks.Ledger.RegisterSpeech | internal/realtime/conversation.go:188-211 | one chunk in store and timeline, or none in either |
| SessionBooks.Ledger.OpenFlow | internal/realtime/audio.go:12-29 | one window per generation |
| SessionBooks.Ledger.RecordSent | internal/realtime/conversation.go:212-221 | written frames, then any acknowledgement waiting for them |
| SessionBooks.Ledger.RecordSource | internal/realtime/conversation.go:237-254 | a played position, capped by sent |
| SessionBooks.Ledger.UpdateCredit | internal/realtime/audio.go:31-41 | a snapshot updates window, timeline and answer |
| SessionBooks.Ledger.BeginGeneration | internal/realtime/session.go:113-162 | settles the former answer and opens the next |
| SessionBooks.Ledger.EndGeneration | internal/realtime/session.go:181-214 | settles the answer and forgets the output |
| TurnRuns.NextOk | internal/realtime/session.go:113-231 | every event of a live session, however late or stale, keeps the whole invariant until it is closed; a promotion may be asked for with any context and key |
| TurnRuns.CommittedAudio | internal/realtime/input.go:171-335 | a committed turn's audio is the last 16000 bytes heard while listening then every byte since speech began, in order; no byte is in two turns; no turn is committed twice |
| TurnRuns.PromotionCrossedBarrier | internal/realtime/speculation.go:357-427 | whatever context and key a promotion is asked for with, the work promoted was marked by the commit of its own turn, that commit opened the context, and nothing dropped it since |
| TurnRuns.AnsweredOnce | internal/realtime/conversation.go:134-187 | each response context yields at most one generation, each turn at most one answer |
| TurnRuns.AdoptedStream | internal/realtime/speculation.go:435-467 | an adopted stream answers exactly the official request, delivers what was produced in order without loss, within the buffer limit |
| TurnRuns.PlaybackConsistent | internal/realtime/interruption.go:90-186 | the timeline is paused if and only if a pause of the current generation is pending; at most one answer is pending and it is the current one; counts agree, sent never exceeds generated; no acknowledgement is lost |
| TurnRuns.NextWriters | internal/realtime/conversation.go:188-221 | every event keeps what the writers of all generations still hold behind what was sent |
| TurnWriters.KeepWriters | internal/realtime/conversation.go:188-221 | so do negotiating credit, registering a chunk, opening the window, reserving from it, recording a packet, snapshots and positions, of the current generation or of a former one; what the window granted is recorded as sent or still to be, frame for frame |
| TurnWriters.WritesHonest | internal/transport/http/realtime.go:887-970 | a writer that records no more than it was handed never makes sent exceed generated |
| TurnWindow.WindowAccounted | internal/realtime/audio.go:12-49 | over any run: nothing is sent without a window; what the current window granted is recorded as sent or still to be; played <= received <= reserved <= played + 30 seconds; the position is never behind what the window knows of what was sent |
| TurnWindow.PositionsAdvance | internal/realtime/conversation.go:212-254 | over any run: between two moments of one generation nothing generated, sent, reserved, received or played goes back |
| TurnWindow.RaceLeavesNoTrace | internal/realtime/audio.go:31-49 | over any run: a credit snapshot and the record of a write may come in either order, of any generations: the session is the same |
| TurnWindow.RaceHappens | internal/realtime/audio.go:31-49 | a run with negotiated credit in which the client has played what is not yet recorded as sent: the window knows, the timeline waits, the record brings it level |
| TurnTexts.HistoryIsWhatWasSaid | internal/realtime/conversation.go:87-211 | over any run of a session: a user item holds the text its turn was answered with, an answer exactly what was generated, written and spoken for its generation, in order |
| TurnDecisions.EndsTurnExact | internal/realtime/input.go:306-335 | the end of a turn commits its audio in a fresh live context, starts over when there is none, and is kept for later while a pause is undecided |
| TurnDecisions.ConfirmsExact | internal/realtime/interruption.go:290-307 | a confirmed pause ends its generation, settles the answer and releases an end of turn that came meanwhile |
| TurnDecisions.RecoversExact | internal/realtime/interruption.go:308-338 | a released pause leaves the generation live where it was and forgets the turn |
| TurnDecisions.ClassifierDecides | internal/realtime/interruption.go:260-289 | what each classifier result leads to, before and from the deadline on, and that a result for anything else changes nothing |
| TurnDecisions.DetectorDecides | internal/realtime/input.go:419-438 | what each detector result leads to, and that a result for another silence changes nothing |
| TurnDecisions.PollDecides | internal/realtime/input.go:349-405 | one pass of the input loop: the deadline of a pause, the maximal and the minimal delay, when classifier, detector and a guess are started |
| TurnInputs.SuspicionExact | internal/realtime/interruption.go:130-186 | when a pause is opened, and that a second suspicion of another name confirms the first |
| TurnInputs.SpeechDecides | internal/realtime/input.go:171-201 | speech begins a turn or goes on with it, drops what waits to be answered, confirms an open pause and may open one |
| TurnInputs.EndSpeechDecides | internal/realtime/input.go:208-237 | a noise is forgotten and releases an open pause; the end of speech begins a silence |
| TurnInputs.CancelInputDecides | internal/realtime/input.go:238-274 | cancelled input leaves no turn, no work and no context, and an open pause is released |
| TurnInputs.AudioDecides | internal/realtime/input.go:275-305 | what is remembered of the audio, and what happens at the limit |
| TurnInputs.StartInputDecides | internal/realtime/input.go:139-161 | listening begins when nobody listens yet, with nothing |
| TurnInputs.SemanticDecides | internal/realtime/interruption.go:381-392 | evidence counts for its own pause |
| TurnInputs.PausedDecides | internal/realtime/interruption.go:339-359 | a pause the player took tells where playing stopped |
| TurnInputs.FailedDecides | internal/realtime/interruption.go:360-380 | a player that fails ends its generation and confirms an open pause |
| TurnAnswers.CancelDecides | internal/realtime/session.go:164-214 | cancelling ends the generation named, or whichever runs |
| TurnAnswers.StartDecides | internal/realtime/session.go:113-162 | a generation replaces whatever runs, begins empty, and drops what waited to be answered |
| TurnAnswers.MarkDoneDecides | internal/realtime/session.go:216-231 | audio is marked complete once, in its answer |
| TurnAnswers.TextDecides | internal/realtime/conversation.go:168-187 | a text turn gets a context of its own while nobody listens |
| TurnAnswers.ResponseDecides | internal/realtime/conversation.go:134-159 | a context is used once, by text that can be a turn or by silence; the model is asked with the history as it then stands |
| TurnGuesses.HeardDecides | internal/realtime/speculation.go:217-262 | what a transcript leads to, and what the model is asked |
| TurnGuesses.ModelDecides | internal/realtime/speculation.go:263-283 | a refusal gives the guess up |
| TurnGuesses.DeltaDecides | internal/realtime/speculation.go:302-341 | which deltas are kept, wait, or are too much |
| TurnGuesses.EndDecides | internal/realtime/speculation.go:286-301 | the end of the stream is kept for the reader; a guess that breaks off is given up |
| TurnGuesses.PromotionDecides | internal/realtime/speculation.go:357-427 | what a request for promotion leads to, in every case |
| TurnGuesses.ReadDecides | internal/realtime/speculation.go:435-467 | the reader takes one delta after another while its generation runs |
| TurnHeld.CommitHeld | internal/realtime/input.go:306-335 | a commit publishes the context it opens with the key of the work it marks |
| TurnHeld.PromoteHeld | internal/realtime/speculation.go:357-427 | promotion, asked for with any context and key, keeps the barrier |
| TurnWorks.HeldPublished | internal/realtime/speculation.go:357-376 | committed work that a live context could promote was published with that context and its own key |
| TurnBarrier.BarrierDrops | internal/realtime/input.go:171-271 | speech, cancelled input, a cancelled, failed or replaced generation and a text turn each drop the live response context |
| TurnScenario.UndisturbedAdopts | internal/realtime/speculation.go:357-427 | a turn nobody disturbs is heard, guessed ahead of time, committed, and answered by the adopted guess, asked with exactly the official request |
| TurnPauses.NextSteps | internal/realtime/interruption.go:130-335 | every event leaves a pause unchanged, resolves it by one decision, or ends its generation; no commit while it is open; the endpoint is attempted at most once per silence |
| TurnPauses.DecidedAtMostOnce | internal/realtime/interruption.go:290-335 | over any run decisions never exceed pauses opened, and every detector launch has its own epoch |
| TurnPauses.DetectorOwnSilence | internal/realtime/input.go:419-438 | over any run: a detector result that changes anything belongs to the silence it was launched for |
| TurnSteps.GuardsUnreachable | internal/realtime/interruption.go:290-335 | the stale-generation guards of confirm and recover never fire |
| TurnEvents.MarkDoneOk | internal/realtime/session.go:216-231 | marking a generation done keeps the invariant and finds its answer in the store |
| TurnEvents.CancelInputOk | internal/realtime/input.go:238-271 | cancelling or stopping input keeps the invariant |
| TurnEvents.AppendAudioOk | internal/realtime/input.go:275-305 | every audio message keeps the invariant |
| TurnEvents.DetectorResultOk | internal/realtime/input.go:419-438 | every detector result, late or not, keeps the invariant |
| TurnEvents.ClassifierResultOk | internal/realtime/interruption.go:260-289 | every classifier result, late or not, keeps the invariant |
| TurnEvents.PollOk | internal/realtime/input.go:358-404 | every pass of the input loop keeps the invariant |
| TurnEvents.EndSpeechOk | internal/realtime/input.go:208-237 | the end of speech, valid or misfired, keeps the invariant |
| TurnEvents.PlaybackPausedOk | internal/realtime/interruption.go:339-359 | a client's pause report keeps the invariant |
| TurnEvents.PlaybackFailedOk | internal/realtime/interruption.go:360-377 | a client's failure report keeps the invariant |
| TurnSteps.SpeechStartOk | internal/realtime/input.go:171-201 | the start of speech keeps the invariant |
| TurnSteps.ConfirmPauseOk | internal/realtime/interruption.go:290-307 | confirming keeps the invariant |
| TurnSteps.RecoverPauseOk | internal/realtime/interruption.go:308-335 | recovering keeps the invariant |
| TurnSteps.BeginPauseOk | internal/realtime/interruption.go:130-186 | suspecting keeps the invariant |
| TurnSteps.CommitTurnOk | internal/realtime/input.go:306-335 | committing keeps the invariant |
| TurnInvariant.CancelGenerationOk | internal/realtime/session.go:181-214 | cancelling keeps the invariant |
| TurnInvariant.StartGenerationOk | internal/realtime/session.go:113-162 | starting keeps the invariant |
| TurnWorks.BeginResponseOk | internal/realtime/conversation.go:134-159 | answering keeps the invariant and begins a generation exactly when the response is accepted |
| TurnWorks.SttResultOk | internal/realtime/speculation.go:221-262 | a transcript, late or not, keeps the invariant |
| TurnWorks.ModelResultOk | internal/realtime/speculation.go:264-283 | so does the model's answer |
| TurnWorks.OfferOk | internal/realtime/speculation.go:302-339 | so does every delta, buffered, refused or waiting |
| TurnWorks.PromoteOk | internal/realtime/speculation.go:357-427 | so does a request for promotion, with any context and any key |
| TurnWorks.ReadDeltaOk | internal/realtime/speculation.go:435-467 | so does reading the adopted stream |
| Session.RealtimeSession.constructor | internal/realtime/session.go:60-74 | the initial session; the new state is the model's, field by field |
| Session.RealtimeSession.CancelGenerationSection | internal/realtime/session.go:181-214 | ends the generation and what hangs on it; the new state is the model's, field by field |
| Session.RealtimeSession.StartGenerationSection | internal/realtime/session.go:113-162 | replaces the generation; the new state is the model's, field by field |
| Session.RealtimeSession.CommitTurnLocked | internal/realtime/input.go:306-335 | commits the turn unless a pause is pending; the new state is the model's, field by field |
| Session.RealtimeSession.ConfirmInterruptionLocked | internal/realtime/interruption.go:290-307 | ends the paused generation and replays a deferred commit; the new state is the model's, field by field |
| Session.RealtimeSession.RecoverInterruptionLocked | internal/realtime/interruption.go:308-335 | resumes output and drops the turn; the new state is the model's, field by field |
| Session.RealtimeSession.BeginInterruptionLocked | internal/realtime/interruption.go:130-186 | pauses the live generation within a turn; the new state is the model's, field by field |
| Session.RealtimeSession.StartRealtimeInput | internal/realtime/input.go:139-161 | starts listening; the new state is the model's, field by field |
| Session.RealtimeSession.SpeechStartWithInterruption | internal/realtime/input.go:171-201 | opens or resumes a turn and suspects an interruption; the new state is the model's, field by field |
| Session.RealtimeSession.EndSpeechSection | internal/realtime/input.go:208-237 | starts the silence or drops a misfire; the new state is the model's, field by field |
| Session.RealtimeSession.CancelInputSection | internal/realtime/input.go:238-271 | drops the turn, recovers a pause; the new state is the model's, field by field |
| Session.RealtimeSession.AppendRealtimeAudio | internal/realtime/input.go:275-305 | pre-roll or turn audio, with its limit; the new state is the model's, field by field |
| Session.RealtimeSession.StartSpeculationLocked | internal/realtime/speculation.go:172-216 | starts work for the turn and epoch when idle; the new state is the model's, field by field |
| Session.RealtimeSession.PrepareInterruption | internal/realtime/interruption.go:235-259 | launches at most one classifier per revision; the new state is the model's, field by field |
| Session.RealtimeSession.PollInput | internal/realtime/input.go:349-408 | one pass of the loop; the new state is the model's, field by field |
| Session.RealtimeSession.WatchEndpoint | internal/realtime/input.go:370-404 | commits at the maximal delay, attempts detection once; the new state is the model's, field by field |
| Session.RealtimeSession.ApplyDetection | internal/realtime/input.go:419-438 | honours only its own epoch; the new state is the model's, field by field |
| Session.RealtimeSession.ApplyClassification | internal/realtime/interruption.go:260-289 | honours only its own pause and revision; the new state is the model's, field by field |
| Session.RealtimeSession.SupplySemantic | internal/realtime/interruption.go:381-394 | honours only its own pause; the new state is the model's, field by field |
| Session.RealtimeSession.PlaybackPausedSection | internal/realtime/interruption.go:339-359 | records the position, with its own pause; the new state is the model's, field by field |
| Session.RealtimeSession.PlaybackFailedSection | internal/realtime/interruption.go:360-377 | ends the failed generation; the new state is the model's, field by field |
| Session.RealtimeSession.StartGenerationMode | internal/realtime/conversation.go:122-130 | a generation from text; the new state is the model's, field by field |
| Session.RealtimeSession.CancelGenerationID | internal/realtime/session.go:171-179 | cancels the named generation; the new state is the model's, field by field |
| Session.RealtimeSession.MarkGenerationDone | internal/realtime/session.go:216-231 | marks the named generation done; the new state is the model's, field by field |
| Session.RealtimeSession.NewTextResponseContext | internal/realtime/conversation.go:168-176 | only while no realtime input runs; the new state is the model's, field by field |
| Session.RealtimeSession.CommitResponseSection | internal/realtime/conversation.go:134-159 | history, then request, then generation; the new state is the model's, field by field |
| Session.RealtimeSession.BeginConversationResponse | internal/realtime/conversation.go:134-159 | uses a context once; the new state is the model's, field by field |
| Session.RealtimeSession.SpeculationHeard | internal/realtime/speculation.go:221-262 | the transcript of speculative work; the new state is the model's, field by field |
| Session.RealtimeSession.SpeculationAnswered | internal/realtime/speculation.go:268-283 | the model answers it; the new state is the model's, field by field |
| Session.RealtimeSession.ReceiveDelta | internal/realtime/speculation.go:286-310 | one delta; the new state is the model's, field by field |
| Session.RealtimeSession.PromoteSpeculation | internal/realtime/speculation.go:357-427 | one look of the promotion loop; the new state is the model's, field by field |
| Session.RealtimeSession.AdoptSpeculation | internal/realtime/speculation.go:395-427 | the official response takes the work over; the new state is the model's, field by field |
| Session.RealtimeSession.ReceiveAdopted | internal/realtime/speculation.go:435-467 | the reader of the adopted stream; the new state is the model's, field by field |
| Session.RealtimeSession.CloseSession | internal/realtime/session.go:316-325 | nothing moves afterwards; the new state is the model's, field by field |
| Session.RealtimeSession.Handle | internal/transport/http/realtime.go:167-420 | whatever event reaches the object is a step of the runs above, and the object keeps the invariant of every run |
| ChunkerModel.MakeLimits | internal/speech/chunker.go:23-42 | defaults for absent limits, hard never below soft |
| ChunkerModel.BestStop | internal/speech/chunker.go:119-186 | the last stop of the highest priority |
| ChunkerModel.FirstStop | internal/speech/chunker.go:119-186 | the first stop at or after the soft limit |
| ChunkerModel.CutStable | internal/speech/chunker.go:119-186 | a cut once decided does not depend on what follows |
| ChunkerCuts.CutExact | internal/speech/chunker.go:119-202 | in literal characters: the first pause from the soft limit on; at the hard limit the last end of a sentence before, else the last comma, else the limit; a flush takes all |
| ChunkerCuts.ShortEndsPaused | internal/speech/chunker.go:119-186 | without a flush a chunk shorter than the hard limit ends with a pause |
| ChunkerCuts.NoLeadingBlank | internal/speech/chunker.go:96-103 | exactly the leading blanks, tabs and line breaks are dropped behind a cut |
| ChunkerModel.ExtractLimits | internal/speech/chunker.go:71-117 | chunks are non-empty, trimmed and within the hard limit; the rest is below it; nothing stays behind a flush |
| ChunkerModel.ExtractInk | internal/speech/chunker.go:71-117 | only white space is dropped and order is kept |
| ChunkerModel.ExtractAppend | internal/speech/chunker.go:44-117 | text in two pieces is cut as in one unless the second begins with blanks behind a complete cut |
| ChunkerSplits.SplitExact | internal/speech/chunker.go:44-117 | two pieces are cut as one if and only if the second does not stand behind a complete cut or the blanks it begins with do not matter |
| ChunkerSplits.AlikeExact | internal/speech/chunker.go:71-117 | two texts yield the same chunks and leave the same buffer if and only if, walked from cut to cut together, they become one text before their chunks differ |
| ChunkerSplits.ShiftedCut | internal/speech/chunker.go:119-186 | leading blanks do not matter when they merely shift the first cut |
| ChunkerSplits.UncutLead | internal/speech/chunker.go:71-117 | they do matter in front of text that is not cut yet |
| ChunkerSplits.LevelExact | internal/speech/chunker.go:44-117 | over any deltas, pushing them one by one agrees with one push at every moment if and only if every split point is harmless |
| ChunkerSplits.IncrementalIsBatch | internal/speech/chunker.go:44-117 | deltas split at harmless points yield the chunks of one push |
| ChunkerSplits.NoLeadIsBatch | internal/speech/chunker.go:44-117 | a condition on the deltas alone: none after the first begins with a blank |
| ChunkerSplits.UnspacedIsBatch | internal/speech/chunker.go:44-117 | any split of text without white space does |
| ChunkerSplits.SplitShows | internal/speech/chunker.go:44-117 | a concrete text with a blank behind a complete cut for which the split does show |
| ChunkerModel.OnlySpaceDropped | internal/speech/chunker.go:44-117 | over any deltas only white space is lost and every chunk fits the hard limit |
| ChunkerModel.FeedInk | internal/speech/chunker.go:44-117 | the same at every moment before the flush, and the buffer stays below the hard limit |
| Chunker.TextChunker.constructor | internal/speech/chunker.go:23-42 | empty, with valid limits |
| Chunker.TextChunker.Push | internal/speech/chunker.go:44-55 | appends and extracts |
| Chunker.TextChunker.Flush | internal/speech/chunker.go:57-62 | extracts everything |
| Chunker.TextChunker.Reset | internal/speech/chunker.go:64-69 | forgets the buffer |
| Chunker.TextChunker.ExtractChunks | internal/speech/chunker.go:71-117 | the loop computes the specified extraction |
| Chunker.TextChunker.FindBoundary | internal/speech/chunker.go:119-186 | one scan finds the specified cut |
| Chunker.NumberedContiguous | internal/speech/pipeline.go:117-167 | emitted chunks carry contiguous numbers, in order, and normalized non-empty text |
| Chunker.NumberedExact | internal/speech/pipeline.go:117-138 | everything that normalizes to something goes out, in order, up to the end, to a chunk that cannot be normalized, or to one there is no room for; the outcome says which |
| Chunker.Pipeline.constructor | internal/speech/pipeline.go:35-48 | open and empty |
| Chunker.NumberedAppend | internal/speech/pipeline.go:117-138 | handing chunks over in two calls or in one makes no difference: numbers go on, and what stops the first stops the second |
| Chunker.Pipeline.EmitChunks | internal/speech/pipeline.go:117-138 | numbers and emits until normalization fails or nothing more goes out, and says which |
| Chunker.Pipeline.Push | internal/speech/pipeline.go:54-65 | refused and without effect once closed; otherwise exactly the chunks of the delta go out, the rest is buffered, and the outcome says what stopped it |
| Chunker.Pipeline.Flush | internal/speech/pipeline.go:67-78 | hands on what is left and stays open |
| Chunker.Pipeline.TryPush | internal/speech/pipeline.go:172-181 | the same without waiting; refused and without effect while another call has the lock |
| Chunker.Pipeline.Close | internal/speech/pipeline.go:80-102 | hands on what is left and closes even when that fails; the outcome and what went out are exact |
| Chunker.Pipeline.TryClose | internal/speech/pipeline.go:182-196 | closes if and only if everything went out; what went out and what is left are exact, and nothing happens while another call has the lock |
| Chunker.Pipeline.Cancel | internal/speech/pipeline.go:104-115 | closes at once |
| SttRuntime.BootOk | internal/providers/stt/whispercpp/runtime.go:56-134 | after construction, whatever the one or two loads did, the invariant holds |
| SttRuntime.NextOk | internal/providers/stt/whispercpp/runtime.go:136-260 | every step of every client and closer keeps it |
| SttRuntime.OneWorker | internal/providers/stt/whispercpp/runtime.go:136-226 | in every reachable state at most one thread loads or infers, at most one worker is open, it is the owned one or just loaded, and inference runs on the owned open one |
| SttRuntime.Admission | internal/providers/stt/whispercpp/runtime.go:149-154 | threads holding a queue place are exactly counted and never exceed QueueCapacity |
| SttRuntime.CloseIsFinal | internal/providers/stt/whispercpp/runtime.go:236-260 | from the moment Close holds the slot no thread loads or infers, and once it has closed the worker none is open, then and after any further steps |
| SttRuntime.DeviceOnlyFalls | internal/providers/stt/whispercpp/runtime.go:76-134 | over any run the selected device moves only from cuda to cpu and only in auto mode |
| SttRuntime.LoadsOn | internal/providers/stt/whispercpp/runtime.go:76-93 | a fixed device is the only one loaded; auto mode settled on the cpu never loads cuda |
| SttFallback.LoadsCudaExact | internal/providers/stt/whispercpp/runtime.go:76-101 | over any run in auto mode: a load is on cuda if and only if no load on it failed and no worker on it broke down before, cancelled ones not counted |
| SttFallback.CrashIsFinal | internal/providers/stt/whispercpp/runtime.go:227-235 | after one crash on cuda nobody loads on it again |
| SttPaths.Served | internal/providers/stt/whispercpp/runtime.go:136-226 | a client that comes to a runtime at rest infers on its living worker and leaves everything as it was |
| SttPaths.Doors | internal/providers/stt/whispercpp/runtime.go:143-164 | who is turned away, and who waits |
| SttPaths.Checks | internal/providers/stt/whispercpp/runtime.go:154-179 | nothing is begun once the runtime closes or the context is over |
| SttPaths.Inspects | internal/providers/stt/whispercpp/runtime.go:181-190 | a living worker is used, a dead one is closed and replaced |
| SttPaths.Settles | internal/providers/stt/whispercpp/runtime.go:84-134 | a load that succeeds in time is owned, any other is closed, and cuda is retried on the cpu in auto mode |
| SttPaths.Infers | internal/providers/stt/whispercpp/runtime.go:191-216 | an inference that fails or is cancelled costs the worker |
| SttPaths.CloseReturnsDead | internal/providers/stt/whispercpp/runtime.go:236-260 | nobody returns from Close before the worker is dealt with |
| SttRuntime.NoDeadlock | internal/providers/stt/whispercpp/runtime.go:136-260 | while any thread is inside, some thread inside can move |
| SttService.Runtime.constructor | internal/providers/stt/whispercpp/runtime.go:56-72 | construction with its one or two loads; the new state is one step of the transition system, and the invariant is kept |
| SttService.Runtime.JoinQueue | internal/providers/stt/whispercpp/runtime.go:149-153 | refuses exactly when full; the new state is one step of the transition system, and the invariant is kept |
| SttService.Runtime.TakeSlot | internal/providers/stt/whispercpp/runtime.go:160-161 | the slot is taken; the new state is one step of the transition system, and the invariant is kept |
| SttService.Runtime.EnsureWorker | internal/providers/stt/whispercpp/runtime.go:181-187 | closes a dead worker and decides what to load; the new state is one step of the transition system, and the invariant is kept |
| SttService.Runtime.SettleLoad | internal/providers/stt/whispercpp/runtime.go:92-133 | own the worker, close it, or retry on the cpu; the new state is one step of the transition system, and the invariant is kept |
| SttService.Runtime.BeginInference | internal/providers/stt/whispercpp/runtime.go:192 | inference starts; the new state is one step of the transition system, and the invariant is kept |
| SttService.Runtime.DropWorker | internal/providers/stt/whispercpp/runtime.go:201-216 | the worker is closed and forgotten; the new state is one step of the transition system, and the invariant is kept |
| SttService.Runtime.MarkClosed | internal/providers/stt/whispercpp/runtime.go:237-246 | the first closer only; the new state is one step of the transition system, and the invariant is kept |
| SttService.Runtime.CloseWorker | internal/providers/stt/whispercpp/runtime.go:251-254 | no worker is left; the new state is one step of the transition system, and the invariant is kept |
| SttService.Runtime.ReportClosed | internal/providers/stt/whispercpp/runtime.go:247 | nothing runs and no worker is open; the new state is one step of the transition system, and the invariant is kept |
| SttService.Runtime.Try | internal/providers/stt/whispercpp/runtime.go:86-98 | one load of the constructor owns the worker, closes it or reports nothing, as its outcome says |
| SttService.Runtime.NoteCrash | internal/providers/stt/whispercpp/runtime.go:227-235 | gives up cuda when auto mode had selected it, and nothing else |
| WavModel.U32Wraps | internal/providers/stt/whispercpp/worker.go:333 | a written 32-bit field reads back modulo 2^32 |
| WavModel.LayoutParses | sdk/typescript/src/audio.ts:9-25 | complete chunks of any names, sizes and pads are read back |
| WavModel.ParsedIsLayout | sdk/typescript/src/audio.ts:9-25 | whatever is read as complete chunks was laid out by the grammar |
| WavModel.AcceptsIffPrinted | sdk/typescript/src/audio.ts:3-27 | a strict reader accepts a file if and only if it is the printed form of complete chunks with one standard format and one non-empty whole-sample data chunk |
| WavModel.UnknownTolerated | sdk/typescript/src/audio.ts:3-27 | an unknown chunk, odd-sized or not, anywhere, changes nothing for the strict readers |
| WavModel.UnknownDecoded | internal/audio/wav.go:15-149 | nor for the server's decoder |
| WavBytes.HeaderExact | internal/providers/stt/whispercpp/worker.go:330-349 | the 44 bytes of the header, one by one |
| WavBytes.StandardExact | sdk/typescript/src/audio.ts:16-20 | the sixteen bytes of the standard format |
| WavBytes.SpeechExact | sdk/typescript/src/audio.ts:13-26 | exactly one format and one data chunk, of whole samples |
| WavBytes.PlayableExact | internal/audio/wav.go:63-148 | the last format and the last data chunk count |
| WavBytes.LooseTail | internal/audio/wav.go:42 | up to seven bytes at the end are left alone |
| WavBytes.LooseUnpadded | internal/audio/wav.go:98-104 | so is a missing last pad |
| WavBytes.LooseShort | internal/audio/wav.go:51-59 | a chunk that is cut short is not |
| WavModel.AcceptedDecodes | internal/audio/wav.go:15-149 | what a strict reader accepts the server decodes to the same samples, rate and channels |
| WavModel.WrittenIsFile | internal/providers/stt/whispercpp/worker.go:330-354 | the writer prints a file of the grammar when there are whole samples and the length fits |
| WavModel.StrictRoundTrip | internal/providers/stt/whispercpp/worker.go:330-354 | a strict reader recovers exactly what was written, if and only if there are whole samples, at least one, and the size field does not wrap |
| WavModel.DecodeRoundTrip | internal/providers/stt/whispercpp/worker.go:330-354 | the decoder recovers it if and only if there are whole samples and the length fits its field; below 2^32 bytes it recovers nothing else |
| Wav.WavToPcm | sdk/typescript/src/audio.ts:3-27 | accepts exactly the accepted files, with exactly their samples |
| Wav.ValidateSpeechWav | sdk/python/src/yukkuri_realtime/audio.py:5-7 | the outer header check |
| Wav.WavToPcmPython | sdk/python/src/yukkuri_realtime/audio.py:10-32 | accepts the same files with the same samples; only the code for a bad outer header differs |
| Wav.DecodeWav | internal/audio/wav.go:15-149 | returns exactly the specified decoding, or fails when there is none |
| Wav.WriteWav | internal/providers/stt/whispercpp/worker.go:330-354 | fills the header in place and writes it before the samples |

## Left out

- ConversationBounds.RunBounded: assumes one answer per turn and the former answer settled first; the session keeps that, a caller using the store alone need not.
- A renderer bound to quanta of 128 frames, as browsers have it, is not treated separately: quanta have any size here, as the worklet's `process` takes them, and the runs that fill the descriptor table render a few frames at a time. Stereo chunks, which the send loop refuses, are left out.
- Closing cancels the session's context without the lock, so the context can end inside another section, between a committed user text and the generation that should answer it; here a session is closed between sections.
- Sender.SendChunk: whole-frame data only, which the decoder and the mono check before it guarantee.
- Rounding: samples are reals, so 32-bit float rounding and the JavaScript double near 2^53 are not modelled; frame totals stay within the player's own exact-integer check.
- The player's telemetry (clocks, latencies, buffer maxima, overflow counts) and further output channels, which repeat the first; the write-only packet and chunk numbers beside the descriptor ends.
- The session object's text, transcript, error and interruption messages, envelopes, JSON, WebSocket and HTTP plumbing, origin policy, capabilities, logging, telemetry events, policies and the engine registry.
- A metadata and binary pair whose context is cancelled between the two writes, and an uplink message cancelled halfway.
- The Python session, which mirrors the TypeScript one.
- Deltas that split a UTF-8 character, the text normalizer (a parameter of `Chunker.Pipeline`) and the Unicode details of white space.
- The legacy floating-point position (`played_seconds`), the legacy manual input buffer and `StartGenerationForInput`.
- Provider bodies: recogniser, language model, detector, classifier and speech synthesis are arbitrary results. Of classifier input only the amount of audio is kept, not energy, clipping or semantics; of the detector's result only completeness.
- Request validation before a client enters the recogniser runtime, its measurements and its status text.
- Clocks, timers and goroutines: time is an event parameter, a timer is an event that may come at any time.
- Whether interruption handling is configured at all: without it a session never pauses, so the statements about pauses are empty.
- A notification queue that is full closes the session inside a locked section; a closed session is not followed further.
- `StartGenerationMode` leaves a cancelled response's cancel function in place; the model has one flag for both.
- Error texts of the WAV decoder; the two client readers' codes are kept.
- BrowserMicrophone, demonstration pages, command line and release scripts.
