# The sokaster OBS plugin, modelled and proved

A Dafny model of the parts of the plugin whose correctness spans threads, whole runs or several functions:

- **The ears.** A lock-free ring between the OBS audio thread and the VAD worker (`SampleRing`, `RingProtocol`), the
  segmenter that cuts the stream into utterances (`VadSpec`, `VadSegmenter`), the WAV printer and an independent reader
  (`Wav`), and the two workers with their drop-oldest queue, pause, give-up and stop (`AudioLoop`, `AudioPipeline`).
  `AudioPipeline.EndToEnd` puts the stages together: what goes out in a POST is a quantised slice of what the ring accepted.
  `AudioRuns` has what these threads can always do: finish when stopped, and post what they hear.
- **The status worker.** Polling, backoff, reconfiguring and taking an order off the air, with the worker and its callers
  interleaved at every lock and at the lock-free cancel (`StatusLoop`, `StatusProtocol`).
- **The overlay button.** The search for the overlay, what its answer means, and the loop of row, button, fix and search
  (`OverlayFinder`, `OverlayFix`), and what all of it says of the scene collection itself (`OverlayMeans`).
- **The track.** Which OBS track the co-host may listen on (`Tracks`).

Objects whose methods update fields are classes with those fields; their methods are proved equal to functions or relations
on plain values, and the properties are proved of those. Protocols are transition systems: an event, a guard, a step; an
invariant split into parts, each kept by every step; theorems about every reachable state. The model of the VAD is any
function of the history of `predict` and `reset` calls. `Bits`, `Basics` and `Config` hold shared arithmetic and settings.

What the code does not do, shown by a lemma with the input or the run:

- Coverage of speech has a real exception. A window of a voiced run is in no segment if and only if a force-cut inside the
  run comes one or two windows before it, the run ends within two windows of the cut, and no segment opens by the end of the
  fifth window after it, whose pre-roll would bring it back (`VoicedRunCovered`); a monologue of 377 windows loses two
  (`TrailingWindowsCanBeLost`). The comment at src/audio/vad-segmenter.cpp:165-166 suggests that it arrives whole, in pieces.
- The minimum length of src/audio/vad-segmenter.hpp:48 never rejects a segment (`EverySegmentIsEmitted`): the shortest that
  can close is 804 ms.
- One state asked for before `reconfigure()` can be published after it has returned (`OneStalePublishHappens`), never two
  (`AtMostOneStalePublish`), and exactly when the call came between the worker's check of the flag and its call of the sink
  (`StalePublishExactly`).
- The 3 s between take-off requests fail after a request accepted at clock zero, and only there: a request is accepted if and
  only if there was none, the last one was at zero, or 3 s have gone by (`AcceptedWhen`, `RequestsSpaced`,
  `TwoRequestsAtZero`).
- A remembered track is taken up again without being cleared. Something is routed to the track just resolved if and only if
  it is such a track and something with audio was routed to it before (`ReadoptedTrackKeepsSources`), as after a track was
  taken and freed again (`TakenFreedReadopted`, `LosesAndRegains`).
- The 10 s pause after a 429 belongs to one run of the sender. A POST after a 429 keeps the distance or is of a later run
  (`RateLimitRespected`); every restart begins without a pause (`RestartForgetsPause`), and for every model and samples with a
  segment in them some run posts at the very moment of the previous run's 429 (`PauseLostOverRestart`).
- `names_token` is the test "the first path segment is the token" exactly for tokens without a delimiter
  (`NamesTokenMeans`), which all well-formed tokens are (`TokensAreClean`).
- The worker can believe it has the account when it has not: exactly when an iteration without a key has run since it asked
  and no new key has been served (`AccountKnown`), as when the settings lose their key before `reconfigure()` raises its flag
  (`AccountForgotten`). Serving the flag mends it (`NewKeyAsks`).
- The overlay row does not look at the address while the server sees a connection: all is said to be well exactly as in
  `LevelMeans`, also when the only overlay shows another account's page (`StaleCanBeOkay`).
- The printed WAV is readable exactly below the 32-bit size bound (`WavRoundTrip`), which every segment meets
  (`SegmentBounds`).

## Model

| member | source | states |
|---|---|---|
| Wav.EncodeWav | src/audio/vad-segmenter.cpp:70-106 | the bytes written are a 16 kHz mono WAV in which a player finds every sample as its 16-bit value, exactly below the 32-bit size bound |
| Wav.QuantiseMeans | src/audio/vad-segmenter.cpp:98-103 | the 16-bit value: +-32767 at and beyond unity, in between 32767 times the sample rounded towards zero, alike for both signs, 0 for what is not finite; and no other value |
| Wav.TagsSpell | src/audio/vad-segmenter.cpp:80-95 | the chunk tags are the ASCII names RIFF, WAVE, fmt and data |
| Wav.Put | src/audio/vad-segmenter.cpp:76-79 | put() appends the low bytes of a value, least significant first |
| Wav.FromLeOfLe | src/audio/vad-segmenter.cpp:76-79 | reading back what was put gives the value, for every value that fits the byte count |
| Wav.LeOfFromLe | src/audio/vad-segmenter.cpp:76-79 | putting what was read gives the bytes, for every byte string |
| Wav.RiffSizeField | src/audio/vad-segmenter.cpp:72-96 | the RIFF size is total - 8 if and only if 36 + 2 * count fits 32 bits; the data size is 2 * count |
| Wav.WavRoundTrip | src/audio/vad-segmenter.cpp:70-106 | a RIFF/WAVE reader returns exactly the clipped 16-bit samples below the size bound, and rejects the file above it |
| Wav.WavReadsBack | src/audio/vad-segmenter.cpp:70-106 | so every sample comes back as its 16-bit value exactly below that bound |
| VadSpec.AlwaysBetween | src/audio/vad-segmenter.cpp:148-208 | between windows silence_ms <= 576, the open segment is shorter than 192000 samples, closed segments are well formed and spaced, for any model and input |
| VadSpec.OpensExactly | src/audio/vad-segmenter.cpp:148-155 | a segment opens exactly after three windows in a row at 0.5 or more, all heard while none was open |
| VadSpec.SegmentsMean | src/audio/vad-segmenter.cpp:148-169 | every emitted segment opened so, and ended at the first window that completes 19 in a row below 0.35 since, or 12 s; by silence exactly in the first case |
| VadSpec.SpeakingExactly | src/audio/vad-segmenter.cpp:148-169 | speech is on exactly when a segment has opened that nothing has ended; silence_ms is 32 ms for each low window in a row since |
| VadSpec.CallsMean | src/audio/vad-segmenter.cpp:133-142 | every window is put to the model once, in order; a reset comes before it exactly at the 30th quiet window in a row, and after it exactly when it ends a segment |
| VadSpec.LoudMeans | src/audio/vad-segmenter.cpp:133-137 | a window is loud when a sample is infinite or at least 0.005 from zero |
| VadSpec.SegmentBounds | src/audio/vad-segmenter.cpp:148-206 | every closed segment lasts 804 to 12108 ms and its WAV sizes cannot overflow |
| VadSpec.EverySegmentIsEmitted | src/audio/vad-segmenter.cpp:188-208 | the minimum-length test never rejects: a segment that ends is emitted, with its bounds and reason |
| VadSpec.SliceSpacing | src/audio/vad-segmenter.cpp:148-207 | a segment reopened k windows after a close overlaps by 3200 - 512k samples or leaves that gap; starts and ends strictly increase; overlaps are at most 1664 |
| VadSpec.AtMostTwoSegments | src/audio/vad-segmenter.cpp:171-208 | no sample is in more than two segments |
| VadSpec.CoveredStays | src/audio/vad-segmenter.cpp:148-208 | a window once in an emitted or open segment stays in one |
| VadSpec.CoveredExactly | src/audio/vad-segmenter.cpp:148-186 | a window is in an emitted or open segment if and only if speech was on when it was heard, or a segment opens at its end or within the next five windows |
| VadSpec.VoicedRunCovered | src/audio/vad-segmenter.cpp:148-186 | of three or more consecutive voiced windows every one is in an emitted or open segment, except exactly the last one or two after a force-cut that no later pre-roll recovers |
| VadSpec.TrailingWindowsCanBeLost | src/audio/vad-segmenter.cpp:165-169 | the exception happens: a model that always says speech loses windows 375 and 376 |
| VadSpec.AfterPrefix | src/audio/vad-segmenter.cpp:117-146 | what has been heard does not depend on later samples |
| VadSegmenter.VadSegmenter.Push | src/audio/vad-segmenter.cpp:117-146 | push of any chunk, the empty one included, leaves fields, model calls and emitted segments equal to VadSpec over the whole stream |
| VadSegmenter.VadSegmenter.Predicted | src/audio/vad-segmenter.cpp:133-142 | peak test, silent-window count, reset after 30 silent windows, one predict |
| VadSegmenter.VadSegmenter.PeakIsLoud | src/audio/vad-segmenter.cpp:133-137 | the running maximum reaches the threshold exactly when some sample does; NaN never counts |
| VadSegmenter.VadSegmenter.OldestFirst | src/audio/vad-segmenter.cpp:180-183 | the pre-roll ring, read from its computed start, is the last min(n, 3200) samples of the stream in order |
| VadSegmenter.VadSegmenter.ProcessProbability | src/audio/vad-segmenter.cpp:148-169 | hysteresis, silence count and force-cut as in the specification, with the open segment a cut of the stream |
| VadSegmenter.VadSegmenter.CloseSegment | src/audio/vad-segmenter.cpp:188-208 | the emitted WAV is the cut plus 1600 zeros; the model is reset |
| VadSegmenter.ChunkingIsInvisible | src/audio/vad-segmenter.cpp:117-146 | two segmenters fed the same stream in any chunks agree on every field, every model call and every segment |
| VadSegmenter.EmittedDecodes | src/audio/vad-segmenter.cpp:171-206 | a segment opened after n and closed after m samples reads back as stream[max(0, n - 3200)..m), every sample as its 16-bit value, plus 1600 zeros, and its duration counts whole milliseconds of 16 samples |
| Bits.MaskIsMod | src/audio/audio-tap.cpp:69-70 | position & (capacity - 1) is position mod capacity for powers of two |
| SampleRing.RoundUpPow2 | src/audio/audio-tap.cpp:37-43 | the least power of two not below the request |
| SampleRing.CapacityDivides | src/audio/audio-tap.hpp:58-62 | the capacity divides 2^64, so a wrapped position keeps its cell |
| SampleRing.TwoPartWrite | src/audio/audio-tap.cpp:68-73 | the two memcpy calls equal an element-wise circular copy |
| SampleRing.TwoPartRead | src/audio/audio-tap.cpp:89-94 | likewise for reading |
| SampleRing.WriteIsFifo | src/audio/audio-tap.cpp:52-76 | write() appends what fits to the contents, wherever the 64-bit positions stand |
| SampleRing.ReadIsFifo | src/audio/audio-tap.cpp:78-98 | read() takes the oldest samples and leaves the rest |
| SampleRing.SampleRing.Write | src/audio/audio-tap.cpp:52-76 | the imperative write refines that append; the rest is counted as dropped |
| SampleRing.SampleRing.Read | src/audio/audio-tap.cpp:78-98 | the imperative read refines that removal |
| SampleRing.SampleRing.CopyOut | src/audio/audio-tap.cpp:89-94 | mask, split and two copies give the circular extract |
| SampleRing.SampleRing.Clear | src/audio/audio-tap.cpp:100-104 | empties the ring |
| RingProtocol.RingSafety | src/audio/audio-tap.cpp:52-98 | in every interleaving of loads, cell copies in any order and stores, what was returned is a prefix of what was accepted, unread never exceeds capacity, offered = accepted + dropped + in flight |
| RingProtocol.NoUnreadCellIsWritten | src/audio/audio-tap.cpp:68-75 | no cell is written while it holds an unread sample |
| RingProtocol.ContentsIsUnread | src/audio/audio-tap.cpp:54-96 | cells and wrapped positions always encode the abstract queue |
| RingProtocol.RefinesFifo | src/audio/audio-tap.cpp:52-104 | every step is a step of a FIFO: only stores and clear() change it |
| RingProtocol.StoresAreAtomic | src/audio/audio-tap.cpp:75-97 | each store has the whole effect of its write() or read() at one instant |
| RingProtocol.LoadsTakeWhatFits | src/audio/audio-tap.cpp:54-87 | in every state the writer settles for the oldest part of its block that the free cells hold and drops exactly the rest, the reader for what is there up to its count |
| RingProtocol.WriteAlone | src/audio/audio-tap.cpp:52-76 | with the reader standing still the steps, cells in any order, are exactly write() |
| RingProtocol.ReadAlone | src/audio/audio-tap.cpp:78-98 | with the writer standing still they are exactly read() |
| AudioLoop.AudioLoop.Enqueue | src/audio/audio-loop.cpp:180-192 | a full queue loses its oldest segment to the new one |
| AudioLoop.AudioLoop.GetHealth | src/audio/audio-loop.cpp:97-111 | Retrying is reported exactly until its time is over |
| AudioLoop.AudioLoop.GiveUp | src/audio/audio-loop.cpp:169-178 | sets the reason and the stop flag |
| AudioLoop.CountdownBounds | src/audio/audio-loop.cpp:97-119 | the countdown starts at 10 s, rounds up, and ends exactly with the pause |
| AudioPipeline.StepKeepsInv | src/audio/audio-loop.cpp:121-269 | every step of every thread keeps the whole invariant |
| AudioPipeline.EndToEnd | src/audio/audio-loop.cpp:121-269 | over any number of starts and stops, each posted WAV decodes to the slice of its own run's accepted samples that the specification names, every sample as its 16-bit value, plus 1600 zeros |
| AudioPipeline.PostsInOrder | src/audio/audio-loop.cpp:221-248 | posts are in emission order within a run, and run after run |
| AudioPipeline.QueueAndFates | src/audio/audio-loop.cpp:180-248 | the queue is a suffix of the emitted segments of length at most 5, and each segment has exactly one fate |
| AudioPipeline.LossesMean | src/audio/audio-loop.cpp:180-236 | a segment overflows only when five wait, and it is the oldest; one is dropped for a pause only while that lasts |
| AudioPipeline.RateLimitRespected | src/audio/audio-loop.cpp:238-263 | over all runs, a POST after a 429 begins at least 10 s after it or belongs to a later run |
| AudioPipeline.GivenUpStaysGivenUp | src/audio/audio-loop.cpp:169-178 | after a give-up nothing is posted, and the reason is reported until stop() is through |
| AudioPipeline.GivesUpForItsAnswer | src/audio/audio-loop.cpp:250-259 | the sender gives up for a 403 or a 401 and for nothing else, with the matching reason, and such an answer is the last of its run |
| AudioPipeline.GivingUpStops | src/audio/audio-loop.cpp:169-200 | a worker that gives up, the one whose model fails to load included, has reported why, and its next step raises the stop flag and ends it |
| AudioPipeline.HandleReports | src/audio/audio-loop.cpp:248-267 | what the dock is told after each kind of answer, and after a failure of a cancelled client |
| AudioPipeline.QuietAfterCancel | src/audio/audio-loop.cpp:148-167 | once stop() has cancelled the client no POST begins until the next start() |
| AudioPipeline.ClearIsQuiescent | src/audio/audio-tap.cpp:124-146 | clear() runs only with both sides of the ring at rest |
| AudioRuns.StopFinishes | src/audio/audio-loop.cpp:148-167 | stop() always comes to its end: an unfinished worker always has a step that leaves it less to do, no step of any thread leaves it more, and a finished one can be joined |
| AudioRuns.RestartForgetsPause | src/audio/audio-loop.cpp:221-226 | from every stopped state a restart yields a sender without a pause |
| AudioRuns.PauseLostOverRestart | src/audio/audio-loop.cpp:121-167 | for every model and samples with a segment, some run posts at the moment of the 429 of the run before |
| AudioRuns.CanPost | src/audio/audio-loop.cpp:121-248 | from every reachable stopped state, samples with a segment in them can be heard and posted without time going by |
| AudioRuns.MonologueIsPosted | src/audio/audio-loop.cpp:121-248 | such models and samples exist, so some run does post |
| AudioPipeline.SlicesGrow | src/audio/vad-segmenter.cpp:117-146 | one sample closes at most one segment and leaves earlier ones alone |
| StatusLoop.StatusLoop.Begin | src/dock/status-loop.cpp:243-258 | the locked head of an iteration consumes the flags, and for a new key takes the settings, lifts the cancel, forgets facts and failures and has the account asked for again |
| StatusLoop.StatusLoop.DropOrder | src/dock/status-loop.cpp:120-133 | accepts a request unless one was accepted within 3 s |
| StatusLoop.StatusLoop.DropNow | src/dock/status-loop.cpp:146-159 | one more answer, with its outcome |
| StatusLoop.StatusLoop.PollNow | src/dock/status-loop.cpp:169-236 | account once per key, then beta and orders; failures counted, facts kept on failure |
| StatusLoop.StatusLoop.PollIntervalMs | src/dock/status-loop.cpp:161-167 | the interval, where the shift is defined |
| StatusLoop.StatusLoop.ResetState | src/dock/status-loop.cpp:135-144 | forgets all but the last take-off answer |
| StatusLoop.BackoffBounds | src/dock/status-loop.cpp:161-167 | waits lie in [base, 60000] ms and grow with the failures |
| StatusLoop.BackoffDoubles | src/dock/status-loop.cpp:161-167 | 5 or 30 s while the server answers and for the first failure, doubled by each further one up to 60 s |
| StatusLoop.PollMeans | src/dock/status-loop.cpp:169-236 | which answers change which facts: the account is asked for until both halves are there and again after a rejected key, exactly 401 and 403 reject it, a failed read of the orders keeps the last one |
| StatusLoop.DropMeans | src/dock/status-loop.cpp:146-159 | which answers mean dropped, nothing on air, and failed |
| StatusProtocol.NeverStaysCancelled | src/dock/status-loop.cpp:67-103 | a cancelled client means a reconfigure pending, a caller midway, or stopping or not running; the next iteration lifts it |
| StatusProtocol.AtMostOneStalePublish | src/dock/status-loop.cpp:238-290 | once reconfigure() has returned at most one state asked for before it reaches the sink, whatever the state holds and whether or not the settings changed |
| StatusProtocol.AtMostOneOfOlderSettings | src/dock/status-loop.cpp:238-290 | hence at most one state of older settings |
| StatusProtocol.StalePublishExactly | src/dock/status-loop.cpp:273-281 | there is one exactly when reconfigure() raised its flag between the worker's check and its call of the sink |
| StatusProtocol.OneStalePublishHappens | src/dock/status-loop.cpp:275-281 | a run from the start in which it happens, with facts of the older key |
| StatusProtocol.PublishedStates | src/dock/status-loop.cpp:135-159 | a published state is of one configuration and its drop_seq counts the consumed take-offs mod 2^32 across reconfigures |
| StatusProtocol.DeletesAccounted | src/dock/status-loop.cpp:256-272 | one DELETE per take-off consumed with a key, none otherwise, never more than accepted requests |
| StatusProtocol.RequestsSpaced | src/dock/status-loop.cpp:120-133 | accepted requests are 3 s apart unless the earlier one was at clock zero |
| StatusProtocol.AcceptedWhen | src/dock/status-loop.cpp:120-133 | a request is accepted exactly if there was none, the last one was at clock zero, or 3 s have gone by |
| StatusProtocol.TwoRequestsAtZero | src/dock/status-loop.cpp:125-131 | two requests at clock zero are both accepted |
| StatusProtocol.TakeOffNotLost | src/dock/status-loop.cpp:120-133 | an accepted request stays pending until an iteration takes it, whose first act with a key is the DELETE |
| StatusProtocol.WaitsGrow | src/dock/status-loop.cpp:161-167 | along a failure streak with streaming unchanged waits never shrink and stay in bounds |
| StatusProtocol.WaitsExactly | src/dock/status-loop.cpp:161-167 | every wait is that of BackoffDoubles for the polls failed since the last answered one or the last new key |
| StatusProtocol.WaitsWithoutTimer | src/dock/status-loop.cpp:283-289 | an iteration ends without a timer exactly when the key is missing or rejected, and only a flag or a request ends that wait |
| StatusProtocol.PublishesOnce | src/dock/status-loop.cpp:266-281 | an iteration that ends with neither flag up calls the sink once and no other does; without a key it shows nothing the server said; what is shown of take-offs is what became of the latest |
| StatusProtocol.StreamingTakesEffect | src/dock/status-loop.cpp:114-118 | the next timed wait goes by what set_streaming() said last |
| StatusProtocol.AccountKnown | src/dock/status-loop.cpp:190-213 | while the worker believes it has the account it has both halves, except exactly after an iteration without a key |
| StatusProtocol.NewKeyAsks | src/dock/status-loop.cpp:244-272 | the first poll after a served reconfigure asks for the account; answered well, both halves are there under the new settings |
| StatusProtocol.PollKeepsAccount | src/dock/status-loop.cpp:188-213 | a poll that need not ask keeps both halves, one after a rejected key asks again |
| StatusProtocol.AccountForgotten | src/dock/status-loop.cpp:253-272 | a run from the start to the exception of AccountKnown |
| StatusProtocol.ShiftInRange | src/dock/status-loop.cpp:161-167 | whenever Offline the backoff shift is in [0, 4] |
| StatusProtocol.PokeNotLost | src/dock/status-loop.cpp:105-118 | a poke since the iteration began forces another one without a timer while there is a key |
| StatusProtocol.PokeWaits | src/dock/status-loop.cpp:256-289 | only the iteration that serves it clears it |
| StatusProtocol.ComesRound | src/dock/status-loop.cpp:256-289 | after stop(), reconfigure() or drop_order() a busy worker always has a step and is at most five of its own from looking at the flags |
| StatusProtocol.Served | src/dock/status-loop.cpp:242-258 | there a stop ends it and can be joined, a reconfigure takes the newest settings |
| StatusProtocol.StepKeepsInv | src/dock/status-loop.cpp:67-290 | every step of the worker and its callers keeps the whole invariant |
| OverlayFinder.NamesTokenMeans | src/dock/overlay-finder.cpp:63-70 | it compares the first path segment exactly when the token has no delimiter |
| OverlayFinder.TokensAreClean | src/plugin-config.cpp:99-108 | well-formed tokens have none |
| OverlayFinder.ConsiderItems | src/dock/overlay-finder.cpp:104-118 | the recursion over items and groups keeps the best candidate of the flattened scene |
| OverlayFinder.ConsiderSource | src/dock/overlay-finder.cpp:72-102 | one source against the best so far |
| OverlayFinder.FindOverlay | src/dock/overlay-finder.cpp:239-287 | equals its declarative meaning: first matching here, else anywhere, else first stale here, else anywhere, else Missing |
| OverlayFinder.AnswerMeans | src/dock/overlay-finder.cpp:239-287 | OtherScene means no match in the current scene; stale means no match at all; Missing means no overlay |
| OverlayFinder.FirstMatchMeans | src/dock/overlay-finder.cpp:92-101 | the candidate kept is the first one that matches |
| OverlayFinder.SoundOkMeans | src/dock/overlay-finder.cpp:216-235 | the sound is right exactly when OBS does not control it or monitoring is what the fix would set |
| OverlayMeans.FoundMeans | src/dock/overlay-finder.cpp:74-130 | by what is in the collection: Missing means no overlay of ours is there, not stale that one shows this account's page, CurrentScene that one of the best kind is in the current scene; details are those of the source found |
| OverlayMeans.UnknownToken | src/dock/overlay-finder.cpp:90 | while the token is unknown nothing is stale, one in the current scene is what is found, and Update is not offered |
| OverlayMeans.SoundMeans | src/dock/overlay-finder.cpp:216-237 | the verdict on sound is Ok exactly when the streamer hears it and it is on air once; Unheard, Doubled and OffAir likewise |
| OverlayMeans.OfferMeans | src/dock/readiness.cpp:70-126 | exactly which collections and server facts get which fix, and when the button is enabled |
| OverlayMeans.LevelMeans | src/dock/readiness.cpp:70-126 | exactly when the row is Ok, warns, blocks or is neutral |
| OverlayMeans.StaleCanBeOkay | src/dock/readiness.cpp:76-107 | a collection whose only overlay is stale and whose row is Ok |
| OverlayMeans.NewOverlayMeans | src/dock/overlay-finder.cpp:295-371 | a new overlay is heard, on air once, and on every track except the listening one |
| OverlayMeans.AddedMeans | src/dock/overlay-finder.cpp:348-386 | Add puts one item into the current scene, and makes a source only where the overlay found elsewhere is not good |
| OverlayMeans.FixesMean | src/dock/overlay-finder.cpp:388-421 | the other fixes change one field of one source, and what they make of it |
| OverlayFix.Dock.OnOverlayFix | src/dock/sokaster-dock.cpp:561-584 | applies the fix of the last repaint to the source it found, even if the scenes have changed since, and repaints; on failure changes nothing |
| OverlayFix.Dock.Reevaluate | src/dock/sokaster-dock.cpp:429-457 | button, fix and found overlay describe the collection as it is |
| OverlayFix.Dock.AddOverlayToCurrentScene | src/dock/overlay-finder.cpp:348-389 | reuses ours from another scene or makes a new source off the listening track |
| OverlayFix.Dock.SetOverlayUrl | src/dock/overlay-finder.cpp:391-406 | changes the address of one source |
| OverlayFix.Dock.FixOverlaySound | src/dock/overlay-finder.cpp:408-421 | changes the monitoring of one source |
| OverlayFix.OnePress | src/dock/readiness.cpp:70-126 | one press settles every case but a sound fix on an overlay in another scene |
| OverlayFix.FixConverges | src/dock/readiness.cpp:70-126 | two presses reach a state that offers no fix, for any collection and any place of the new item |
| Tracks.OutputTracks | src/audio/audio-tap.cpp:207-243 | bit t is set exactly when an output of the profile sends track t, or there is no profile |
| Tracks.SendsMeans | src/audio/audio-tap.cpp:209-240 | a track is sent exactly when one of the nine outputs carries it |
| Tracks.FindFree | src/audio/audio-tap.cpp:245-255 | the highest free track, -1 exactly when all six are taken |
| Tracks.ClearedMeans | src/audio/audio-tap.cpp:193-203 | clearing a track changes no other bit of any source |
| Tracks.AudioTracks.SetSourceHeard | src/audio/audio-tap.cpp:297-313 | changes one bit of one source |
| Tracks.AudioTracks.ResolveTrack | src/audio/audio-loop.cpp:61-90 | takes the remembered track if it is free, else takes, clears and remembers the highest free one |
| Tracks.ResolvesToFree | src/audio/audio-loop.cpp:61-90 | signed in, it ends on a track no output sends, or on -1 exactly when all six are sent |
| Tracks.ResolvesOnce | src/audio/audio-loop.cpp:61-90 | a second call with an unchanged profile edits nothing |
| Tracks.EditsOnlyTheNewTrack | src/audio/audio-loop.cpp:61-86 | sources and settings change exactly when the remembered track is sent (or none) and another is free; then only in the new track's bit |
| Tracks.ReadoptedTrackKeepsSources | src/audio/audio-loop.cpp:68-84 | something is routed to the resolved track if and only if it is the remembered one, free, with something with audio routed to it before |
| Tracks.TakenFreedReadopted | src/audio/audio-loop.cpp:68-81 | a track taken and freed again comes back with whatever was routed to it meanwhile |
| Tracks.LosesAndRegains | src/audio/audio-loop.cpp:61-90 | that sequence as calls |

## Left out

- `run_vad`, `run_sender` and `StatusLoop::run` as loops: their bodies interleave with other threads, so each is a program
  counter in a transition system whose steps are the regions between two shared accesses.
- Floating point: samples and probabilities are reals, with infinity and NaN kept apart for samples only; the rounding of
  `clipped * 32767.0f` and a NaN probability are not modelled.
- Inference itself, model loading and LSTM state: an arbitrary function of the calls, and an arbitrary load result.
- The `capturedAt` stamp and all wall-clock formatting; clocks are unbounded naturals that never run backwards.
- Memory order weaker than sequential consistency on the ring's two positions.
- HTTP, JSON and Qt: answers are arbitrary statuses and texts. A whole `poll()` is one step with arbitrary answers, since it
  writes only what the worker owns.
- `monitoring_reaches_outputs` and `same_device`: whether a desktop capture carries the monitoring device is an input.
- `unique_name`, `fit_to_canvas`, `reload_overlay` and the page size: names and geometry do not enter the search.
- `AudioTap::start` with its conversion settings and logging; in `AudioPipeline` it is the step that clears the ring and
  lets the callback in, taken together with the rest of `AudioLoop::start()`, during which no other thread runs.
- Overflow of `int` counters that take years to reach: `silent_windows_`, `failures_`, and nanosecond clocks.
- `AudioTap::dropped_samples` is read only for the log; its wrap at 2^64 is modelled, the log line is not.
- The condition-variable notifications: a wait is left whenever its predicate holds, or its time is up.
- `VisionLoop`, `LinkFlow`, frame grabbing, source picking, hotkeys, the other readiness rows, settings files and the build:
  event plumbing between OBS, Qt and the network, and decision tables that one reading settles.
- `SampleRing.RoundUpPow2`: asks for a request of at most 2^63, above which the C++ loop would not end; the plugin asks for
  128000.
