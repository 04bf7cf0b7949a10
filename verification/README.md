# Verification model of the rocketbot core

A Dafny model of the parts of the bot that carry state from one step to the next: the OpenCode
event stream, the reply loops that post it to Rocket.Chat, the renderer between them, the protocol
that keeps the calls of one conversation apart, and the marker that decides what a reply in a
thread still has to read.

| file | models |
|---|---|
| `Text.dfy`, `RenderEvents.dfy` | strings as the bot uses them; the events between a generator and the renderer |
| `EventStream.dfy` | `consumeRenderEvents`: one step as a function (`Next`, `Emit`), the loop over mutable maps as a class |
| `StreamReplay.dfy`, `StreamBuffering.dfy`, `StreamSafety.dfy` | what every run of that machine keeps |
| `StreamSteps.dfy` | what each kind of event does in any run, read off its own fields and the events before it |
| `SampleStreams.dfy` | events for the streams that show where a property ends |
| `ChunkStream.dfy` | the older `consumeEvents` and `GenerateResponseStream`, and when they send the same chunks |
| `ChunkText.dfy` | `GenerateResponse`, and when its chunks make up the text |
| `SessionTree.dfy` | the walk over child sessions, and the reset it drives |
| `PromptLock.dfy` | prompt lock, stream goroutines, timeout, stale retry and cancel handles in every interleaving |
| `PromptProgress.dfy` | that such calls never get stuck, and which streams are cancelled |
| `SessionSlot.dfy` | which session a conversation refers to while such calls overlap |
| `Bootstrap.dfy` | which prompt of a session carries the conversation history |
| `Renderer.dfy` | `ProgressiveRenderer` and the placeholder helpers |
| `ChunkReply.dfy`, `RenderReply.dfy` | the two reply loops, with ticks, failing updates and notices |
| `ThreadMarker.dfy` | `collectMissedThreadMessages` and the marker of active threads |
| `EndToEnd.dfy` | stream machine, renderer and reply loop together |

Code that updates fields or loops over input is a class or a method here, proved against a
function of the old state; runs of those functions are what the main lemmas are about. A range
over a Go map is an `Order`, any order that visits each key once, so each lemma about output holds
for all of them. What the environment decides (a send that is cancelled, an update that fails, a
clock reading, a server answer) is an input or a nondeterministic choice. The protocols that run in
several goroutines (`PromptLock` with `SessionSlot`, `ThreadMarker`) are relations over atomic steps; their critical
sections are methods as well.

Where the code does not keep a property on all inputs, the model states the exact condition, and
gives a run or an input that fails it:

- A receiver that replays the emitted events has, of each part, the machine's text behind what
  lags: text that empty snapshots cleared from `partText` without an event, until the next
  `text_set` of the part. So it has exactly the machine's text after every event if and only if no
  empty snapshot follows text of an announced part (`WipedTextStays` fails it), and at any one
  point if and only if nothing lags there.
- When all texts that count come in snapshots, the two chunk streams agree after every event if and
  only if no step resumes text the receiver has already: a snapshot after an empty one that starts with the text from before
  (`RewoundTextDisagrees`), or an announcement that releases such a text for a part another message
  has used (`SharedPartDisagrees`, a stream with no empty snapshot at all). The newer path then
  sends only the rest, the older one everything.
- The chunks of a part make up its text if and only if the text only ever grew; otherwise they are
  longer, because `GenerateResponse` keeps what was rewritten.
- Buffering is transparent for a part, that is, after every event the message that wrote the part
  last holds the plain fold of the part's updates, if and only if no event splits it: a delta that
  extends another text than the one held (`SharedPartSplits`), a text that waited and replaces a
  newer one of an announced message (`LateReleaseSplits`), or an announcement of the last writer
  while only an empty text of it waits and another message left text (`EmptyWaitSplits`). A part of
  one message is never split.
- In a reset, descendants are deleted first in every order the listings may come in if and only if
  no session below the root has two parents and none lists the root, self-listings aside.
  `SharedChildOutlivesParent` is the walk over a diamond.
- A reset leaves no stream running if and only if every stream running before it has the newest
  number, so always when no stale session was retried; in `RetryHidesRunningStream` the retry,
  which no longer has the lock, replaces the handle of a stream that runs on.
- A turn's batch is complete if and only if its fetch skips no message of another user, and a
  fetch of n replies skips none in a thread that has no more. `FetchThreadHistory` puts the message
  that started the thread in front of the replies the server returns, so a marked starter counts as
  found although replies between are missing: `ShortWindowLosesMessage`, for every n.
- The chunk loop returns true if and only if the last successful update shows the whole non-empty
  text. That differs from what is on display if and only if the text is just "..." and no update
  ever succeeded: it is displayed from the first post (`DotsAreNotDelivered`).
- The first accepted prompt of a session carries the history if and only if no earlier attempt on
  that session failed for another reason than being stale, be it the prompt or the event stream,
  which is opened before it; `SpoiledSessionMissesHistory` is such a run.
- A current session is displaced by another one only where a stale session is retried, which goes
  on after the lock may be gone; `RetryDisplacesSession` is such a run.

## Model

| member | source | states |
|---|---|---|
| EventStream.StreamConsumer.ConsumeAll | bot/opencode_generator.go:899-1147 | The whole loop is a run of the step function for some map orders; it stops at the first event that ends the stream, and a cancelled stream has sent the output of a prefix plus, at most, part of what one event makes. |
| EventStream.StreamConsumer.Consume | bot/opencode_generator.go:907-1145 | One event takes the five maps and the output to the values of the step function, for an order the ranges may take; a cancelled send leaves the output at the events sent until then. |
| EventStream.StreamConsumer.ConsumeAnnouncement | bot/opencode_generator.go:988-1029 | A role announcement moves exactly the waiting non-empty texts of that message to `partText` and releases its tool updates; the state reached does not depend on the order of the ranges. |
| EventStream.StreamConsumer.FlushPendingTexts | bot/opencode_generator.go:1001-1015 | The range sends one `text_set` per released part, in the order it visits them, and deletes just those. |
| EventStream.StreamConsumer.FlushPendingTools | bot/opencode_generator.go:1017-1026 | The range maps each released update against the calls seen by then, and deletes just those. |
| EventStream.StreamConsumer.ReleaseTool | bot/opencode_generator.go:1017-1026 | One visit of that range: an update of another message stays, a failed send leaves the update buffered but its call marked as seen. |
| EventStream.StreamConsumer.ConsumeTool | bot/opencode_generator.go:1031-1056 | A tool update makes its part a tool part, and is sent or buffered by whether its message is announced. |
| EventStream.StreamConsumer.ConsumeText | bot/opencode_generator.go:1059-1144 | A text update records the part's type, drops deltas of parts not known to be text, buffers for unknown messages, and sends a delta when the snapshot extends the text; which these are is said over runs by `DeltaIsAppended`, `DeltaWaits`, `SnapshotIsTaken` and `SnapshotWaits`. |
| EventStream.StreamConsumer.EmitTool | bot/opencode_generator.go:1657-1700 | The kind sent follows status and `seenToolCalls`, and the call is seen afterwards, sent or not. |
| EventStream.MapToolsStep | bot/opencode_generator.go:1017-1026 | Releasing one more update adds the event it maps to after exactly the calls released before it, whatever the order. |
| StreamReplay.ReplayStep | bot/opencode_generator.go:988-1145 | One step keeps the replayed text of a part equal to `partText` unless it is an empty snapshot that wipes that part, and never keeps it then. |
| StreamReplay.ReplayFlush | bot/opencode_generator.go:1001-1015 | Replaying a flush gives each released part its waiting text and no other part anything, in any order. |
| StreamReplay.ReplayIsLagAndText | bot/opencode_generator.go:988-1145 | In every run, whatever it snapshots and in whatever order ranges go, replaying the emitted events gives, of each part, the text that lags followed by `partText`; so it gives `partText` if and only if nothing lags. |
| StreamReplay.ReplayReconstructsIffNoWipe | bot/opencode_generator.go:1069-1144 | Replay gives `partText` of every part after every step of a run if and only if no empty snapshot wiped text. |
| StreamReplay.NoWipeNoLag | bot/opencode_generator.go:1115-1120 | Only a wipe makes text lag. |
| StreamReplay.WipedTextStays | bot/opencode_generator.go:1115-1120 | A stream with an empty snapshot after "x": it has runs, and in none of them does replay give the machine's text. |
| StreamReplay.SnapshotHeals | bot/opencode_generator.go:1069-1144 | A snapshot of an announced part brings the receiver to exactly its text, whatever deltas were dropped before, if and only if nothing lags after it. |
| StreamBuffering.TransparentIffNeverSplit | bot/opencode_generator.go:988-1145 | For every stream and part, whoever uses the part: after every event the message that wrote it last holds the plain fold of the part's own updates if and only if no event splits the part; and its recorded type is always that fold's. |
| StreamBuffering.BufferingIsTransparent | bot/opencode_generator.go:988-1145 | So the text a part of one message has accumulated, waiting or announced, is the plain fold of that part's own accepted updates, whatever other parts do. |
| StreamBuffering.FoldHolds | bot/opencode_generator.go:1059-1119 | Such a part is in one of the two maps only, under its own message. |
| StreamBuffering.FoldIgnoresAnnouncements | bot/opencode_generator.go:988-1029 | The fold of a part is not changed by taking all role announcements out of the stream. |
| StreamBuffering.AnnouncementTimingIsIrrelevant | bot/opencode_generator.go:988-1029 | Two streams that differ only in when and how often announcements come end with the same `partText` of each announced part of one message. |
| StreamBuffering.SharedPartSplits | bot/opencode_generator.go:1087-1113 | A stream with deltas of two messages for a part: each map keeps a piece and neither the fold. |
| StreamBuffering.LateReleaseSplits | bot/opencode_generator.go:1001-1015 | A stream in which a released text replaces a newer one. |
| StreamBuffering.EmptyWaitSplits | bot/opencode_generator.go:1002-1004 | A stream in which a message whose snapshot was empty takes over the text of another. |
| StreamSafety.OnlyAnnouncedContent | bot/opencode_generator.go:999-1097 | Every text or tool event of a run is of a message announced by then. |
| StreamSafety.NothingGetsStuck | bot/opencode_generator.go:999-1040 | After every run no buffered non-empty text and no buffered tool update belongs to an announced message. |
| StreamSafety.DeltasAreOfTextParts | bot/opencode_generator.go:1069-1092 | A `text_delta` is only sent for a part whose recorded type is then text. |
| StreamSafety.ToolCallLifeCycle | bot/opencode_generator.go:1657-1700 | In every run, released updates in any order and a last range cut short included, a start is the first event of its call and an update follows another event of its call; the calls with events are those in `seenToolCalls`. |
| StreamSafety.OneStartPerCall | bot/opencode_generator.go:1666-1683 | So no call has a second start. |
| StreamSteps.DeltaIsAppended | bot/opencode_generator.go:1069-1113 | In every run a delta of an announced message is appended to the part's text if and only if its own trimmed type is "text", or that is empty and the events gave the part the type "text" last; exactly then, unless empty, it is sent as a `text_delta`. |
| StreamSteps.DeltaWaits | bot/opencode_generator.go:1069-1097 | A delta of an unannounced message is appended to the part's waiting text under the same condition, and sends nothing. |
| StreamSteps.SnapshotIsTaken | bot/opencode_generator.go:1115-1144 | In every run a snapshot of an announced message becomes the part's text; the rest is sent when it extends the text before, all of it when it does not, nothing when it is empty or the same. |
| StreamSteps.SnapshotWaits | bot/opencode_generator.go:1087-1097 | A snapshot of an unannounced message replaces what waits of the part and sends nothing. |
| StreamSteps.AnnouncementReleases | bot/opencode_generator.go:988-1029 | In every run, for any order of the ranges, an announcement sends one `text_set` for each part that waits with text of the message and one event for each tool update that waits for it, each once and nothing else; the texts become those of their parts, and the rest goes on waiting. |
| StreamSteps.ToolUpdateIsSent | bot/opencode_generator.go:1017-1056 | In every run a tool update is sent, with all it says, once its message is announced; only a later update of the part that comes before the announcement replaces it. |
| StreamSteps.KindsFollowStatus | bot/opencode_generator.go:1657-1683 | A finish or an error is sent if and only if the update's status says so, in any case and with any white space around. |
| StreamSteps.StartIsFirst | bot/opencode_generator.go:1644-1683 | Any other tool event is a start if and only if no event of the same call, named by call id, part id or tool, came before it. |
| StreamSteps.ForeignIsIgnored | bot/opencode_generator.go:943-1063 | An event that names another session, or whose part does, changes nothing, sends nothing and does not end the stream. |
| StreamSteps.EndIsTold | bot/opencode_generator.go:952-986 | The stream ends if and only if the session is idle, which sends one last event, or a permission cannot be answered, which sends none. |
| ChunkStream.ChunkAdapter.Feed | bot/opencode_generator.go:215-244 | The adapter's `partText` stays the replay of the events it received, and each event becomes the chunk that replay calls for. |
| ChunkStream.ChunkAdapter.FeedAll | bot/opencode_generator.go:212-246 | The loop sends the chunks of a prefix of the events, and of all unless it was cancelled. |
| ChunkStream.ChunkConsumer.FlushPending | bot/opencode_generator.go:1261-1271 | The older range sends each waiting text once and, unlike the newer one, deletes empty texts too. |
| ChunkStream.ChunkConsumer.ConsumeSnapshot | bot/opencode_generator.go:1310-1337 | A snapshot is buffered or sent as its difference to the text before. |
| ChunkStream.ChunkConsumer.Consume | bot/opencode_generator.go:1166-1339 | One event takes the maps and the chunks to the values of the older step function, for an order its range may take. |
| ChunkStream.ChunkConsumer.ConsumeAll | bot/opencode_generator.go:1158-1340 | The whole older loop is a run of that function, stopped by the same events as the newer one. |
| ChunkStream.AdaptedByPart | bot/opencode_generator.go:215-244 | The chunks `GenerateResponseStream` sends of a part depend only on the events of that part. |
| ChunkStream.RunsAreSimilar | bot/opencode_generator.go:988-1145 | When all texts that count come in snapshots, the two machines have the same messages, texts and waiting parts after every run, up to waiting empty texts. |
| ChunkStream.LastStepAgrees | bot/opencode_generator.go:1257-1338 | If both sent the same chunks of a part so far, they do after one more event if and only if it does not resume text the receiver has of the part. |
| ChunkStream.ConsumersAgreeIffNoResume | bot/opencode_generator.go:1158-1340 | On any stream whose deltas, if any, are ones the newer machine drops, the older consumer and `GenerateResponseStream` over the newer send the same chunks of every part after every event if and only if no step resumes text, for any orders of either's ranges; the condition is on the stream alone. |
| ChunkStream.UnwipedPartsAgree | bot/opencode_generator.go:1158-1340 | In particular they agree when each part belongs to one message and no empty snapshot follows its text. |
| ChunkStream.RewoundTextDisagrees | bot/opencode_generator.go:1319-1336 | A stream that has runs and on which they never agree: "x", an empty snapshot, "xy". |
| ChunkStream.SharedPartDisagrees | bot/opencode_generator.go:1261-1271 | Another one without an empty snapshot, in which two messages use a part. |
| ChunkText.GenerateResponse | bot/opencode_generator.go:183-198 | The loop returns all chunks together. |
| ChunkText.ChunksAreTextIffGrowing | bot/opencode_generator.go:215-244 | For any events, the chunks sent of a part together are the text of the part if and only if each `text_set` went on from the text before; otherwise they are longer than it. |
| ChunkText.ResponseIsTextIffGrowing | bot/opencode_generator.go:183-247 | So for an answer of one part `GenerateResponse` returns its text if and only if that only grew. |
| ChunkText.NoEmptyChunk | bot/opencode_generator.go:215-244 | No chunk is empty. |
| SessionTree.TreeWalk.Collect | bot/opencode_generator.go:477-500 | The recursive walk over any finite child graph, cycles and shared children included, terminates with exactly the ids of the depth-first walk in listing order, cut short where a listing fails. |
| SessionTree.WalkIsWalk | bot/opencode_generator.go:477-500 | That walk gives distinct ids not seen before, the root first, each other after one that lists it, everything listed visited, and it fails if and only if a visited listing does. |
| SessionTree.TreeIsFoundExactly | bot/opencode_generator.go:477-500 | Without a failing listing the walk returns exactly the sessions reachable from the root, each once; it fails if and only if some reachable session's listing does. |
| SessionTree.WaitForSessionNotBusy | bot/opencode_generator.go:614-640 | The wait polls on only after the answer busy, ends without failure on idle or unknown, at the deadline, and with failure on an error or a cancelled pause; with 200 ms between polls it makes at most (limit + 400 ms) / 200 ms of them. |
| SessionTree.WaitStopsOnlyWhenNotBusy | bot/opencode_generator.go:614-640 | Every poll but the last answered busy; a wait that ends on busy failed if and only if it was cancelled and otherwise was past its deadline, one that ends on idle or unknown did not fail, one that ends on an error did; and nothing else can be the outcome for the same answers. |
| SessionTree.SessionReset.AbortAndDelete | bot/opencode_generator.go:448-475 | The abort calls are the walk's ids in order and the delete calls exactly their reverse, whichever fail, with 1 to 12 polls between; if a listing fails nothing is aborted or deleted; the result is success if and only if the walk, every call and the wait succeeded. |
| SessionTree.DescendantsFirstIffSingleParents | bot/opencode_generator.go:448-500 | When no listing fails, every session is deleted after all its descendants for every order of the listings if and only if no reachable session has two parents and none lists the root, self-listings aside. |
| SessionTree.DescendantsFirstIffListsForward | bot/opencode_generator.go:465-469 | For one walk it is so if and only if no session lists one found before it. |
| SessionTree.DescendantsAreDeletedFirst | bot/opencode_generator.go:465-469 | It is so whenever every session has one parent, in any order of the listings. |
| SessionTree.SharedChildOutlivesParent | bot/opencode_generator.go:477-500 | The walk over a diamond, and so a parent deleted before the child it shares. |
| PromptLock.PromptMutex.UnlockConv | bot/opencode_generator.go:278-288 | The once-guarded unlock is the unlock step of the protocol. |
| PromptLock.PromptMutex.Lock | bot/opencode_generator.go:268-277 | Taking the prompt lock is the protocol's acquire step. |
| PromptLock.ActiveCancel.SetActiveCancel | bot/opencode_generator.go:71-78 | Registering a handle is the protocol's register step, and returns the number that stream has from then on. |
| PromptLock.ActiveCancel.ClearActiveCancel | bot/opencode_generator.go:80-86 | Clearing by number is the protocol's clear step. |
| PromptLock.ActiveCancel.CancelActive | bot/opencode_generator.go:88-96 | Cancelling is the protocol's reset step and calls the handle that was active. |
| PromptLock.LockInvariantStep | bot/opencode_generator.go:268-440 | Every atomic step of a caller, a stream goroutine or a reset keeps the tie between a call's place, its once-guard, its streams and the lock. |
| PromptLock.LockReleasedExactlyOnce | bot/opencode_generator.go:268-440 | In every interleaving only the holder unlocks the mutex, each call at most once, and exactly once when its caller and its goroutines are done. |
| PromptLock.OverlapNeedsTimeoutOrRetry | bot/opencode_generator.go:333-395 | Two event streams of a conversation are open at once only if one of them is a second attempt or belongs to a call that gave up the lock at the 2 s timeout. |
| PromptLock.OverlapNeedsRejectedPrompt | bot/opencode_generator.go:333-395 | So only if a prompt_async of one of their calls failed. |
| PromptLock.HandleInvariantStep | bot/opencode_generator.go:71-96 | Every step keeps the numbers of registered streams distinct and at most `activeCancelN`, and the active handle that of the newest one. |
| PromptLock.ClearsOnlyItsOwn | bot/opencode_generator.go:80-86 | A finishing goroutine, which clears after it released the lock, clears no handle but its own. |
| PromptLock.HandlesNeverCross | bot/opencode_generator.go:71-96 | In every interleaving `activeCancel` is the handle registered under `activeCancelN` until its own goroutine clears it or a reset takes it. |
| PromptLock.ResetCancelsNewest | bot/opencode_generator.go:146-155 | A reset cancels the newest generation unless it is past clearing or was reset before, and changes no other. |
| PromptLock.ResetLeavesNothingRunningIff | bot/opencode_generator.go:146-155 | In every run a reset leaves no stream consuming and uncancelled if and only if every such stream before it has the newest number. |
| PromptLock.ResetLeavesNothingRunning | bot/opencode_generator.go:146-155 | So it leaves none when no call retried a stale session. |
| PromptLock.RetryHidesRunningStream | bot/opencode_generator.go:388-431 | A run with a stale retry in which two streams are open, and a reset leaves the older one running. |
| PromptProgress.WaitingCallGetsMutex | bot/opencode_generator.go:268-288 | In every interleaving a call that waits for the mutex can get it after some steps of the holder alone: no failure or timeout loses the mutex. |
| PromptProgress.EveryCallCanReturn | bot/opencode_generator.go:333-440 | From every state any call can return with the mutex free, by its own steps and those of the mutex's holder. |
| PromptProgress.OnlyFailedPromptsCancel | bot/opencode_generator.go:387-395 | In every interleaving a failed prompt has cancelled its stream, in either attempt, and the stream of an accepted first attempt is cancelled only by a reset or at its own end. |
| SessionSlot.DisplacementNeedsRetry | bot/opencode_generator.go:290-318 | In every interleaving with fresh session ids a current session is displaced only by a stale retry, and then it is another than the stale one, or by a call that read the empty slot before a retry filled it. |
| SessionSlot.NoRetryNoDisplacement | bot/opencode_generator.go:290-318 | So none is displaced while no stale session is retried. |
| SessionSlot.RetryDisplacesSession | bot/opencode_generator.go:417-430 | A run in which a retry displaces the session another call created and prompted with success. |
| SessionSlot.ResetForgetsSessions | bot/opencode_generator.go:146-155 | After a reset, in every interleaving, neither the conversation nor a call that takes its session later refers to a session created before it. |
| SessionSlot.StaleSessionIsDropped | bot/opencode_generator.go:417-434 | A call that finds its session stale, at the first attempt or the retry, leaves the conversation without that session, and with any other that has taken its place. |
| SessionSlot.CallTakesSession | bot/opencode_generator.go:290-331 | A call takes the session it finds when it gets the mutex and keeps it; one that finds none prompts a session never created before and leaves it to the conversation. |
| Bootstrap.Conversation.GenerateRenderStream | bot/opencode_generator.go:249-440 | A call creates, prompts, clears and recreates sessions as the answers demand, and succeeds exactly when its first prompt or the retry after a stale one is accepted. |
| Bootstrap.Conversation.PostPrompt | bot/opencode_generator.go:333-395 | What one attempt sends and what its answer says about the session. |
| Bootstrap.Conversation.ClearSessionIDIfMatch | bot/opencode_generator.go:63-69 | The session id is dropped only while it is still the one given. |
| Bootstrap.Conversation.ResetSession | bot/opencode_generator.go:146-182 | A reset gives up the current session; what that means for the calls after it is `ResetStartsAfresh` and `CallAfterReset`. |
| Bootstrap.StepKeeps | bot/opencode_generator.go:290-440 | Every generation and reset keeps the history discipline of all prompts so far. |
| Bootstrap.BootstrapGoesFirst | bot/opencode_generator.go:290-331 | In every sequential run with fresh session ids the first accepted prompt of a session carries the history if and only if no first attempt on it, event stream or prompt, failed for another reason than being stale. |
| Bootstrap.SpoiledSessionMissesHistory | bot/opencode_generator.go:400-408 | A run with a rejected first prompt, after which the first accepted one goes without the history. |
| Bootstrap.BootstrapGoesOnce | bot/opencode_generator.go:400-439 | No later prompt of a session carries the history, and a session found stale is not prompted again. |
| Bootstrap.DeadSessionsAreNotPrompted | bot/opencode_generator.go:400-439 | Whatever a generation sends goes to sessions neither found stale nor reset before. |
| Bootstrap.ResetStartsAfresh | bot/opencode_generator.go:146-155 | In every sequential run with fresh session ids each prompt sent after a reset, however much later, is of a session created after it, and the first that session accepted carries the history unless it was spoiled. |
| Bootstrap.CallAfterReset | bot/opencode_generator.go:290-331 | The first call after a reset sends its first prompt to the session then created, with the history. |
| Bootstrap.SessionIsReused | bot/opencode_generator.go:290-440 | A call whose predecessor last sent a prompt that did not find its session stale prompts that same session without the history, and if it is stale now makes one more attempt in a new session with it. |
| Renderer.ProgressiveRenderer.Apply | bot/message_renderer.go:38-63 | An event changes answer and tool lines as its kind says, and the result is true if and only if either of them changed; when it is false the rendering is the same as before. |
| Renderer.ProgressiveRenderer.UpsertTool | bot/message_renderer.go:65-111 | A tool event changes the entry of its id or appends one, keeps index and list inverse to each other, and reports exactly whether the list changed. |
| Renderer.ProgressiveRenderer.UpdateLine | bot/message_renderer.go:81-99 | An entry keeps what the event leaves empty, takes the rest, and is reported changed if and only if it differs. |
| Renderer.ProgressiveRenderer.Render | bot/message_renderer.go:113-142 | The text is the header of the mode, a blank line if there is one, and the trimmed answer or "..."; what these read is `AnswerIsShown`, `LinesAppend` and `ConciseHeaderReads`. |
| Renderer.ProgressiveRenderer.RenderConciseSummary | bot/message_renderer.go:144-170 | The counting loop gives the number of entries of each kind, shown when positive. |
| Text.TrimCutsSpace | bot/message_renderer.go:132 | Trimming any text takes white space off both ends and nothing else, and leaves nothing if and only if all of it is white space. |
| Renderer.AnswerIsShown | bot/message_renderer.go:113-142 | The rendering is the header, a blank line if there is one, and the answer without the white space around it; or "..." if every character of the answer is white space. |
| Renderer.LinesAppend | bot/message_renderer.go:122-130 | Each tool adds a line with its summary in order, but for blank ones. |
| Renderer.ConciseHeaderReads | bot/message_renderer.go:115-121 | The concise header lists the counts that are not zero, skills before reads before other tools, singular for one. |
| Renderer.CountOfMeans | bot/message_renderer.go:148-157 | The counts are the numbers of entries filed under "skill", under "read", and under neither. |
| Renderer.RepliesRead | bot/message_renderer.go:113-170 | How a reply with three tools reads in both modes, and one that is blank. |
| Renderer.ListIsDigestOfEvents | bot/message_renderer.go:65-111 | After any events index and list agree, the list has one entry per distinct id in the order first seen, and each entry is the digest of that id's own events. |
| Renderer.OneLinePerName | bot/message_renderer.go:65-111 | After any events there is one entry for every name, by trimmed call id, part id or tool, in the order in which the names came first, and no other. |
| Renderer.LineShowsLast | bot/message_renderer.go:81-99 | An entry shows the last summary, status and category its events gave that were not empty, and is marked failed as its last event was. |
| Renderer.FailedMeans | bot/message_renderer.go:78 | An event has failed if its kind says so, or its status reads "error" in any case. |
| Renderer.CountsAddUp | bot/message_renderer.go:144-158 | The three concise counts add up to the number of entries. |
| Renderer.PlaceholderShowsBlankAnswer | bot/client.go:1130-1136 | A rendering is taken for a placeholder if and only if its answer is blank, is "...", or ends in a paragraph "...": no tool line can look like one. |
| Renderer.ReplacedPlaceholderKeepsHeader | bot/client.go:1138-1147 | Replacing the placeholder of any rendering keeps its header; the notice takes the place of a blank answer, and of a last paragraph "..." of a longer one, and any other answer stays. |
| ChunkReply.Reply.Receive | bot/client.go:1315-1317 | A chunk extends the text and restarts the wait for notices. |
| ChunkReply.Reply.TickAt | bot/client.go:1319-1346 | A tick sends a notice, the text or nothing, and takes over only what was sent successfully. |
| ChunkReply.Reply.CloseChannel | bot/client.go:1293-1314 | The close sends what is missing and settles the result. |
| ChunkReply.ChunksArriveWhole | bot/client.go:1282-1350 | Over every interleaving of chunks, ticks and failing updates the successful updates are notices, then strictly growing prefixes of the text received, or the no-response line if there is none. |
| ChunkReply.ResultTellsDelivery | bot/client.go:1293-1314 | After the close the result is true if and only if the text is non-empty and the last successful update shows all of it; without text, what was shown is replaced by the no-response line. |
| ChunkReply.ResultDiffersFromDisplay | bot/client.go:1261-1314 | Result and display differ if and only if the text is "..." and no update ever succeeded. |
| ChunkReply.DotsAreNotDelivered | bot/client.go:1293-1314 | The loop after a chunk "..." whose update fails: false, with the whole text on display. |
| ChunkReply.NoticesAreSpaced | bot/client.go:1284-1338 | The first notice comes more than 10 s after the start, the next more than 20 s after the last, or more than 10 s if any chunk, even an empty one, came between. |
| ChunkReply.NoticesAreApart | bot/client.go:1284-1338 | So any two notices are more than 10 s apart. |
| ChunkReply.TickShows | bot/client.go:1319-1346 | After a tick whose update succeeds the message shows all text received, sent just when it did not yet; without text the tick sends a notice if and only if one is due by the chunks and notices before, and a failing update changes nothing. |
| ChunkReply.CloseShows | bot/client.go:1293-1314 | The close sends the text just when the message does not show it yet, and then its success is the result; without text the result is false and what was shown gives way to the no-response line. |
| ChunkReply.ContextEnds | bot/client.go:1347-1348 | The end of the context ends the loop with false and sends nothing. |
| RenderReply.Reply.FlushNow | bot/client.go:1048-1088 | The closure decides on a notice, skips what is unchanged, and updates cache and dirty flag only when the update succeeds; what ticks and the close show is `TickShows`, `TickCatchesUp` and `CloseShowsEverything`. |
| RenderReply.Reply.Receive | bot/client.go:1100-1105 | An event that changes the rendering raises the dirty flag and restarts the wait for notices; any other leaves both. |
| RenderReply.Reply.TickAt | bot/client.go:1120-1123 | A failed update ends the loop with false. |
| RenderReply.Reply.CloseChannel | bot/client.go:1092-1099 | The close forces an update, and its success is the result. |
| RenderReply.DirtyFlagIsSound | bot/client.go:1048-1128 | In every run, while the flag is down the message shows the current rendering, or that rendering with a notice in place of its placeholder. |
| RenderReply.ViewIsOfReceived | bot/client.go:1100-1105 | The renderer's state is that of exactly the events received before the loop ended. |
| RenderReply.CloseShowsEverything | bot/client.go:1090-1099 | When the stream closes and the loop returns true, the message is the rendering of all events received, with a notice only where a placeholder was and one was due. |
| RenderReply.TickShows | bot/client.go:1048-1088 | In every run a tick sends nothing if and only if the dirty flag was down with no notice due, or the message shows already what it would send; otherwise it sends the rendering of all events received, with the notice that is due, and a failure ends the loop. |
| RenderReply.TickCatchesUp | bot/client.go:1048-1123 | So after a tick whose update succeeds the flag is down and the message shows all events received, with a notice at most in its placeholder. |
| RenderReply.EventRaisesFlag | bot/client.go:1100-1105 | The flag goes up with each event that changes tools or answer, and with no other. |
| RenderReply.ContextEnds | bot/client.go:1124-1125 | The end of the context ends the loop with false and sends nothing. |
| ThreadMarker.CollectMissedThreadMessages | bot/client.go:364-391 | The loop returns, of the distinct messages with an id, those of others after the marked one, or all of them without a marker. |
| ThreadMarker.MissedMeans | bot/client.go:364-391 | For any history, with ids repeated or missing, the result is, in order, every message that is the first of its non-empty id, is by another user, and comes after one with the marked id if one is marked. |
| ThreadMarker.MissedInWindow | bot/client.go:364-391 | Over any window of a thread the result is the others' messages from the marker to the end of the window; nothing if a marked reply is outside it, and only the window's replies if the starter is marked. |
| ThreadMarker.FetchCompletesIffNothingSkipped | bot/client.go:334-391 | Any fetched window gives the turn every message of another user from its marker to its trigger if and only if it cuts none of them, or only a trigger that goes alone anyway. |
| ThreadMarker.FewRepliesAreCovered | bot/client.go:347-352 | A fetch of n replies skips nothing in a thread of at most n, and one of the latest n nothing since a marker among them. |
| ThreadMarker.ThreadKeysDiffer | bot/client.go:172-174 | Rooms without a colon in their id never share a key. |
| ThreadMarker.ActiveRoomThreads.Get | bot/client.go:195-203 | A marker is found only under its own room and thread, both non-empty. |
| ThreadMarker.ActiveRoomThreads.Mark | bot/client.go:205-214 | Marking changes that thread's marker and no other. |
| ThreadMarker.ActiveRoomThreads.PrepareMessage | bot/client.go:334-362 | An inactive thread, an empty fetch or nothing missed leaves the trigger alone; otherwise the missed messages are the batch. |
| ThreadMarker.FirstTurnsGoAlone | bot/client.go:334-345 | Until a turn of the thread has succeeded, every turn is given its trigger alone. |
| ThreadMarker.TurnStartsFromLastSuccess | bot/client.go:960-988 | After that, in every interleaving, a turn starts from the trigger of the turn that was last to succeed before it began. |
| ThreadMarker.InvariantStep | bot/client.go:334-391 | Every step of any number of overlapping turns keeps everything up to the marker, and up to each marker a turn has read, ingested. |
| ThreadMarker.NoMessageIsLost | bot/client.go:960-988 | However turns overlap and finish, each message of another user up to the marker and after the last trigger of a turn begun before activation was in the batch of a turn that succeeded, if the fetches of successful turns skipped nothing. |
| ThreadMarker.ShortThreadsLoseNothing | bot/client.go:334-391 | In a thread with at most as many replies as are asked for no message is lost while fetches succeed. |
| ThreadMarker.ShortWindowLosesMessage | bot/client.go:347-352 | For every count n, and any thread of a starter and n + 1 replies with others at the places that matter, a run in which a fetch of the latest n skips the first reply, which is then in no batch although the marker has passed it. |
| ThreadMarker.BatchesAreDisjoint | bot/client.go:334-391 | When turns come one after the other, no message is in the batches of two that succeeded, failed fetches and windows without the marker included. |
| EndToEnd.AnswerIsReplay | bot/message_renderer.go:38-51 | For the events of one text part the renderer's answer is the replay of what it received. |
| EndToEnd.SentText | bot/opencode_generator.go:1059-1145 | For a part of one message the replay of the output is nothing before its message is announced, and from then on the fold of its updates behind what lags. |
| EndToEnd.OutputKeys | bot/opencode_generator.go:1069-1097 | When of all announced messages one shows text, and in one part, no text event of another part is sent: not the user's own text, not dropped deltas, not empty snapshots. |
| EndToEnd.UserTextMayCome | bot/opencode_generator.go:1087-1097 | A stream of this kind with the user's text before and after the announcement. |
| EndToEnd.PostedTextIsPartText | bot/client.go:1090-1098 | Whenever only one part's text was sent, whichever messages used it: if the stream ends by itself, the update at the close succeeds and no placeholder shows, the posted text is the tool header followed by the trimmed `partText` of the part behind what lags. |
| EndToEnd.PostedTextIsFold | bot/client.go:1090-1098 | When of all messages announced by the end one shows text, and in one part of its own, whatever else the stream carries that is not shown: under the same end of the stream the posted text is the tool header followed by the trimmed fold of the part's own updates behind what lags; just the fold if nothing does. |
| EndToEnd.CancelledPostIsPrefix | bot/client.go:1090-1098 | If such a stream is cancelled at any point instead, it is the header followed by the trimmed text the part has, in the same sense, at some point of the stream. |

## Left out

- HTTP requests, the framing of server-sent events, WebSocket traffic, JSON decoding, logging: decoded events, listings, server answers and the success of updates are inputs.
- `bot/api_client.go`, `internal/httpapi`, `cmd/rocketbot`, `config`, the n8n parser and the webhook generator: plumbing and single accumulators.
- The wording of tool lines and their categories (`bot/tool_summary.go`, `classifyRenderEventTool`): arbitrary functions, so the renderer's results hold for all of them.
- Prompt wording, mention parsing, bot commands, policies, the choice of history limit, and the sorting of fetched messages by date.
- `handleNonStreamingResponse`, and what precedes the reply loops: the first post of "..." and errors on starting the generator, which return false at once.
- Reconnect and backoff, which depend on timing only.
- The width of `activeCancelN`: 2^64 registrations of one conversation are not modelled.
- Strings are sequences of characters where Go has bytes; the two agree on valid UTF-8. Lower-casing is exact for the words compared, "completed" and "error".
- Opening an event stream and registering its cancel handle are two steps of `PromptLock`, posting the prompt and learning its answer one; the contents of the stream are not part of that model.
- Runs of `Bootstrap` are sequential: which prompt carries the history is not claimed for overlapping calls. `SessionSlot` follows the session id alone through the runs of `PromptLock`, and takes a reset as one step.
- ChunkStream.ConsumersAgreeIffNoResume: no deltas that count; on those the older consumer, which does not decode them, sends nothing.
- The reply loops take a turn of the select at a time; an update is not interrupted by other turns, as in the code.
- ThreadMarker.NoMessageIsLost: needs the fetches of successful turns to skip nothing; what one turn skips another turn may still have, so the exact condition is stated per fetch in FetchCompletesIffNothingSkipped.
- ThreadMarker.BatchesAreDisjoint: sequential turns only, each with its trigger after the marker it read and, when it fetches, as the last message fetched.
- Which replies a server returns when a thread has more than are asked for is not fixed by the code: a fetch is any run of that many replies, of the latest in `ShortWindowLosesMessage`.
- StreamSafety.DeltasAreOfTextParts: relies on what decoding guarantees, a part id and the type "text" on every snapshot.
- EndToEnd.PostedTextIsFold: one part that shows text; when several show, a `text_set` of one replaces the whole answer. While the answer is blank the close may show a notice instead.
- Tool lines are keyed by trimmed ids, tool calls of the stream by untrimmed ones: the model keeps both as the code has them and claims nothing about ids that differ only in white space.
