# TurtleMap, modelled and proved in Dafny

TurtleMap is a resumable agent runtime. Agents hold control in a stack of frames, tasks run a model and its tools unit
by unit, every step ends in a checkpoint, and a paused or failed run is taken up again from there. Messages stream out
through interceptors, the history is projected into each agent's context, old history is compressed in the background,
and a web page shows it all. This project models the parts of it whose behaviour is easy to get wrong, and proves what
they are for.

`dafny verify dfyconfig.toml` checks the whole project. Code that works by changing state is a class or a method here
too, proved equal to a function of the old state; the results are lemmas about those functions. Automatic induction is
switched off for every lemma, so each proof is the one written down.

## Parts

- **Streaming interception** (`Common`, `Messages`, `MessageFold`, `MessagePublisher`, `StreamViews`,
  `StreamTheorems`, `StreamResults`, `StreamRaw`, `StreamReasoning`, `StreamMarks`, `StreamRepeats`,
  `StreamRemembers`, `ToolCallFold`). A publisher holds back text that may be the start of `<#CONTINUE#>`, releases it without
  markers, and replays a snapshot where 您 has to become Ning; the collector rebuilds the message from the published
  events. A `View` is what is known about one choice of one stream. The publisher with all its streams is shown to be
  a product of views, each view keeps `Good`, and `Good` at END is the rewrite of the whole text. The condition of
  `DisplayIsWholeRewrite` is what a caller can see from the chunks: no marker runs across a chunk that carries both
  text of the choice and usage, since such a chunk forces the release. `MessageFold` says what a rebuilt message tells
  on the entries of its choice alone, and `StreamRaw` that interception leaves the raw side untouched. Nothing keeps a
  chunk from naming a choice twice; `StreamRepeats` and `StreamRemembers` say what then happens.
- **Run loop** (`KernelModels`, `ToolUnits`, `ToolExecution`, `KernelSteps`, `KernelRuntime`, and the proofs in
  `KernelInvariant` to `KernelChronicle`, `KernelMoves` and `ToolTurns`). `KernelRuntime.Runtime` is the object with
  its queues, checkpoint and session; `KernelSteps` is the same as a state machine. What the model writes, what a tool
  does and where an exception strikes is an arbitrary `Answer` to each iteration. A log records what happened and was
  kept by a checkpoint. Histories are any sequence of runs, exceptions, clean-ups and reloads; three invariants hold
  over all of them: one looks at one task, unit and frame at a time (`LocalOk`), one across tasks, log and queue
  (`GlobalOk`), and one says that every pause is on record in the history (`Recorded`). `KernelMoves` says what one
  iteration leaves of a session, case by case, on tasks and units alone.
- **Tool rounds and projection** (`ToolRounds`, `ToolHistories`, `Projection`, `ProjectionTheorems`,
  `ProjectionContents`, `SessionProjection`). The tool-call protocol of the messages a task expands to, alone and over
  whole histories, the choice of history rounds, and the hand-over of what other agents did ("Group Input").
- **Background compression** (`Compression`). Results computed on old snapshots are merged into a history that went on
  growing.
- **Smaller algorithms**: the JSON fragment scanner against the printer (`JsonScanner`, `JsonTexts`, `JsonReading`,
  strings as in section 7 of RFC 8259), the server-sent-events printer against the client's parser (`SseStream`,
  `SseTheorems`, `SseFrames`, section 9.2 of the WHATWG HTML Living Standard), the page's block reducer (`ChatBlocks`,
  `ChatLanes`, `ChatPages`, `ChatTexts`, `ChatLabels`), the token cache (`TokenCache`), reachable agents
  (`ReachableAgents`), and schema reference expansion (`SchemaRefs`, `SchemaLeftovers`, `SchemaMeaning`, section
  8.2.3.1 of JSON Schema Core 2020-12).

## What turned out otherwise than expected

Where the expectation can be stated, a lemma gives a concrete input that fails it, next to one that says exactly when
the code does meet it.

- A marker cut by a chunk that carries usage stays on display (`CutMarkerStays`, `DisplayIsWholeRewrite`).
- The id of a streamed tool call is replaced by a later one if it begins like the ids the runtime makes up
  (`LookalikeIdIsReplaced`, `IdIsSent`).
- A tool that asks for confirmation and whose id begins with one of `_ h i t l` can never be approved: its approval
  tool is looked up under a shortened id, so its approval unit fails without asking (`LookupLosesItsFirstLetter`,
  `CanBeApproved`). The gate itself stays closed (`ConfirmedToolsRunApproved`).
- A restart between an approval and the call it was given for makes the approval worthless: approval tools are
  registered only while their own unit runs (`RestartForgetsApproval`, `GateMeans`).
- A handoff that is not the last call of its message leaves unanswered calls in the history, and the message of the
  handoff behind them breaks the tool-call protocol (`EarlyHandoffBreaksProtocol`, `ClosedRoundProtocol`,
  `ClosedRoundEnds`). Behind a handoff that fails it is the next input that meets them
  (`FailedHandoffBlocksNextInput`, `HistoriesTalk`).
- Of a choice named more than once in one chunk the publisher remembers the last entry only. Without interceptors one
  text can be shown for another (`TwiceNamedGarbles`; exactly when: `ShownRight`, `ShownIsRaw`); with the default
  interceptor a rewrite makes the other texts vanish (`TwiceNinIsOnce`; exactly when: `RootShowsRight`,
  `RightIffFaithful`, `NextRewriteShows`, `KeptIsRawIffCalm`).
- An agent can stand on the stack twice: whether the target of a handoff stands there is checked when the tools are
  shown, not when the handoff is carried out (`AgentStandsTwice`, `DistinctUnlessReturns`).
- The clean-up after a run drops queued inputs if the run ended in an exception (`ExceptionThenFinishDropsInput`,
  `FinishDropsNothing`).
- A stretch of the history whose first speaking round opens with an interruption response swallows the Group Input
  handed to it (`ResponseRoundSwallowsPiece`, `GroupInputExactlyOnce`). No run produces such a history
  (`SessionsLoseNothing`).
- Group Input that outlives a silent stretch is appended behind the trailing pieces. Pieces that can be told apart
  arrive in the order of the history exactly if none is swallowed and none comes behind a silent stretch that was
  handed one (`SilentRoundReorders`, `GroupInputInOrder`).
- A schema definition that is a bare text can put a `$ref` into an expanded schema (`NestedRefLeavesRef`,
  `NoRefsLeft`, `RefsLeftIff`).
- The client trims all blanks around an SSE field, where the standard takes away one space (`ArrivesUnchanged`).
- A message the model breaks off stays on the live page and is missing on the reloaded one, and a compression that
  ends while a message is being written stands behind it live and before it reloaded (`UnfinishedMessageStays`,
  `CompressionOvertakes`, `LiveEqualsReloaded`).
- Of agents that share a name one is known to the runtime (`ResolveReachableAgents`).
- The frame check of a reload does not look for running tasks, although its docstring says so
  (`src/turtlemap/os/service.py:623-660`, modelled as the code does it in `Sanitized`).
- `src/turtlemap/os/event_bus/collector.py:115` stores the FINAL event it publishes, although its docstring says
  otherwise.

## Model

| member | source | states |
|---|---|---|
| Text.ReplaceConcat | src/turtlemap/os/interceptor/agent_interceptor.py:92-103 | removing or rewriting a text distributes over a concatenation that cuts no match in two, for every text and pattern |
| Text.DanglingStart | src/turtlemap/os/interceptor/agent_interceptor.py:57-60 | if a character stands only at the head of a marker, an unfinished marker at the end of a text begins at the last such character, so looking at the last `<` misses none |
| Text.RemoveKeepsCount | src/turtlemap/os/interceptor/agent_interceptor.py:99-103 | removing a text keeps the number of every character that is not in it |
| Interceptors.InterceptorExecutor.MessageShouldContinueIntercept | src/turtlemap/os/interceptor/executor.py:87-115 | the text is held exactly if some interceptor of the chain asks for it |
| Interceptors.InterceptorExecutor.MessageBeforeFlushIntercepted | src/turtlemap/os/interceptor/executor.py:117-162 | each interceptor sees what the ones before it made of both channels; the parameters of all are joined |
| Interceptors.InterceptorExecutor.MessageBuildReplayContent | src/turtlemap/os/interceptor/executor.py:164-211 | each interceptor sees the snapshots as rewritten so far; there is a replay exactly if one asked for it |
| Interceptors.FlushChainKeeps | src/turtlemap/os/interceptor/executor.py:117-162 | a chain of interceptors that never take a text field away never takes one away either, on release |
| Interceptors.ReplayChainKeeps | src/turtlemap/os/interceptor/executor.py:164-211 | the same on replay |
| Interceptors.FlushComposes | src/turtlemap/os/interceptor/executor.py:117-162 | a chain of two chains releases what the first makes of the text through the second, with the parameters of both; one interceptor alone puts its texts in place of the held ones where it has any |
| Interceptors.ReplayComposes | src/turtlemap/os/interceptor/executor.py:164-211 | the same for replays, where a chain without a replay changes nothing |
| MessagePublishing.MessagePublisher.CollectPending | src/turtlemap/os/event_bus/message_publisher.py:147-184 | exactly the contexts with held text are visited: of the chunk's choices in chunk order, or of the whole stream at END |
| MessagePublishing.MessagePublisher.HandleContext | src/turtlemap/os/event_bus/message_publisher.py:191-311 | one context is held (its two derived channels cleared) or released, with what the chain asked to rewrite and to replay; at END or with usage it is released in any case |
| MessagePublishing.MessagePublisher.ProcessMessageEvent | src/turtlemap/os/event_bus/message_publisher.py:117-332 | the whole new store of contexts, the rewritten chunk, and the flush and replay events with their places before or after it |
| MessagePublishing.MessagePublisher.Publish | src/turtlemap/os/event_bus/message_publisher.py:68-115 | what is sent, in order, and the store left behind, which END empties for its stream |
| MessageFold.FoldChunk | src/turtlemap/os/event_bus/models.py:363-440 | one chunk changes exactly the messages of the choices it names: deltas append to raw, display and context text, a partial overwrites what it carries |
| MessageFold.ValidateStreamPhases | src/turtlemap/os/event_bus/models.py:188-209 | accepted exactly if STARTED, then process events, then END |
| MessageFold.FoldEvents | src/turtlemap/os/event_bus/models.py:345-440 | every choice's message is the fold of its own entries over the whole stream; it fails exactly if a process event carries no chunk |
| MessageFold.CreateFinalEventFromEvents | src/turtlemap/os/event_bus/models.py:313-495 | the FINAL event for every list of events of one stream, and exactly when there is none; it holds a message for exactly the choices with an entry, and each message tells what its entries said (`CompletionIsTold`) |
| MessageFold.CompletionIsTold | src/turtlemap/os/event_bus/models.py:363-495 | for every stream, on the entries alone: raw content and raw reasoning are the texts of the deltas in order; the four derived channels read, with fallback, as deltas and partials left them; finish reason and role are the last that are not empty; the parameters are joined |
| ToolCallFold.AddPart | src/turtlemap/os/event_bus/models.py:441-470 | one chunk changes exactly the calls of its choice that it names |
| ToolCallFold.FoldToolCalls | src/turtlemap/os/event_bus/models.py:345-470 | the calls of every choice, each put together from its own fragments over the whole stream |
| ToolCallFold.SortCalls | src/turtlemap/os/event_bus/models.py:472-476 | the calls of a choice in the order of their indices, each once |
| ToolCallFold.CallSays | src/turtlemap/os/event_bus/models.py:441-470 | for every stream, whatever comes between the fragments of a call and however its texts are cut: its arguments are those of its own fragments in order, its name and kind the first sent, its id the first sent that does not look made up |
| ToolCallFold.IdIsSent | src/turtlemap/os/event_bus/models.py:443-448 | a call has the first id sent that does not begin like the ids the runtime makes up; if all do, the last one sent; the made-up one only if none was sent |
| ToolCallFold.LookalikeIdIsReplaced | src/turtlemap/os/event_bus/models.py:447-448 | two ids that both begin so, of which the second stays |
| StreamViews.PublishOneView | src/turtlemap/os/event_bus/message_publisher.py:68-332 | publishing one event moves each choice of each stream by that choice's own step over its own entries, whatever the chunk looks like: choices and streams never mix |
| StreamRaw.PublishedOnce | src/turtlemap/os/event_bus/message_publisher.py:88-332 | for every chain: each event of the provider is published once, with its phase, id, model, time and usage and its choices as they were but for the derived texts; whatever is published around it carries no raw text, role, finish reason or usage |
| StreamRaw.ReplayNamesChunk | src/turtlemap/os/event_bus/message_publisher.py:255-332 | a replay behind a chunk bears that chunk's id, model and time |
| StreamRaw.PublishedOrder | src/turtlemap/os/event_bus/message_publisher.py:88-115 | an event of the middle comes first and its replays behind it; before END comes one event that releases every held text, choice by choice in the order the publisher met them, then the replays, and END is the last |
| StreamRaw.RawReachesReader | src/turtlemap/os/event_bus/message_publisher.py:68-332 | for every chain, every run and every shape of chunks, the rebuilt message has the raw content, the raw reasoning, the finish reason and the role that the provider's entries of the choice give it |
| StreamTheorems.ViewsAreIndependent | src/turtlemap/os/event_bus/message_publisher.py:147-184 | for every chain and every interleaving, what a reader rebuilds of a choice, and the publisher's snapshots of it, depend on the choice's own stream alone |
| StreamTheorems.SyncedChoice | src/turtlemap/os/event_bus/message_publisher.py:255-311 | a chunk keeps the publisher's received snapshots equal to what a reader has rebuilt, for every chain that obeys the contract (`None` and the empty text taken as equal) |
| StreamTheorems.SyncedEnd | src/turtlemap/os/event_bus/message_publisher.py:270-311 | the same for the release at END |
| StreamTheorems.ReleasedIsCutSafe | src/turtlemap/os/interceptor/agent_interceptor.py:57-60 | whatever the hold rule lets go, no end of it could be the beginning of a marker |
| StreamTheorems.CleanIncremental | src/turtlemap/os/interceptor/agent_interceptor.py:91-132 | releasing a block behind such text, and replaying, is rewriting the longer text at once; no marker is found or missed because of the cut |
| StreamTheorems.PublishedStream | src/turtlemap/os/event_bus/message_publisher.py:88-115 | what is published for a valid stream is again a valid stream, so its FINAL event can be built |
| StreamTheorems.DisplayIsRewrite | src/turtlemap/os/event_bus/message_publisher.py:137-332 | for every cut into chunks that name the choice once, and every interleaving: display text, context text and continue tag of the rebuilt message, in terms of the raw text between forced releases |
| StreamResults.SnapshotsMatchFold | src/turtlemap/os/event_bus/message_publisher.py:255-311 | for every obeying chain, after any published events the snapshots of every open choice that no chunk named twice are the fold of its published deltas and partials |
| StreamResults.ContextPlusHeldIsRaw | src/turtlemap/os/event_bus/message_publisher.py:334-381 | with the default interceptor, where no chunk names the choice twice, the received context text followed by the held text is all raw text so far |
| StreamResults.DisplayIsWholeRewrite | src/turtlemap/os/interceptor/agent_interceptor.py:36-132 | the rebuilt display text is the raw text with every marker removed and then every 您 rewritten, exactly if the message is not a subagent's or no marker runs across a chunk that carries usage |
| StreamResults.TagMarksMarker | src/turtlemap/os/interceptor/agent_interceptor.py:79-105 | without reasoning text a subagent's message is tagged exactly if its raw text holds a marker that no chunk with usage cuts |
| StreamReasoning.ReasoningIsKept | src/turtlemap/os/interceptor/agent_interceptor.py:36-140 | where chunks name the choice once: the context reasoning is all the reasoning sent, and the displayed reasoning is the same with markers taken out at most, all of it at the root and wherever no marker stands in it |
| StreamMarks.MarksAre | src/turtlemap/os/interceptor/agent_interceptor.py:79-132 | where chunks name the choice once, a message bears no parameters but a continue tag that is set and the mark of the replay, and that exactly if the raw text holds 您 |
| StreamMarks.TagIsSet | src/turtlemap/os/interceptor/agent_interceptor.py:79-105 | where chunks name the choice once, reasoning or not: a subagent's message is tagged exactly if its raw text holds a marker that no chunk with usage cuts or a marker was taken out of its reasoning; the root's never is |
| StreamResults.UsageLastUncut | src/turtlemap/os/event_bus/message_publisher.py:149-150 | if no text follows a choice's chunk with usage, no marker is cut |
| StreamResults.ChunkingDoesNotShow | src/turtlemap/os/event_bus/message_publisher.py:137-332 | two runs that cut the same text differently, among whatever other streams, give the same display and context text |
| StreamResults.CutMarkerStays | src/turtlemap/os/event_bus/message_publisher.py:149-150 | a concrete stream whose marker is cut by a chunk with usage, stays on display and leaves the message untagged |
| StreamRepeats.EntriesShow | src/turtlemap/os/event_bus/message_publisher.py:154-311 | for every chain, every state and every number of entries of one choice in a chunk: the display after it is the last replay, or else the raw texts with the last one replaced by the last release that differs from it; the raw text is whole |
| StreamRepeats.ShownAsOne | src/turtlemap/os/event_bus/message_publisher.py:154-311 | for every chain and every state: the entries of a choice are shown as if their texts had come in one entry exactly if the last release that differs, or the last replay, reads as that one entry's would |
| StreamRepeats.OnlyLastRemembered | src/turtlemap/os/event_bus/message_publisher.py:352-404 | for every chain the publisher keeps, of all entries of a choice in one chunk, what the last pending one leaves on its own |
| StreamRepeats.PlainDisplay | src/turtlemap/os/event_bus/message_publisher.py:137-311 | with no interceptor, for every run and every shape of chunks, the rebuilt display is what the chunks show, one after the other |
| StreamRepeats.ShownRight | src/turtlemap/os/event_bus/message_publisher.py:237-253 | without interceptors the entries of a choice in one chunk are shown right exactly if the last earlier text that is not the last entry's own reads like it |
| StreamRepeats.ShownIsRaw | src/turtlemap/os/event_bus/message_publisher.py:137-311 | without interceptors the display is the raw text at every moment exactly if every chunk shows its own texts |
| StreamRemembers.TwiceNamedGarbles | src/turtlemap/os/event_bus/message_publisher.py:154-163 | without interceptors, of any two different texts for one choice in a chunk the first is shown twice |
| StreamRemembers.TwiceNinIsOnce | src/turtlemap/os/event_bus/message_publisher.py:154-163 | with the default interceptor, 您 sent twice for one choice in one chunk is shown as one Ning |
| StreamRemembers.RootShowsRight | src/turtlemap/os/event_bus/message_publisher.py:154-311 | default interceptor, root agent: from a state in step, the entries are shown as their rewritten texts exactly if all text stands in the last entry with 您, or, with no 您, the entries show their own texts |
| StreamRemembers.RightIffFaithful | src/turtlemap/os/event_bus/message_publisher.py:68-332 | default interceptor, root agent, every interleaving and every shape of chunks: display and snapshot are the whole rewrite after every event exactly if every chunk of the stream is faithful to the choice |
| StreamRemembers.NextRewriteShows | src/turtlemap/os/event_bus/message_publisher.py:255-311 | default interceptor, root agent: when the next 您 comes, the display becomes all text so far, rewritten, exactly if every earlier chunk had all its text in its last entry with text |
| StreamRemembers.KeptIsRawIffCalm | src/turtlemap/os/event_bus/message_publisher.py:334-404 | default interceptor, every agent: received context text followed by held text is the raw text exactly if in every chunk all text of the choice stood in the entry that is remembered |
| ToolUnits.HitlIdRoundTrip | src/turtlemap/os/tool/service.py:1235-1244 | the tool id is recovered from an approval id exactly if it is empty or does not begin with one of `_ h i t l`, because the prefix is stripped as a set of characters |
| ToolUnits.LookupLosesItsFirstLetter | src/turtlemap/os/tool/service.py:1240 | a tool called `lookup` is looked up as `ookup` |
| ToolUnits.ShownToolsAre | src/turtlemap/os/tool/service.py:387-425 | a registered tool is shown exactly if it is no approval tool, nor `_resume_task` while no task is paused, nor the return tool where the root stands alone on the stack, nor a handoff to an agent on the stack |
| ToolUnits.FilterRuntimeAvailableTools | src/turtlemap/os/tool/service.py:387-425 | the loop keeps exactly those tools, in order |
| ToolUnits.UnitsAnswerCall | src/turtlemap/os/tool/service.py:207-290 | every call is answered by exactly one unit, the last of its units, marked as an error exactly if it names no registered tool the model was shown; a unit that calls `_hitl_` and the tool's id stands before it exactly if the tool requires confirmation |
| ToolUnits.BuildToolExecutionUnits | src/turtlemap/os/tool/service.py:177-306 | the units of a whole message, in call order, cut off behind a call that gives control away, closed by a turn of the model otherwise |
| ToolTurns.ShownInOrder | src/turtlemap/os/tool/service.py:366-425 | the tools shown are, in the order they are registered, those whose ids may be shown, spelled out id by id |
| ToolTurns.MessageUnits | src/turtlemap/os/tool/service.py:177-306 | on the calls alone: they are taken up in order to the first that gives control away, one unit answers each, and then the model goes on, without tools exactly after `_resume_task`, unless control is given away |
| KernelApproval.GateMeans | src/turtlemap/os/tool/service.py:654-710 | in every reached state the gate of a confirmed tool is open exactly if the unit's own request was answered `approve` and its approval tool is registered, and ill-formed exactly if that tool is not registered; nothing else of it can fail |
| ToolExecution.OutcomeMeans | src/turtlemap/os/tool/service.py:427-600 | a request is raised exactly for an admitted asynchronous tool with no response of its own; the chain breaks exactly at an ill-formed gate; a success comes only from an admitted unit, an asynchronous one only with its own response, an approval only with `approve` |
| ToolExecution.AdmittedEnds | src/turtlemap/os/tool/service.py:427-600 | what an admitted unit comes to, branch by branch: a synchronous body succeeds exactly if it did not fail, and its event is published; a handoff succeeds exactly for a registered target, a return exactly with an agent beneath, each with its change of control; an asynchronous tool asks until its own response is there and succeeds exactly if it could handle it, an approval exactly if it says `approve` |
| ToolTurns.CallsThatFail | src/turtlemap/os/tool/service.py:427-600 | a call that names nothing, or a tool that is not there, fails, and so does one that was declined or whose arguments are not accepted; a confirmed tool with no answer before it breaks the run, and nothing else does |
| ToolTurns.PlainToolRuns | src/turtlemap/os/tool/service.py:947-1005 | a registered tool that needs no confirmation runs whenever its arguments are accepted, and its result is its body's |
| ToolTurns.ApprovedToolRuns | src/turtlemap/os/tool/service.py:654-710 | a confirmed tool runs if the approval tool called before it said yes |
| KernelRuntime.PickNextExecutionUnit | src/turtlemap/kernel/runtime.py:966-982 | the first unit still to be executed |
| KernelRuntime.PickCompletedTask | src/turtlemap/kernel/runtime.py:450-460 | the first completed task, if there is one |
| KernelRuntime.PickAvailableRunningTask | src/turtlemap/kernel/runtime.py:462-497 | the first task that can go on |
| KernelRuntime.CollectToolLoopArtifacts | src/turtlemap/os/context/provider.py:570-631 | the artifacts of the executed units, approval units left out |
| KernelPreserved.ArtifactsAreOneRound | src/turtlemap/os/context/provider.py:168-242 | what a task leaves in the history is one round: its own input first, no other input behind it, all of it the agent's, and a paused task's request last |
| KernelRuntime.Runtime.RestoreRuntimeInputQueue | src/turtlemap/kernel/runtime.py:409-418 | the in-memory queue becomes the persisted one |
| KernelRuntime.Runtime.PushInput | src/turtlemap/kernel/runtime.py:420-428 | both queues grow by the same input |
| KernelRuntime.Runtime.PopInput | src/turtlemap/kernel/runtime.py:430-448 | both queues lose the same first input |
| KernelRuntime.Runtime.CommitCheckpoint | src/turtlemap/os/runtime.py:314-326 | the rollback point becomes the present session |
| KernelRuntime.Runtime.FindInterruptionRequest | src/turtlemap/kernel/runtime.py:257-281 | the first task, agent by agent, that waits for the request |
| KernelRuntime.Runtime.ApplyInterruptionResponse | src/turtlemap/kernel/runtime.py:197-255 | a response changes the waiting task only |
| KernelRuntime.Runtime.StartNewTask | src/turtlemap/kernel/runtime.py:800-828 | a task with a new id, started from the input |
| KernelRuntime.Runtime.ProcessNewInput | src/turtlemap/kernel/runtime.py:157-195 | the head of the queue starts a task or answers a request |
| KernelRuntime.Runtime.AdvanceCompletedTask | src/turtlemap/kernel/runtime.py:533-670 | a completed message with calls becomes a tool loop; any other completed task is closed |
| KernelRuntime.Runtime.CloseCompletedTask | src/turtlemap/kernel/runtime.py:533-645 | the artifacts join the history, control changes hands, the task is dropped; what that comes to on the units is `KernelMoves.Closing` |
| KernelRuntime.Runtime.ChangeAgentFrame | src/turtlemap/kernel/runtime.py:888-964 | the change is made exactly if it comes from the agent on top, and nowhere else is it checked; the whole new stack, and that a push or a tool's pop wakes the new top with an empty input (that the targets are known agents is `KernelPreserved.ChangeOk`) |
| KernelRuntime.Runtime.AdvanceRunningMessageTask | src/turtlemap/kernel/runtime.py:710-738 | the model writes the message; tool calls only where tools were shown |
| KernelRuntime.Runtime.PauseTask | src/turtlemap/os/tool/service.py:1061-1124 | a request is raised under a new id, and the task waits with its status kept |
| KernelRuntime.Runtime.FinishUnit | src/turtlemap/kernel/runtime.py:740-798 | the executed unit gets its result, new units go behind, the task completes with its last unit |
| KernelRuntime.Runtime.AdvanceRunningToolTask | src/turtlemap/kernel/runtime.py:740-798 | one unit of a tool loop: executed, paused on, or failed |
| KernelRuntime.Runtime.DoWork | src/turtlemap/kernel/runtime.py:115-145 | one iteration before its checkpoint: completed tasks first, then runnable ones, then the queue |
| KernelRuntime.Runtime.RunIteration | src/turtlemap/kernel/runtime.py:115-145 | one iteration: afterwards the two queues agree and the session is its last checkpoint, or the iteration left only ids and registered tools behind |
| KernelRuntime.Runtime.PauseTaskAfterException | src/turtlemap/os/runtime.py:668-742 | the session rolls back to the last checkpoint and its first active task waits for a retry; without one only the rollback stays |
| KernelRuntime.Runtime.RunWith | src/turtlemap/os/runtime.py:216-299 | a whole run equals the run of the state machine on the same answers |
| KernelRuntime.Runtime.Finish | src/turtlemap/os/runtime.py:301-312 | the queue and the unfinished tasks of the top agent are dropped, and on record |
| KernelInvariant.GeneratedOk | src/turtlemap/os/tool/service.py:387-425 | what the model can be shown never names an approval tool, the root or an agent on the stack |
| KernelInvariant.BuiltOk | src/turtlemap/os/tool/service.py:237-257 | every unit built behind a confirmed tool call stands directly behind its own approval unit |
| KernelPreserved.ChangeOk | src/turtlemap/os/runtime.py:552-606 | the change of control a completed task asks for starts at its own agent, pushes only a registered agent other than the root, and never pops the root |
| KernelPreserved.ExecutionOk | src/turtlemap/os/tool/service.py:427-600 | what a tool execution leaves in its unit keeps the unit invariant, approvals included |
| KernelPreserved.HandoffThenReturn | src/turtlemap/os/tool/build_in/handoff_return.py:69-130 | a handoff that succeeds puts its target on top, and the target's return takes exactly that frame away again; one that fails, and a return with no frame beneath, move nothing |
| KernelPreserved.WorkOk | src/turtlemap/kernel/runtime.py:115-145 | one iteration keeps the invariant of every task, unit, frame, queued input and history artifact |
| KernelHistoryKept.WorkGlobal | src/turtlemap/kernel/runtime.py:115-145 | one iteration keeps the order of inputs, one answer per request, and the whereabouts of every input |
| KernelLoading.TrimPausedTasks | src/turtlemap/os/service.py:171-181 | the backward loop keeps what the trimming rule keeps |
| KernelLoading.TrimmedAre | src/turtlemap/os/service.py:171-181 | a task stays exactly if it is active or fewer than five paused ones come after it; the others stay in their order |
| KernelLoading.SanitizeAgentFrames | src/turtlemap/os/service.py:623-660 | the session starts over exactly if it has no frame or a frame of an agent that is gone |
| KernelLoading.LoadSessionState | src/turtlemap/os/service.py:141-181 | the whole loaded session |
| KernelLoading.WorkRecorded | src/turtlemap/kernel/runtime.py:859-868 | one iteration keeps that every paused task has its input in the history |
| KernelLoading.LoadedOk | src/turtlemap/os/service.py:141-181 | loading a sound session gives a sound one, and every input is still accounted for |
| KernelTheorems.ApplySafe | src/turtlemap/os/runtime.py:216-312 | a run, an exception, a clean-up or a reload keeps the session and its rollback point sound |
| KernelTheorems.AlwaysSafe | src/turtlemap/os/runtime.py:216-312 | after every history of runs, exceptions, clean-ups and reloads both are sound |
| KernelResults.UnitsAtLoopHead | src/turtlemap/kernel/runtime.py:740-798 | at every checkpoint a tool loop is a finished prefix followed by pending units, a running one has a next unit, a completed one has none |
| KernelResults.RoundsKeepProtocol | src/turtlemap/os/context/projector.py:860-994 | in every reachable state the messages any tool task expands to keep the tool-call protocol |
| KernelResults.ClosedRoundEnds | src/turtlemap/os/context/projector.py:860-994 | in every reachable state a closed round leaves calls unanswered only behind the call that gave control away, and keeps the protocol exactly if that call was the last of its message or the change of control says nothing |
| KernelResults.FinishDropsNothing | src/turtlemap/kernel/models/models.py:607-618 | the clean-up drops something exactly if an input is queued or a task of the top agent is not paused |
| KernelResults.NormalReturn | src/turtlemap/kernel/runtime.py:115-145 | when a run returns normally the queue is empty, every task of the top agent is paused, and the clean-up has nothing to drop |
| KernelResults.ReloadKeeps | src/turtlemap/os/service.py:141-181 | after every history a reload keeps frames, queue, history and active tasks; a paused task is dropped exactly if five later ones of its agent are paused, and then its input stands in the history |
| KernelResults.FrameStack | src/turtlemap/kernel/runtime.py:888-964 | on every run the stack is never empty, its bottom never changes, the root stands nowhere else, and each frame came from the one beneath |
| KernelStacks.DistinctUnlessReturns | src/turtlemap/kernel/runtime.py:888-964 | an iteration keeps the agents on the stack distinct exactly if it closes no task whose handoff goes to an agent that stands on it |
| KernelStacks.AgentStandsTwice | src/turtlemap/os/tool/service.py:387-425 | a concrete history of four runs, with a handoff stopped by an exception and retried later, after which an agent stands on the stack twice |
| KernelMoves.Closing | src/turtlemap/os/runtime.py:552-641 | on the task's units: a loop that ends in a result that moves control gives exactly that change; one that ends in the model's words, and a message, give control back exactly if an agent is beneath and there is no continue tag; any other end leaves the frames. A handoff and a return by tool wake the new top with an empty input; of the tasks that one alone is gone, and its artifacts are on record |
| KernelMoves.TaskRecord | src/turtlemap/os/context/provider.py:168-242 | what a task leaves in the history, by how it ended: its request, its last word, or its calls and every finished unit that is not an approval, in order |
| KernelMoves.EndsAtRest | src/turtlemap/kernel/runtime.py:115-145 | an iteration finds nothing to do exactly if the agent in control has no task that is complete or can go on and the queue is empty |
| KernelMoves.Taking | src/turtlemap/kernel/runtime.py:157-195 | an agent at rest takes the head of the queue: the whole new session |
| KernelMoves.ResponseWakes | src/turtlemap/kernel/runtime.py:197-255 | a first response at the head of the queue wakes the task that waits for it, of whatever agent, as it was when it asked |
| KernelMoves.CrashIsVoid | src/turtlemap/os/runtime.py:668-742 | an exception makes an iteration void, whatever it was about to do |
| KernelMoves.Speaking | src/turtlemap/kernel/runtime.py:710-738 | the model's turn completes a message task with what it wrote; calls only of a round where tools were shown |
| KernelMoves.Entering | src/turtlemap/kernel/runtime.py:600-645 | a completed message with calls becomes a running loop of its units |
| KernelMoves.TurnInLoop | src/turtlemap/kernel/runtime.py:740-798 | a turn of the model in a loop: the unit has the message, the units of its calls stand behind all others, and the task completes exactly if all units have finished |
| KernelMoves.UnitRuns | src/turtlemap/kernel/runtime.py:740-798 | an executed tool unit has its result, what the tool publishes joins the end of the queue, and the request is done with |
| KernelMoves.UnitAsks | src/turtlemap/os/tool/service.py:1061-1124 | a unit that asks pauses its task under a new request, with input and request on record |
| KernelMoves.ExceptionPauses | src/turtlemap/os/runtime.py:668-742 | an exception pauses the first active task of the agent in control, as it is, for a retry under a new request, on record |
| KernelMoves.FinishKeeps | src/turtlemap/os/runtime.py:301-312 | the clean-up empties the queue, keeps the paused tasks of the agent in control in order, and changes nothing else |
| KernelMoves.RunBegins | src/turtlemap/os/runtime.py:216-299 | a run puts its input behind the queue, does one iteration per answer, and turns an exception into a pause |
| KernelMoves.Reloading | src/turtlemap/os/service.py:141-181 | a new process has of the saved session: frames and queue if all agents are known, else the root alone with nothing to do; of each agent's tasks those that are active and the last five paused ones, in order; the history; and no approval tools |
| KernelResults.OneAnswerPerRequest | src/turtlemap/kernel/runtime.py:197-281 | a task is paused only while its own request waits unanswered, no two tasks wait for one request, no request is answered twice |
| KernelResults.LateResponseIgnored | src/turtlemap/kernel/runtime.py:197-281 | once a request was answered no task of any agent waits for it, so a second response finds nobody and changes nothing; the already-answered branch is unreachable |
| KernelResults.FirstResponseAccepted | src/turtlemap/kernel/runtime.py:197-255 | a first response changes its task alone, back to the status held before the pause |
| KernelResults.PausedTaskWaits | src/turtlemap/os/service.py:458-484 | nothing but its own response moves a paused task |
| KernelResults.PauseThenAnswer | src/turtlemap/os/runtime.py:668-742 | answering a pause after an exception gives the task back as it was before it |
| KernelInputs.InputsInArrivalOrder | src/turtlemap/kernel/runtime.py:409-448 | over all histories the inputs that left the queue are the first that arrived, in order; the rest is the queue |
| KernelInputs.OneTaskPerInput | src/turtlemap/kernel/runtime.py:800-828 | no input starts two tasks, and none that was dropped starts one |
| KernelInputs.NoInputLostFromSight | src/turtlemap/kernel/runtime.py:533-598 | after every history an accepted input is queued, is a live task's start, stands in the history, or was dropped by a clean-up |
| KernelInputs.LoopDropsNothing | src/turtlemap/kernel/runtime.py:115-145 | only a clean-up drops an input, no iteration of the loop does |
| KernelInputs.ExceptionThenFinishDropsInput | src/turtlemap/kernel/models/models.py:607-618 | a concrete history in which the clean-up after an exception drops an accepted input that was never started |
| KernelApproval.GateHolds | src/turtlemap/os/tool/service.py:654-710 | in a sound state an admitted unit of a confirmed tool was approved |
| KernelApproval.ConfirmedToolsRunApproved | src/turtlemap/os/tool/service.py:1007-1124 | over every history a confirmed tool is let through only if the unit directly before it is its approval unit, ended in success, and was answered `approve` on the very request it raised; its id then survives the prefix strip |
| KernelApproval.ApprovalToolIsFound | src/turtlemap/os/tool/service.py:1218-1244 | an approval tool is found exactly if the id of the confirmed tool survives the strip |
| KernelGrants.AskingComesTo | src/turtlemap/os/tool/service.py:1007-1124 | in every reached state an unanswered approval unit comes to a request if the confirmed tool's id survives the strip, and to a failed call if not |
| KernelGrants.ApprovalGrants | src/turtlemap/os/tool/service.py:654-710 | the answer `approve` ends the approval unit and lets the call behind it through, unless that call's name is empty |
| KernelGrants.CanBeApproved | src/turtlemap/os/tool/service.py:1218-1244 | wherever the loop stands after any history: asking, answering `approve` and going on lets a confirmed tool through exactly if its id survives the strip and is not empty |
| KernelApproval.RestartForgetsApproval | src/turtlemap/os/tool/service.py:1218-1244 | after a restart, a confirmed tool that was approved but not yet run breaks at its gate whatever the answers, since approval tools are registered only while their own unit runs |
| ToolRounds.BuiltInRounds | src/turtlemap/os/tool/service.py:207-306 | the units of a message answer exactly its calls, in order, each once |
| ToolRounds.RoundAdvances | src/turtlemap/kernel/runtime.py:740-798 | a result, and a next round behind a turn of the model, keep that |
| ToolRounds.LoopKeepsProtocol | src/turtlemap/os/context/projector.py:860-994 | however far a loop has been executed, each tool message answers the next call of the nearest assistant message, the model goes on only when all its calls are answered, and approval units leave no message |
| ToolRounds.FinishedLoopEnds | src/turtlemap/os/context/projector.py:945-994 | a finished loop ends with the model's last words, or with the answer to the call that gave control away, behind which alone calls stay unanswered |
| ToolRounds.ClosedRoundProtocol | src/turtlemap/os/context/projector.py:860-994 | a finished loop with the change of control behind it, as the history holds it, keeps the tool-call protocol exactly if the change says nothing or no call of the last turn is unanswered |
| ToolRounds.EarlyHandoffBreaksProtocol | src/turtlemap/os/context/projector.py:860-994 | a concrete round whose handoff is not the last call of its message and whose messages break the protocol |
| ToolHistories.TalkOfRounds | src/turtlemap/os/context/projector.py:860-994 | any list of rounds, told whole, keeps the tool-call protocol across user messages exactly if only the last one leaves calls unanswered, with nothing said behind them |
| ToolHistories.FailedHandoffBlocksNextInput | src/turtlemap/os/context/projector.py:860-994 | two concrete rounds: behind a failed handoff with a later call in its message, the next input meets an unanswered call |
| KernelChronicle.AlwaysWritten | src/turtlemap/os/context/provider.py:168-242 | after every history of runs, what was written is a list of rounds, each the input of a task followed by nothing, its pause, its last word or its finished tool loop, and at most one change of control |
| KernelChronicle.HistoriesTalk | src/turtlemap/os/context/projector.py:860-994 | over every history of runs, any selection of the rounds written keeps the protocol exactly if only its last round leaves calls unanswered, with nothing said behind them |
| Projection.SplitHistoryRounds | src/turtlemap/os/context/projector.py:314-329 | the rounds joined are the history from its first input on |
| Projection.FilterLatestHistoryRounds | src/turtlemap/os/context/projector.py:331-379 | the walk from the back with a set of seen ids keeps the latest rounds |
| Projection.LatestIsLast | src/turtlemap/os/context/projector.py:331-379 | of every input but the current one exactly one round is kept, in order |
| Projection.KeptIsLast | src/turtlemap/os/context/projector.py:331-379 | what is kept is the last round of its input, and every such round is kept |
| Projection.BuildHistoryRoundGroups | src/turtlemap/os/context/projector.py:450-503 | the loop builds the groups |
| Projection.GroupsPartition | src/turtlemap/os/context/projector.py:450-503 | grouping loses and reorders nothing; groups are maximal stretches of one owner, normal exactly for the current agent |
| Projection.MergeGroupInput | src/turtlemap/os/context/projector.py:505-540 | which pieces are handed to which normal group, and which stay over; what a piece says is `ProjectionContents.PieceIs` |
| Projection.BuildHistoryRoundLlmMessages | src/turtlemap/os/context/projector.py:542-607 | the messages of a round: none where a called tool is gone and a result has expired, input and final words where a tool is gone, all of them otherwise |
| Projection.TellReceiver | src/turtlemap/os/context/projector.py:419-447 | the pieces go to the first round that says anything, or are carried on |
| Projection.BuildHistoryLlmMessages | src/turtlemap/os/context/projector.py:381-447 | the whole projection of a history |
| ProjectionTheorems.RoundDelivers | src/turtlemap/os/context/projector.py:758-798 | a speaking round delivers its pieces exactly if a user input opens it |
| ProjectionTheorems.TellConserves | src/turtlemap/os/context/projector.py:419-447 | every copy of a piece handed out is delivered, carried on, or swallowed by a round without a user input |
| ProjectionTheorems.OwnRoundsInOrder | src/turtlemap/os/context/projector.py:381-447 | apart from the pieces, the messages are those of the agent's own latest rounds in order; the current input's rounds do not appear |
| ProjectionTheorems.GroupInputExactlyOnce | src/turtlemap/os/context/projector.py:505-540 | every piece from other agents is delivered exactly once, into one history message or the current input, exactly if none is handed to a stretch whose first speaking round has no user input |
| ProjectionTheorems.TellIs | src/turtlemap/os/context/projector.py:419-447 | what is delivered, and what is left for the current input: first the trailing pieces, then those of the silent stretches |
| ProjectionTheorems.GroupInputInOrder | src/turtlemap/os/context/projector.py:419-447 | pieces arrive in the order of the history if none is swallowed and none comes behind a silent stretch that was handed one; where pieces can be told apart, exactly then |
| ProjectionTheorems.UserHistoriesLoseNothing | src/turtlemap/os/context/projector.py:758-798 | where user inputs open all rounds nothing is lost, whatever rounds are dropped |
| SessionProjection.SessionsLoseNothing | src/turtlemap/os/context/projector.py:131-155 | after every history of runs, every agent's view delivers what each other agent did exactly once |
| ProjectionContents.PieceIs | src/turtlemap/os/context/projector.py:666-726 | a piece is its stretch of the history, in order, with every answer, tool call, question, change of control and finished result, and every input of the user but the wake-up of a handoff |
| ProjectionContents.PiecesAre | src/turtlemap/os/context/projector.py:505-540 | one after the other the pieces are all that the other agents' last rounds tell, in the order of the history |
| ProjectionContents.PiecesGoToNext | src/turtlemap/os/context/projector.py:505-540 | what the other agents did goes to the current agent's next stretch, all of it and nothing else; what comes behind the last one is left to the current input |
| ProjectionContents.FirstHasPieces | src/turtlemap/os/context/projector.py:419-447 | of the rounds of a stretch the first that says anything has the pieces in it, and no other |
| ProjectionContents.SessionsTellAll | src/turtlemap/os/context/projector.py:131-155 | after every history of runs, an artifact stands in a piece an agent is handed exactly if it tells something and is in another agent's last round of some input |
| ProjectionContents.RoundSays | src/turtlemap/os/context/projector.py:542-607 | an own round says each artifact that speaks, in order, as its kind demands, with the Group Input in the user's message; with a missing tool it says only that message and the model's last words without calls, and nothing if a result has expired |
| SessionProjection.SilentRoundReorders | src/turtlemap/os/context/projector.py:419-447 | a concrete history, with an own round that says nothing between two stretches of another agent, whose pieces arrive out of order |
| SessionProjection.ResponseRoundSwallowsPiece | src/turtlemap/os/context/projector.py:781-798 | a concrete history, of a shape no run produces, in which a piece is lost |
| Compression.FindRetainedHistoryStartIndex | src/turtlemap/os/context/compress.py:309-340 | the loop over the history finds the start |
| Compression.CutAtRound | src/turtlemap/os/context/compress.py:529-563 | the cut lies at a round start with exactly the configured rounds behind it, or at the end with none |
| Compression.RefusedWhenNothingOld | src/turtlemap/os/context/compress.py:529-563 | compression is refused exactly for a history with nothing before its kept rounds |
| Compression.SessionMemory.MergeCompactedResult | src/turtlemap/os/context/compress.py:256-307 | whether a result is taken, and the whole new session |
| Compression.SessionMemory.CompactHistoryIntoMidTermMemory | src/turtlemap/os/context/compress.py:565-656 | the result of a compression in place, and the whole new session |
| Compression.NothingLost | src/turtlemap/os/context/compress.py:256-307 | under every interleaving of appends and results from earlier snapshots, everything ever appended is in exactly one merged summary, in order, or still in the history |
| Compression.MergesCutAtRounds | src/turtlemap/os/context/compress.py:565-656 | every merge cut at a round start with the configured rounds behind, or at its snapshot's end, and its summary was written over the one it replaced |
| Compression.OneMergePerStart | src/turtlemap/os/context/compress.py:657-678 | of two snapshots with the same first artifact at most one is merged |
| Compression.MergedIffFirst | src/turtlemap/os/context/compress.py:256-307 | a compression takes effect exactly if there was something to compress and no other was merged since it began; then its summary is the memory, and the history is the kept rounds with all that was appended since |
| JsonScanner.ExtractFirstJsonFragment | src/turtlemap/shared/json_parser.py:105-160 | the method finds the fragment the scan defines, and none exactly where the scan has no end |
| JsonScanner.FindFragmentEnd | src/turtlemap/shared/json_parser.py:127-160 | the counting loop over depth, string and escape state |
| JsonScanner.StringScan | src/turtlemap/shared/json_parser.py:133-145 | whatever a printed string holds, the scanner leaves it in the state it entered it |
| JsonScanner.ValueScan | src/turtlemap/shared/json_parser.py:127-160 | inside a fragment the scanner passes over every printed value |
| JsonScanner.ExtractsWhatWasPrinted | src/turtlemap/shared/json_parser.py:72-160 | for every object or array, every text before it without an opening bracket and every text behind it, exactly the printed value is extracted |
| JsonScanner.TruncatedYieldsNothing | src/turtlemap/shared/json_parser.py:105-160 | cut off before its end, a printed value yields nothing |
| JsonTexts.FindsBalanced | src/turtlemap/shared/json_parser.py:105-160 | for every text of characters and printed strings, well formed or not: the fragment found is the shortest from the first bracket on that closes as many of its kind as it opens, and there is none if none does |
| JsonReading.FoundReadsBack | src/turtlemap/shared/json_parser.py:72-160 | for every object or array printed into a text behind one without an opening bracket, what is found reads, per RFC 8259, as the value that was printed |
| SseStream.FormatSse | examples/server/sse.py:83-100 | the printed frame |
| SseStream.ParseSseFrame | web/src/api.ts:208-233 | the line loop, for every text |
| SseStream.StreamPost | web/src/api.ts:138-183 | for every chunking the frames delivered are those of the whole text; a lost connection is reported exactly if none of them ends the stream |
| SseStream.SplitResumes | web/src/api.ts:154-166 | splitting a longer text splits what was left over, so no chunk boundary shows |
| SseTheorems.BodyParses | examples/server/sse.py:83-100 | a printed single-line frame parses to itself, trimmed |
| SseTheorems.TranscriptArrives | examples/server/sse.py:83-100 | any list of printed single-line frames is delivered whole and in order |
| SseTheorems.ArrivesUnchanged | web/src/api.ts:208-233 | a frame arrives as it was sent exactly if its id and event have no blanks at their ends and its data none at its start |
| SseTheorems.LostIffUnended | web/src/api.ts:138-183 | a lost connection is reported exactly if no frame sent is `end` or `error` |
| SseFrames.AnyStreamArrives | web/src/api.ts:138-233 | for every stream of frames of any number of lines, with either line end anywhere: delivered is, in order, what the lines of each say |
| SseFrames.LinesSay | web/src/api.ts:208-233 | the last id and the last event count, and all data; an event that is not named is a `message` |
| ChatBlocks.FindLastToolLabelIndex | web/src/chatState.ts:366-374 | the last label of a tool call, if there is one |
| ChatBlocks.EventsToBlocks | web/src/chatState.ts:191-208 | the reducer loop, the answers put over the questions they belong to and nothing else changed, and the tail of the current item |
| ChatTexts.TextIs | web/src/chatState.ts:246-270 | for every stream: the text shown of a message is that of its last partial or final, if there is one, with the deltas that came after it in the order they came; there is no block exactly if all that is empty |
| ChatTexts.LabelIs | web/src/chatState.ts:376-385 | a compression or activity has one label, that of its last event, loading until the final one |
| ChatLabels.LabelsAre | web/src/chatState.ts:272-374 | for every stream: the labels of a tool call are what its own events and the questions make of them, whatever else is shown |
| ChatLabels.OneLabelPerCall | web/src/chatState.ts:272-310 | a call nobody has to approve has one label, with its name, the call and then its results in order as details, the last result shown, loading until a result comes or a question stops the run |
| ChatLabels.QuestionIs | web/src/chatState.ts:387-389 | a question has one block, still open, that of its last event |
| ChatLabels.EndIs | web/src/chatState.ts:391-395 | a page has one end, with the duration of the last completion |
| ChatLanes.KeptStep | web/src/chatState.ts:210-270 | an event every page sees does to the stored blocks of the live page what it does to a page without the others |
| ChatLanes.OwnStep | web/src/chatState.ts:210-270 | a message, compression or activity touches only its own block |
| ChatPages.LiveEqualsReloaded | examples/server/runtime_event_handler.py:351-378 | for every stream in which each message and compression has at most one final event, its last: the page that watched live shows what the page that loads the stored events shows, exactly if no unfinished one leaves a block and no final event comes after a stored block put behind its own |
| ChatPages.DirectStreamsAgree | examples/server/runtime_event_handler.py:351-378 | where each final event follows its own stretch directly the two pages are the same, with the answers to interruptions put over both |
| ChatPages.UnfinishedMessageStays | examples/server/runtime_event_handler.py:351-378 | a concrete stream, the model breaking off inside a message, where the two pages differ |
| ChatPages.CompressionOvertakes | web/src/chatState.ts:246-270 | a concrete stream, a compression ending while a message is being written, where the two pages differ |
| TokenCaching.TokenCache.Get | src/turtlemap/os/context/tokenizer.py:95-111 | a hit moves its entry to the end, a miss changes nothing |
| TokenCaching.TokenCache.Set | src/turtlemap/os/context/tokenizer.py:113-127 | the entry stands at the end, and the oldest are dropped down to the limit |
| TokenCaching.CountSerializedContent | src/turtlemap/os/context/tokenizer.py:252-271 | one access: the count returned and the cache after it |
| TokenCaching.CacheIsTransparent | src/turtlemap/os/context/tokenizer.py:252-271 | for every access sequence the count through the cache is the direct count, exactly if contents with the same hash have the same count |
| TokenCaching.HoldsMostRecent | src/turtlemap/os/context/tokenizer.py:95-127 | after every access sequence the cache holds exactly the most recently used distinct keys, in order of last use |
| TokenCaching.AccessMovesToEnd | src/turtlemap/os/context/tokenizer.py:95-127 | one more access moves its key to the end of that order |
| ReachableAgents.ResolveReachableAgents | src/turtlemap/kernel/agent.py:168-185 | for every handoff graph, cycles and shared names included, the worklist ends; a name is found exactly if an agent of that name is reachable through agents it found, and every reachable agent is found exactly if no two of them share a name |
| ReachableAgents.PathStaysInside | src/turtlemap/kernel/agent.py:168-185 | a set closed under handoffs holds everything reachable from inside |
| SchemaRefs.ExpandedIsClean | src/turtlemap/shared/json_schema.py:80-137 | unless some definition is a bare text, an expanded schema holds no textual `$ref` at any depth |
| SchemaRefs.NoRefsLeft | src/turtlemap/shared/json_schema.py:80-137 | that condition is exact for the definitions: without it some schema keeps a `$ref` |
| SchemaLeftovers.RefsLeftIff | src/turtlemap/shared/json_schema.py:80-137 | for one schema of dictionaries that expands: the result holds a textual `$ref` exactly if it takes over, past every key a sibling overrides, a `$ref` whose value is no text but leads to a definition that is one |
| SchemaRefs.NestedRefLeavesRef | src/turtlemap/shared/json_schema.py:80-137 | with a definition that is a bare text, `{"$ref": {"$ref": "#/$defs/x"}}` expands to a schema that has one |
| SchemaMeaning.PlainIsItself | src/turtlemap/shared/json_schema.py:80-137 | a schema without textual references and definitions expands to itself |
| SchemaMeaning.StackOnlyGuards | src/turtlemap/shared/json_schema.py:80-137 | a sound expansion does not depend on the definitions it is nested in |
| SchemaMeaning.PlainObjectMeans | src/turtlemap/shared/json_schema.py:80-137 | an object without a textual reference keeps its fields in order, each expanded, but for `$defs` |
| SchemaMeaning.RefMeansDefinition | src/turtlemap/shared/json_schema.py:80-137 | a reference alone means its definition; with siblings each sibling counts, expanded, and of the definition each field under another key, with its keys in their places |
| SchemaRefs.FailsIffBadRef | src/turtlemap/shared/json_schema.py:80-154 | expansion fails exactly if it reaches a reference that is not local, dangling, cyclic, or has siblings without leading to an object |

## Left out

- LLM clients, tool bodies, stores, routes, page components, prompt wording, logging, titles, clocks: input and output; their results are arbitrary values of the model. The expiry of a tool result is a set given from outside.
- Event bus locks and listener scheduling: publishing is an atomic append.
- MessageFold.FoldChunk: texts, derived channels and parameters; tool-call fragments are folded apart from them (`ToolCallFold`), ids and usage are not.
- MessageFold.FoldEvents: the same.
- MessageFold.CreateFinalEventFromEvents: the tool calls are not part of the message it builds (they are `ToolCallFold.FoldToolCalls`), nor are completion id, model, creation time, usage and the order of choices.
- MessagePublishing.MessagePublisher.ProcessMessageEvent: a chunk and its deltas are values, so aliasing between the provider's chunk object and the published one is not captured.
- StreamRemembers.RightIffFaithful: the root agent; for subagents, whose text is held back, the exact conditions are about context and held text (`KeptIsRawIffCalm`) and about one chunk (`ShownAsOne`).
- StreamViews.PublishOneView: provider deltas carry no derived channels; an interceptor is a function of its arguments, so one with a memory of its own is not covered.
- StreamTheorems.SyncedChoice: an interceptor that turns a text field back into `None` breaks the hook contract and is excluded.
- KernelRuntime.Runtime.ProcessNewInput: of an input's event list only the first event is modelled, the one that decides what the input does.
- KernelRuntime.Runtime.CommitCheckpoint: a store that fails after it has saved, and a second failure while the pause after an exception is being saved, are not modelled.
- KernelLoading.LoadSessionState: does not drop tasks whose event buffer lacks its input event, and agents keep their names and tools between runs; long-term memory is not loaded.
- ToolExecution.OutcomeMeans: the error flag the runtime sets on the message's shared tool call object is not modelled, nor keys of raw result data that a tool body could forge.
- KernelChronicle.HistoriesTalk: the rounds are told whole; rounds of which only input and final words are told, because a tool is gone, are not in it.
- Projection.BuildHistoryRoundLlmMessages: texts of messages are not modelled, only which message stands where and which Group Input it carries. Availability is checked on tool-call artifacts only, as the code does, not on calls inside later turns of the model.
- Compression.NothingLost: forced compression (levels 1 and 2) appears only as the overwrite it is; the statements over runs are about normal compression, with distinct artifact ids.
- JsonScanner.ExtractsWhatWasPrinted: stripping a Markdown code fence and `json_repair` are not modelled; numbers are their printed digits, and a pair of surrogates is not read.
- SseStream.StreamPost: the streaming UTF-8 decoder is not modelled; chunks are texts.
- SseTheorems.TranscriptArrives: fields without line breaks, since the printer writes one `data:` line; frames of many lines are `SseFrames.AnyStreamArrives`.
- ChatPages.LiveEqualsReloaded: one message item; the pairing of items and the texts of labels are not modelled.
- TokenCaching.CacheIsTransparent: the hash and the tokenizer are functions given from outside.
- ReachableAgents.ResolveReachableAgents: which of several agents with one name is met first is not stated.
- Retries, configuration, display names, session titles, the example tools, MySQL snapshots: they would only add easy members.
