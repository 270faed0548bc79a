# Tename: a verified model of the agent runtime's core

Tename keeps every fact of an agent's conversation in an append-only event log, lets any number of emitters write it, and
rebuilds the model's request from it before each completion. This project models the four parts that have to agree for
this to work, and proves the properties they owe each other:

- **The session log** (`SessionProtocol`, `SessionGuarantees`, `SessionReads`, `CreateSession`, `SessionStore`): emits,
  completions and session creation as transactions of a state machine, interleaved at every statement with a rollback
  possible at each; readers and the SDK's poller beside them. A statement sees what is committed when it runs, advisory
  locks are held to the end of the transaction, an UPDATE waits for the row's current writer and sets its own columns on
  the newest row. Lock keys may collide.
- **The conversation** (`Adapters`, `Rounds`, `Shown`, `Pairing`): the one-pass fold with four buffers that both adapters
  share, a declarative renderer it is compared with, a specification of what the model is shown that is said on the payloads
  of the events alone, and the rule that every `tool_use` is answered by the next message.
- **Compaction** (`Compaction`, `CompactionStack`): the active view, the truncate planner, and any stack of their records.
- **The harness** (`Turns`, `HarnessSteps`, `Lifecycle`, `Runs`, `Harness`): `run_session` and everything it calls, method
  by method, over arbitrary behaviour of the model, the clock, the tools, the sandbox backend and the session service's
  connection. `SandboxService` models the sandbox states, `Anthropic` the provider's stream, its retries and the wire
  format, and `Profiles` the inheritance of profiles.

`Harness.HarnessRuntime.RunSession` is where these meet. For every run, on every exit path: on a log in which every call
has its result, each request is the fold of the active view and is validly paired exactly when no call in it lost its
result; the first user message and all compaction records stay; each sandbox used was passed to destroy exactly once, no
invalid transition was attempted, and every tool that ran in a sandbox was asked for, with that input, by a tool_call in the
log. A run that returns appended rounds in a fixed grammar, each saying what the chunks it read said, each result that of the
tool its chunk named; `Runs.RoundIsShown` follows a round from the provider's chunks to what the model reads next. A run that raises had a call of the session service raise, was not
configured, or met an exception in the stream that answers its last request.

`dafny verify dfyconfig.toml` checks the project.

## What the proofs found

- **A second compaction can break pairing.** Only the latest record is honoured while the planner works on the already
  compacted view, so a call dropped first can come back after its result was dropped. `CompactionStack.TwoCompactionsBreakPairing`
  gives two decisions of the planner that do this; `CompactionStack.PlannedIsPaired` gives the exact condition, that the planner
  dropped a result which was already orphaned in the view it planned on; a first compaction never does
  (`CompactionStack.FirstCompactionIsPaired`).
- **The fold is the renderer except after two turns that only speak.** A closer directly after another closer overwrites the
  pending text (`Rounds.SpokenTwice`). Each such clash costs exactly one message (`Rounds.ContextLength`), and equality holds
  exactly without clashes (`Rounds.ContextIsRender`). The harness never writes one; another run on the same log could.
- **`no_user_turn` needs a silent anchor.** The first user message always stays in the view, but the exit counts messages with
  text: if the first user message has none, the planner may drop the only one that has
  (`CompactionStack.SilentAnchorLosesUserTurn`). After a decision is recorded a user turn is found exactly when some message
  with text is hidden from the planner, is its anchor, or is among its last `keep_last_n` events
  (`CompactionStack.UserTurnAfterRecord`). With text in the first user message the exit is never taken.
- **Reads stop at 1000 events.** A longer log is folded from its first 1000 events. `Runs.ReadIsPaired` says exactly when that is
  still paired; `SessionReads.Send` and `SessionReads.StreamEvents` say exactly when the SDK yields everything. Past 1000 events
  `send` starts over at event 1001. A harness that raises while the SDK waits ends the stream without the final drain.
- **`_deep_merge` is not associative** where the middle profile has a plain value between two mappings
  (`Profiles.AssociativeExactlyWhen`), unless the parent's mapping has nothing the child's has not; where the profiles agree
  on which paths are mappings it is.
- **`Sandbox.status` bypasses the transition table** exactly when the backend reports a destroyed sandbox as being in error
  (`SandboxService.StatusBypassesTable`).
- **`create_session` is not idempotent for a `request_id` that is not a string.** Such an id is never looked up. A call whose
  agent exists and that reaches the insert fails exactly when its id is not a string and its index entry was taken then
  (`CreateSession.FailsExactlyWhen`; `CreateSession.NonStringRequestFails` is such a run), so every later call with that id
  fails too (`CreateSession.RepeatFails`). For a string id the RuntimeError means a missing agent.

## How the source is represented

- `uuid4()` gives a number never given before; each `uuid5` of the harness is an injective constructor of the name it hashes, and
  the identifiers of a model are those of one session. `Json.Id(u)` is the printed form of `u`, so parsing it back is total on it.
- Payload sizes, JSON parsing and profile files are arbitrary functions, given as parameters. Whatever answers a call from
  outside (the model, the clock, tools, the sandbox backend, the connection) is an arbitrary function of the call's number, which
  covers any behaviour that depends on earlier calls.
- An exception is the value `Raised`; `try`/`finally` is written out on both paths. The harness's local set of sandbox ids is a
  field of `HarnessRuntime`, because its helpers add to it.
- `SessionStore.SessionService` is the session service as its only writer meets it. Its `EmitEvent` is tied to the effect that the
  transaction protocol has when no other call is under way (`SessionGuarantees.EverySoloRunHasEffect`), and so is its
  `MarkComplete` (`SessionGuarantees.EverySoloCompletionHasEffect`). Its ghost counter `raises` tells how many calls raised, for
  whatever reason.
- What a run owes the model is stated for any log that is `RoundComplete`, in which calls, text and results come in the order
  the harness writes them and every call has its result; text may follow text. That the model is to speak next is
  `AwaitsReply`, read off the log from its end. `Turns.SendAwaits` shows that `send` establishes both.

## Model

| member | source | states |
|---|---|---|
| Adapters.ContextBuilder.FlushAssistantTurn | src/tename/harness/adapters/vanilla.py:72-82 | pending text and tool uses become one assistant message, text first; nothing pending, nothing appended |
| Adapters.ContextBuilder.FlushToolResults | src/tename/harness/adapters/vanilla.py:84-89 | pending results become one tool message |
| Adapters.ContextBuilder.Consume | src/tename/harness/adapters/vanilla.py:91-158 | one event of the loop has the effect of `Step` on all four buffers |
| Adapters.CollectCallIds | src/tename/harness/adapters/vanilla.py:60-65 | the map from tool_call event ids to tool_use ids, later rows winning |
| Adapters.BuildContext | src/tename/harness/adapters/vanilla.py:46-162 | the loop computes `Context`, the function all results about the fold are stated on |
| Adapters.ContextIgnoresNoise | src/tename/harness/adapters/deep_agents.py:204-226 | for every log, erasing deltas, harness events, errors and sandbox records leaves the messages unchanged |
| Rounds.ContextLength | src/tename/harness/adapters/vanilla.py:91-162 | on a complete conversation the fold renders each item, less exactly one message for each turn that starts while a closer's text is pending |
| Rounds.ContextIsRender | src/tename/harness/adapters/deep_agents.py:207-226 | `build_context(flatten(rounds)) == concat(render(round))` exactly when no turn that only speaks is followed by another turn |
| Rounds.SpokenTwice | src/tename/harness/adapters/vanilla.py:111-118 | the text of the first of two consecutive closers is in no message |
| Rounds.RenderAllPaired | src/tename/harness/adapters/deep_agents.py:15-19 | rendered conversations are validly paired, ids and order included |
| Pairing.ViewIsPaired | src/tename/harness/adapters/vanilla.py:60-162 | for every complete conversation and every set of dropped sequences, what is left folds into validly paired messages exactly when no kept call lost its result |
| Pairing.RecordsAreComplete | src/tename/harness/adapters/deep_agents.py:215-220 | every recorded conversation has the call, closer, result order that pairing under views needs |
| Pairing.RequestIsValid | src/tename/harness/service.py:141-160 | the fold of any complete log is validly paired, and if the model is to speak next a user or tool message is last but for system prompts |
| Shown.ContextShows | src/tename/harness/adapters/vanilla.py:46-162 | without two turns in a row of which the first only spoke, the messages of a complete conversation are the only ones that show it: every text, tool id, name, input, answer and error flag as its event stores it, in order |
| Shown.NothingIsInvented | src/tename/harness/adapters/vanilla.py:91-162 | for every log, each prompt, user message, text, tool_use and tool_result says what an event of its kind says, and a tool_result stands under the id of the call its event names |
| Compaction.EstimateEventTokens | src/tename/harness/compaction.py:38-49 | the number of tokens is at least 1, at most a quarter of the characters if above 1, and that quarter rounded down |
| Compaction.TokensAreAnEstimate | src/tename/harness/compaction.py:38-49 | those bounds determine the estimate |
| Compaction.ApplyCompactionView | src/tename/harness/compaction.py:56-72 | the log without the events the latest record drops |
| Compaction.FindFirstUser | src/tename/harness/compaction.py:117-121 | the sequence of the first user message, or none |
| Compaction.PlanTruncate | src/tename/harness/compaction.py:103-148 | the index-set loops compute `Plan` |
| Compaction.RecordDrops | src/tename/harness/compaction.py:85-93 | the payload of a decision is read back as a record that drops exactly the decision's sequences; it lists those kept, in order, and both estimates |
| Compaction.PlanSplits | src/tename/harness/compaction.py:115-148 | kept and dropped are an ordered partition of the view, an event being dropped exactly when it is old, no record and not the anchor |
| Compaction.PlanBounds | src/tename/harness/compaction.py:38-148 | at most keep_last_n + 1 + records events are kept; the estimates are those of the view and of what is kept, and the second is not larger |
| Compaction.NoPlan | src/tename/harness/compaction.py:124-140 | there is no decision exactly when every event is protected or recent |
| CompactionStack.AnchorAndRecordsStay | src/tename/harness/compaction.py:56-72 | in any log written by the loop the first user message and every record are in the active view |
| CompactionStack.RecordKeepsAnchored | src/tename/harness/service.py:482-506 | recording a decision planned on what a bounded read saw keeps that invariant, whatever records came before |
| CompactionStack.PlainKeepsAnchored | src/tename/harness/service.py:128-175 | so do all other events |
| CompactionStack.ContextHasUser | src/tename/harness/service.py:145-151 | the harness finds a user turn exactly when the view holds a user message with text |
| CompactionStack.UserTurnStays | src/tename/harness/service.py:145-151 | through any stack of compactions, if the first user message has text, a user turn is found |
| CompactionStack.UserTurnAfterRecord | src/tename/harness/compaction.py:115-148 | for every decision, a user turn is found after its record exactly when a message with text is hidden from the planner, is its anchor, or is among its last keep_last_n events |
| CompactionStack.SilentAnchorLosesUserTurn | src/tename/harness/compaction.py:115-135 | a decision of the planner after which no user turn is found although the log holds one |
| CompactionStack.ViewAfterRecord | src/tename/harness/compaction.py:70-72 | the view of log + new record is exactly kept + record if and only if the planner saw the whole log |
| CompactionStack.CutIsPairingSafe | src/tename/harness/compaction.py:115-138 | first user message plus any suffix of a complete conversation is validly paired, wherever the cut falls |
| CompactionStack.PlannedIsPaired | src/tename/harness/compaction.py:56-148 | until the next compaction, the context after a record is validly paired exactly when the planner dropped no result already orphaned in its view |
| CompactionStack.FirstCompactionIsPaired | src/tename/harness/compaction.py:103-148 | the first compaction of a complete conversation never breaks pairing |
| CompactionStack.TwoCompactionsBreakPairing | src/tename/harness/compaction.py:63-72 | two decisions of the planner, one planned after the other was recorded, after which the active view of a complete log is not validly paired |
| SessionProtocol.StepKeepsInv | src/tename/sessions/service.py:269-306 | every step of every transaction keeps sessions dense, ids unique, locks exclusive and promised sequences current |
| SessionProtocol.RunKeepsInv | src/tename/sessions/store.py:156-234 | so does every run |
| SessionGuarantees.CommittedStateIsSound | src/tename/sessions/service.py:269-306 | under every interleaving, committed sequences are exactly 1..last_sequence, ids are unique, and no emit meets a unique violation |
| SessionGuarantees.LogOnlyGrows | src/tename/sessions/store.py:199-234 | earlier rows never change and new ones come after them |
| SessionGuarantees.AtMostOneAfterEnd | src/tename/sessions/store.py:139-153 | once a session is terminal its status stays, and at most one more event is committed, the one promised by the single transaction that had seen it active; `EverySoloCompletionHasEffect` says that completions make it terminal |
| SessionGuarantees.NewIdsAreRejected | src/tename/sessions/service.py:280-288 | an emit of an id neither logged nor promised when the session ends is never acknowledged |
| SessionGuarantees.SameIdSameEvent | src/tename/sessions/service.py:272-278 | two acknowledged emits of one id returned the same event, which is in the log once |
| SessionGuarantees.ReplayReturnsLoggedEvent | src/tename/sessions/service.py:272-278 | at any time, concurrent or after completion, emitting a logged id returns the logged event, is refused for its payload or rolled back |
| SessionGuarantees.StepReplays | src/tename/sessions/store.py:169-177 | and its commit changes no session |
| SessionGuarantees.NeverDeadlocked | src/tename/sessions/store.py:139-166 | while a transaction is unfinished some transaction can take its next step without a rollback |
| SessionGuarantees.EverySoloRunHasEffect | src/tename/sessions/service.py:228-312 | every run in which an emit takes all the steps, none a rollback, and comes to its end has exactly the effect `EmitAlone` describes, errors included, and touches no other session |
| SessionGuarantees.AloneHasEffect | src/tename/sessions/service.py:228-312 | when no other transaction is unfinished there is such a run |
| SessionGuarantees.EverySoloCompletionHasEffect | src/tename/sessions/store.py:139-153 | every run in which a completion takes all the steps, none a rollback, and comes to its end completes an active session and leaves its log, returns the status of a terminal one, and fails on a missing one; no other session changes |
| SessionGuarantees.CompletionHasEffect | src/tename/sessions/service.py:182-197 | with nobody else writing the session's row there is such a run |
| SessionGuarantees.EmitAnswers | src/tename/sessions/service.py:228-312 | from any reachable state without a transaction under way, any emit can be made and has its effect |
| SessionGuarantees.SessionsLive | src/tename/sessions/service.py:100-312 | a session can be created, takes its first event under sequence 1, and can then be completed, which keeps the event |
| SessionGuarantees.CommittedStateIsAcknowledged | src/tename/sessions/service.py:228-312 | over every run, whatever is refused or rolled back, each new row is the event of an emit that was acknowledged with it, a session created starts active and empty, and one ends only by a completion that returned |
| SessionReads.PageIsTheAnswer | src/tename/sessions/store.py:237-268 | on a dense log the query, whatever the physical row order, has exactly one answer |
| SessionReads.GetEvents | src/tename/sessions/service.py:314-366 | bad bounds raise, the limit is capped, and the result is that answer |
| SessionReads.CommittedReadsAreSnapshots | src/tename/sdk/sessions.py:97-119 | in any run, successive reads see dense logs that extend each other |
| SessionReads.PageIsRange | src/tename/sessions/service.py:336-353 | a page is all matching events up to its last one, and a short page leaves nothing behind |
| SessionReads.PagesAreTheRange | src/tename/sessions/store.py:252-268 | with any limit and filter, restarting after the last event, the pages concatenate to the filtered range while writers append |
| SessionReads.PollerKeepsUp | src/tename/sdk/sessions.py:102-119 | a poller that never falls more than 1000 events behind stands at the end of the log after each poll |
| SessionReads.StreamEvents | src/tename/sdk/sessions.py:97-119 | exactly last+1, last+2, ... are yielded; with the final drain, all of the log exactly when at most 1000 were outstanding; without it exactly when the harness raises during a wait before it is done |
| SessionReads.Send | src/tename/sdk/sessions.py:64-95 | exactly what came after the call is yielded if and only if neither read was cut off at 1000 events; when the harness raises during a wait, what was read until then |
| CreateSession.OneSessionPerRequest | src/tename/sessions/service.py:121-160 | concurrent calls for one request_id, as the argument or as the metadata's own string, commit at most one session, whose index entry is that id, and all that return return it |
| CreateSession.BegunCall | src/tename/sessions/service.py:368-395 | a call runs under its argument if it has one, else under what its metadata holds |
| CreateSession.RefusedExactlyWhen | src/tename/sessions/service.py:383-391 | a call is refused exactly when its metadata holds a request_id other than null that is not its argument |
| CreateSession.SessionsHaveTheirCall | src/tename/sessions/service.py:135-166 | each new session was made by one call, for the existing agent that call named and under its request_id, and that call returned it; a call that fails makes none |
| CreateSession.OwnSessionOtherwise | src/tename/sessions/service.py:122-166 | a call without a string request_id returns a session of its own or none |
| CreateSession.EverySoloCallConcludes | src/tename/sessions/service.py:121-166 | uninterrupted, a call returns the session its string request_id already has, else makes one if the agent exists and the index has no such entry, else raises |
| CreateSession.AloneReturns | src/tename/sessions/service.py:121-166 | with nobody in its way a call comes to such an end |
| CreateSession.RereadFindsWinner | src/tename/sessions/service.py:140-157 | the loser of the insert race always finds the winner |
| CreateSession.WhyItFails | src/tename/sessions/service.py:158-160 | the RuntimeError means a missing agent, or an index entry taken under a request_id that is not a string |
| CreateSession.FailsExactlyWhen | src/tename/sessions/service.py:122-160 | a call that reaches the insert and is not aborted, and whose agent exists or whose request_id is not a string, fails exactly when that id is not a string and its agent is missing or its index entry taken |
| CreateSession.RepeatFails | src/tename/sessions/service.py:122-160 | once the entry of a request_id that is not a string is taken, every call that inserts with it fails |
| CreateSession.NonStringRequestFails | src/tename/sessions/service.py:122-143 | a run in which such a request_id fails although its agent exists |
| SessionStore.SessionService.EmitEvent | src/tename/sessions/service.py:228-312 | the protocol's effect on the log, with a connection lost before or after the commit |
| SessionStore.SessionService.GetEvents | src/tename/sessions/service.py:314-366 | the first thousand events |
| SessionStore.SessionService.Wake | src/tename/sessions/service.py:199-226 | raises exactly on a lost connection or a terminal session |
| SessionStore.SessionService.MarkComplete | src/tename/sessions/service.py:182-197 | the protocol's effect on the status, with a connection lost before or after the commit |
| SandboxService.Sandbox.Provision | src/tename/sandbox/service.py:37-52 | a sandbox handed out is ready |
| SandboxService.Sandbox.Execute | src/tename/sandbox/service.py:54-75 | raises InvalidTransitionError exactly when the table forbids running; otherwise idle afterwards, or in error after an exception or a timeout |
| SandboxService.Sandbox.Destroy | src/tename/sandbox/service.py:77-86 | never meets a forbidden transition, and a backend exception leaves the state |
| SandboxService.Sandbox.Lookup | src/tename/sandbox/service.py:88-104 | the tracked state unless it is unknown or the backend says destroyed or error |
| SandboxService.LiveCanExecute | src/tename/sandbox/state_machine.py:25-40 | a sandbox reported live can be executed in |
| SandboxService.ReusedExactlyWhenExecutable | src/tename/harness/service.py:435-438 | the states in which a recorded sandbox is used again are exactly those from which the table lets it run |
| SandboxService.TableIs | src/tename/sandbox/state_machine.py:25-40 | provisioned, then ready, then running and idle in turn; error from any state before error or destroyed, destroyed from any other |
| SandboxService.MentionsSomewhere | src/tename/sandbox/service.py:69-74 | a timeout is an error text with the word at any position, in whichever case |
| SandboxService.StatusBypassesTable | src/tename/sandbox/service.py:96-104 | `status` moves along the table exactly unless a destroyed sandbox is reported in error |
| Lifecycle.FindLatestSandbox | src/tename/harness/service.py:562-572 | the id in the last usable sandbox record |
| Lifecycle.LatestIs | src/tename/harness/service.py:562-572 | it is the id of a sandbox record that is text and not empty, and no later record has such an id; without one there is none |
| Lifecycle.RecordsBoundedByLosses | src/tename/harness/service.py:430-467 | if every replaced sandbox was lost, records number at most 1 + losses |
| Turns.RoundErases | src/tename/harness/service.py:213-325 | a round of the run grammar that did not fail reads as one turn of a conversation |
| Turns.SendAwaits | src/tename/sdk/sessions.py:74-82 | after `send`, whatever complete log there was, the log is complete and the model is to speak next |
| Turns.ChunkIsLogged | src/tename/harness/adapters/vanilla.py:164-190 | text, finished tool calls and errors become events with exactly their fields, and other chunks none |
| Turns.LoggedSays | src/tename/harness/service.py:224-253 | the events of a stream have its concatenated text and one tool_call for each of its calls, in order, with id, name and input |
| HarnessSteps.TurnsWithText | src/tename/harness/service.py:255-265 | the consolidated message carries the concatenated deltas and the last usage, and the calls' result ids are unused |
| HarnessSteps.SandboxPayload | src/tename/harness/service.py:345-388 | a tool_result payload that answers the call and quotes the sandbox's result, or is an error with a text that says whether provisioning or executing failed and why |
| HarnessSteps.OtherPayload | src/tename/harness/service.py:406-413 | a tool_result payload that quotes the proxy's result, or is an error that says why the tool cannot run |
| HarnessSteps.StubErrorsDiffer | src/tename/harness/service.py:529-559 | that error names the tool and tells a missing sandbox, a missing proxy and an unknown tool apart |
| HarnessSteps.AnswerStep | src/tename/harness/service.py:294-325 | one more call answered keeps one result a call, in call order, sandbox records apart |
| Harness.HarnessRuntime.SeedSystemPromptIfNeeded | src/tename/harness/service.py:192-211 | the prompt is appended once, and a replay appends nothing |
| Harness.HarnessRuntime.EmitChunk | src/tename/harness/service.py:238-247 | one chunk is skipped exactly when it is no text, finished tool call or error; else its event holds the text, or the id, name and input, or the message, retryable flag and status |
| Harness.HarnessRuntime.TakeChunk | src/tename/harness/service.py:230-253 | the events and the locals of the turn stay in step |
| Harness.HarnessRuntime.ReadStream | src/tename/harness/service.py:224-253 | the events written are those of the chunks up to the first error, or of all chunks |
| Harness.HarnessRuntime.Consolidate | src/tename/harness/service.py:255-265 | the consolidated message is appended with the joined text and the last usage |
| Harness.HarnessRuntime.RunTurn | src/tename/harness/service.py:213-277 | a turn that returns logged what its chunks said, in order, then the closer if and only if there was text and no error, with the whole text and the last usage |
| Harness.HarnessRuntime.ProvisionSandbox | src/tename/harness/service.py:447-468 | a new sandbox is tracked for destruction before its record is emitted |
| Harness.HarnessRuntime.LiveSandbox | src/tename/harness/service.py:432-446 | the recorded sandbox is used while it is reported live, and counts as lost exactly when it is reported otherwise |
| Harness.HarnessRuntime.GetOrProvisionSandbox | src/tename/harness/service.py:415-468 | returns a sandbox that can be executed in; a recorded one is replaced only when reported not live; which sandbox it is, or that it raises, unless a call of the session service raised |
| Harness.HarnessRuntime.ExecuteIn | src/tename/harness/service.py:358-377 | the tool runs once, with its own name and input, in that sandbox |
| Harness.HarnessRuntime.RunInSandbox | src/tename/harness/service.py:339-377 | at most one execution, with the tool's own name and input, in the sandbox obtained, which is the one it should get unless a call of the session service raised |
| Harness.HarnessRuntime.RunSandboxTool | src/tename/harness/service.py:327-388 | the payload quotes the sandbox's own reply, or is an error with the text of what failed; the tool runs exactly once if there is a sandbox |
| Harness.HarnessRuntime.DispatchTool | src/tename/harness/service.py:295-318 | a sandbox tool runs once with the name and input stored in the call's payload, any other tool in no sandbox, and the payload says what the tool, and no other, replied |
| Harness.HarnessRuntime.AnswerCall | src/tename/harness/service.py:301-325 | the result is appended under the id derived from the call |
| Harness.HarnessRuntime.ExecuteToolCalls | src/tename/harness/service.py:279-325 | returning means exactly one result a call, in call order, among sandbox records only, each an error or a quote of what that call's own tool answered |
| HarnessSteps.ServedMore | src/tename/harness/service.py:294-325 | after the answers to the calls before it, one more answered call adds one result, honest about its own tool, at most one sandbox record before it, and the sandboxes it used |
| Harness.HarnessRuntime.AnswerTurn | src/tename/harness/service.py:162-175 | once its calls are answered a completion is a round of the grammar, and the loop goes on |
| Harness.HarnessRuntime.DestroySandboxes | src/tename/harness/service.py:470-480 | every provisioned sandbox is passed to destroy exactly once, whatever destroying raises |
| Harness.HarnessRuntime.ShouldCompact | src/tename/harness/compaction.py:96-100 | due exactly at or above the threshold |
| Harness.HarnessRuntime.EmitCompaction | src/tename/harness/service.py:482-506 | the record appended is what the planner decided on what was read |
| Harness.HarnessRuntime.ReadContext | src/tename/harness/service.py:135-142 | compacts exactly when due and something is to be dropped, and folds the active view of what is read then |
| Harness.HarnessRuntime.Iterate | src/tename/harness/service.py:128-175 | one pass writes at most a record and one round, asks with the fold of the active view, and stops for the reason it gives |
| Harness.HarnessRuntime.Loop | src/tename/harness/service.py:122-178 | all passes: requests, grammar, stop reason, anchor and sandbox use |
| Harness.HarnessRuntime.RunLoop | src/tename/harness/service.py:119-180 | for a run that starts from any log: with text in the first user message it never ends with `no_user_turn`, and sandbox records number at most 1 + losses |
| Harness.HarnessRuntime.Begin | src/tename/harness/service.py:105-125 | the loop starts from the log, with the prompt appended at most once and no sandbox provisioned; an exception before it is a call of the session service or the configuration |
| Harness.HarnessRuntime.Close | src/tename/harness/service.py:179-182 | on every path what was used is destroyed exactly once, and only a run that did not raise is marked complete |
| Harness.HarnessRuntime.RunSession | src/tename/harness/service.py:96-186 | the whole run: rounds in the grammar, each saying what its chunks said, each result that of the tool its chunk named; one request a round, at most max_turns, each the fold of what was read just before; valid requests on any complete log, the anchor and the records, each used sandbox destroyed once and used only for what a tool_call in the log asks, records at most 1 + losses; raising means that a call of the session service raised, the configuration is missing, or the stream answering the last request raised |
| Runs.RequestIsOk | src/tename/harness/service.py:135-160 | a request on any complete log is paired exactly when no call lost its result, and always without compaction and within 1000 events |
| Runs.RoundIsShown | src/tename/harness/adapters/vanilla.py:91-190 | of a round that did not fail the model is shown the text of its chunks and exactly their tool calls, each with id, name and input, and for each the reply of the tool named, or an error |
| Runs.ReadIsPaired | src/tename/sessions/service.py:58-58 | for logs of any length, exactly when the bounded, compacted read folds into validly paired messages |
| Runs.SingleIsPaired | src/tename/harness/compaction.py:103-148 | a log with one record, planned on the log before it, is still validly paired |
| Runs.UserTurnIsFound | src/tename/harness/service.py:145-151 | with text in the first user message, every bounded read finds a user turn, whatever was compacted |
| Runs.PassGoesOn | src/tename/harness/service.py:128-175 | a pass that goes on keeps all the invariants of the run |
| Runs.PassStops | src/tename/harness/service.py:145-168 | a pass that stops ends the run as its reason says |
| Runs.PassDone | src/tename/harness/service.py:128-178 | however a pass ends, the run goes on, has come to its end, or is safe where the exception leaves it |
| Runs.RecordsAreBounded | src/tename/harness/service.py:415-468 | over a run within 1000 events, sandbox records number at most 1 + sandboxes found lost |
| Anthropic.OpenMeaning | src/tename/router/providers/anthropic.py:102-136 | the block open at an index is the latest tool_use start there without a stop since |
| Anthropic.EveryToolEnd | src/tename/router/providers/anthropic.py:118-136 | each tool_call_end carries id and name of the start and the parse of exactly the input deltas at its index since, for any interleaving |
| Anthropic.EveryStopEnds | src/tename/router/providers/anthropic.py:127-136 | each stop of an open block gives exactly one tool_call_end, between the chunks of earlier and later events, and any other stop none |
| Anthropic.OutputIsDetermined | src/tename/router/providers/anthropic.py:84-136 | which events are heard, as which chunk and in which order leaves exactly one output |
| Anthropic.CountMeaning | src/tename/router/providers/anthropic.py:86-144 | input is the largest count reported since message start, output and cached the latest |
| Anthropic.Demultiplex | src/tename/router/providers/anthropic.py:95-136 | each event gives its one chunk or none: text, a tool start, and a delta or stop of an open block, whichever the dictionary holds |
| Anthropic.Stream | src/tename/router/providers/anthropic.py:84-172 | the whole stream: one chunk for each event that is to be heard, in order, then usage and done, or one error, or the foreign exception |
| Anthropic.ClosesOnce | src/tename/router/providers/anthropic.py:159-172 | it ends in exactly [usage, done] or [error], with no such chunk before |
| Anthropic.OpenStreamWithRetry | src/tename/router/providers/anthropic.py:174-225 | between 1 and max_retries + 1 attempts, none after a status below 500, sleeps only between attempts, and exhaustion only with a retryable failure |
| Anthropic.BackoffClosedForm | src/tename/router/providers/anthropic.py:211-217 | the total delay is the geometric sum |
| Anthropic.SplitSystem | src/tename/router/providers/anthropic.py:296-313 | system texts in order, everything else in order with tool messages as the user's |
| Anthropic.EverythingIsSent | src/tename/router/providers/anthropic.py:296-357 | each system message is sent as its text and each other message as one wire message with its role, all its text and blocks, `is_error` only where true |
| Anthropic.WireIsPaired | src/tename/router/providers/anthropic.py:296-313 | validly paired messages stay so on the wire, and the request ends with a user message |
| Profiles.DeepMerge | src/tename/harness/profiles.py:251-260 | the key-by-key loop, in any order of items, computes `Merge` |
| Profiles.NearestDefinition | src/tename/harness/profiles.py:251-260 | a leaf of the merge is the child's, or the parent's where the child says nothing on the way, and nothing else |
| Profiles.EmptyIsIdentity | src/tename/harness/profiles.py:251-260 | merging with an empty mapping on either side changes nothing |
| Profiles.MergeIsIdempotent | src/tename/harness/profiles.py:251-260 | merging a mapping with itself changes nothing |
| Profiles.AssociativeExactlyWhen | src/tename/harness/profiles.py:251-260 | the merge is associative exactly when no plain middle value hides a mapping that adds something |
| Profiles.AddsNothing | src/tename/harness/profiles.py:251-260 | merging leaves the child as it is exactly when it has every key of the parent, recursively where both are mappings |
| Profiles.AssociativeOnSameShape | src/tename/harness/profiles.py:251-260 | it is associative on trees that agree on which paths are mappings |
| Profiles.ResolveProfile | src/tename/harness/profiles.py:182-200 | terminates, reads at most 16 profiles and computes `Resolve` |
| Profiles.ResolveExactly | src/tename/harness/profiles.py:182-200 | succeeds exactly on acyclic readable chains of at most 16, with the merge from root to leaf; each error exactly for its cause |
| Profiles.LeavesComeFromTheChain | src/tename/harness/profiles.py:182-260 | each leaf of a resolved profile is that of the first profile on the way to the root that says anything there, as it was read, and `extends` is gone |

## Left out

- SQL, engines, connection pools and migrations: tables are state with their unique constraints and locks; tenants are one tenant, and timestamps are not kept.
- Harness.HarnessRuntime.RunSession: the bound on sandbox records is for logs of at most 1000 events and a backend whose ids are not empty: a read does not see later records, and a record with an empty id is skipped, so another sandbox would be provisioned.
- Task cancellation, and the SDK's cancelling of the harness task: no call of the model is cut short from outside.
- `update_session_status` and the benchmarks' reactivation of sessions: nothing in the services calls them.
- Harness.HarnessRuntime.RunSession: its session has no other writer, and its session service is the sequential `SessionStore.SessionService`; a run killed in the middle of a turn leaves calls without results, and nothing is then said about pairing.
- Harness.HarnessRuntime.RunSession: `get_agent`, profile loading and adapter lookup are one flag, and the text of exceptions is a parameter.
- Harness.HarnessRuntime.ReadStream: validating a usage chunk and printing a chunk's text never raise.
- Harness.HarnessRuntime.RunSandboxTool: which sandbox it executes in is stated for calls during which no call of the session service raised; otherwise the payload is an error or quotes the sandbox's own result.
- Compaction.ApplyCompactionView: `dropped_sequences` that is neither a list nor missing is read as empty, where the source would raise or iterate over it; the harness only writes lists.
- Anthropic.OpenStreamWithRetry: real arithmetic instead of floating point.
- SessionReads.StreamEvents: the poller's timer is a bound on the number of polls; the pages themselves are not timed.
- Profiles.ResolveProfile: YAML keys are strings, and validating the merged profile is not part of this model.
- Harness.HarnessRuntime.DispatchTool: what a tool proxy is asked is not recorded, only what it replied.
- Docker, sandbox tools, vault, tool proxy internals, registries, pricing, CLI, configuration and logging are not part of this model.
- Prompt caching and `_build_request` beyond `_split_system`: short branches.
