# Multi-agent discussion arena: the session engine and the Anthropic tool-use runner

This Dafny project models the core of a server that runs a discussion between several AI agents. It has three parts.

**The session engine (`OrchestrationEngine`).**
- It keeps an append-only transcript, a FIFO queue of "god mode" prompts from the director, a round-robin turn index and a running flag.
- Each iteration of its loop drains at most one director prompt. It then gives the floor to the agent at `currentTurnIndex % agents.length`.
- It appends either that agent's reply (advancing the index) or an error notice (leaving the index alone).

**The Anthropic agent runner (`AnthropicAgentRunner`).** A bounded tool-use loop around the provider call, together with:
- tool execution that turns an unknown tool or a thrown error into an error result;
- the model-name table;
- the flattening of a transcript into one user message.

**The scenario catalogue (`GAME_MODES`, `getScenarioById`)** of the front end.

Modules, one file each:

- `Util` (`util.dfy`): holds the shared pieces.
  - `Option` stands for `undefined`.
  - JavaScript's `a || b` and template-literal interpolation of a possibly undefined value.
  - ASCII `toLowerCase`, `startsWith`, `includes`, and `Array.prototype.join`.
- `Agents` (`agents.dfy`): the agent configuration record.
- `Orchestration` (`orchestration.dfy`):
  - `Engine` is a class with the engine's fields, held as sequences.
  - `Iteration` and `RunLoop` are the pure specification of one loop iteration and of a bounded run, written over `Session` values.
  - Each `Engine` method is proved to follow that specification.
  - The network call of a turn is replaced by one `ProviderOutcome` per iteration, `Success(text)` or `Failure`. The loop runs over a sequence of them.
  - Broadcasts are recorded in an `outbox` field.
- `AnthropicAgent` (`anthropic_agent.dfy`):
  - The runner's loop is `Run`/`RunLoop`, with the inner `for` loop as `RunTools`. The methods are proved against the recursive specification `Loop`.
  - The provider is a total function from the request to its response. Every request of one run has a strictly longer message list, so any sequence of answers can be expressed this way.
  - A tool's `execute` is a function from its input to a returned value or a thrown error.
- `ModelNames` (`model_names.dfy`): `getModelId` and `isAnthropicModel`.
- `Scenarios` (`scenarios.dfy`): the three game modes, with their full text, and the lookup by id.

## Behaviour of the code

A few behaviours of the code are easy to miss. The model states them as written.

- **A failed turn does not advance the turn index.** `currentTurnIndex++` sits inside the `try` block after a successful reply, so a failing agent is asked again in the next iteration. `RunAdvances` and `RunRoundRobin` state the round robin as written. `UnsupportedProviderRetried` shows the consequence: an agent with an unsupported provider tag is asked forever and nobody else speaks. The 500 ms pause follows only a successful turn, so such a failing loop awaits only promises that are already rejected and never yields to the event loop; a `stop` request then cannot be handled either.
- **`start` is not idempotent.** A `start` on an engine that is not inside a loop resets the index, appends the two system entries and runs the loop. `Engine.Start` states this for a call that runs to its end before the next call arrives. The server calls `start()` without `await`. So a second `start` that arrives while the first loop is awaiting a provider or its pause opens a second loop over the same transcript, index and queue. The model does not capture that (see "Left out").
- **History window.** The code keeps the last 20 non-system entries (`HistoryWindow`).
- **No agents.** With an empty agent list, the code reads `agents[NaN]`, which is `undefined`. The `TypeError` that `getAgentResponse` raises on `agent.provider` is caught. Inside the `catch` block, `console.error` reads `agent.name` and raises a second `TypeError`, and that one escapes. So the loop ends with a rejected promise after that iteration's director prompt has been drained. The model records this as an `Aborted` turn that ends the run.
- **Error entries are not broadcast.** Only director prompts and agent replies are sent to observers.

## Model

| member | source | states |
|---|---|---|
| Orchestration.Engine.constructor | backend/src/orchestration.js:2-11 | the engine starts with an empty transcript and queue, index 0, not running |
| Orchestration.Engine.Start | backend/src/orchestration.js:13-32 | the loop runs from the opened state: running, index 0, the two system entries `Scenario: <scenario>` and the initial prompt appended |
| Orchestration.Opened | backend/src/orchestration.js:13-28 | what `start` does before the loop: running set, index reset, exactly two system entries appended, queue and broadcasts unchanged |
| Orchestration.Engine.Stop | backend/src/orchestration.js:34-36 | only the running flag changes, and it becomes false |
| Orchestration.Engine.Step | backend/src/orchestration.js:40-85 | one loop iteration on the engine's fields, equal to the specification `Iteration` |
| Orchestration.Engine.OrchestrationLoop | backend/src/orchestration.js:38-87 | the loop's final state and turns are those of the specification `RunLoop` for the given outcomes |
| Orchestration.Engine.AddMessageToTranscript | backend/src/orchestration.js:177-179 | the entry is appended and nothing else changes |
| Orchestration.Engine.InjectGodModePrompt | backend/src/orchestration.js:181-183 | the prompt goes to the back of the queue and nothing else changes |
| Orchestration.Engine.GetTranscript | backend/src/orchestration.js:185-187 | returns the transcript |
| Orchestration.SystemEntry | backend/src/orchestration.js:18-28 | an entry with sender `system`, no name or color, and the given text; stated by `Opened` and `HistoryIgnoresSystem` |
| Orchestration.DirectorEntry | backend/src/orchestration.js:43-47 | an entry with sender `god`, no name or color, and the prompt as content; stated by `DrainKeepsDirectives` and `HistoryEndsWithDirector` |
| Orchestration.AgentEntry | backend/src/orchestration.js:60-66 | an entry with the agent's id as sender, its name and color, and the reply as content; stated by `IterationOrder` and `RecordBroadcasts` |
| Orchestration.ErrorEntry | backend/src/orchestration.js:80-84 | the system entry `[Error: <agent name> failed to respond]`; stated by `IterationOrder` and `RecordBroadcasts` |
| Orchestration.DrainDirector | backend/src/orchestration.js:41-52 | the director step; stated by `DrainKeepsDirectives`, `DrainBroadcasts` and `IterationOrder` |
| Orchestration.TurnEntry | backend/src/orchestration.js:60-84 | the entry a turn appends; stated by `IterationOrder` and `RecordBroadcasts` |
| Orchestration.RunLoop | backend/src/orchestration.js:38-87 | the run specification; stated by `RunExtendsTranscript`, `RunKeepsDirectives`, `RunAdvances`, `RunRoundRobin` and `RunBroadcasts` |
| Orchestration.TakeTurn | backend/src/orchestration.js:54-85 | the speaker is `agents[turnIndex % n]`; the turn succeeds iff the provider tag is supported and the call returned text; no agents aborts the loop |
| Orchestration.Record | backend/src/orchestration.js:58-85 | recording a turn leaves the queue and the running flag alone |
| Orchestration.Iteration | backend/src/orchestration.js:40-85 | an iteration never changes the running flag |
| Orchestration.IterationOrder | backend/src/orchestration.js:41-85 | the old transcript is a prefix; a queued prompt is removed from the head and appended as a `god` entry before the turn's own entry; exactly one entry per non-aborted turn |
| Orchestration.IterationAdvance | backend/src/orchestration.js:55-85 | the index grows by one exactly on success; the speaker is the agent at the index modulo the number of agents |
| Orchestration.IterationShowsDirector | backend/src/orchestration.js:41-58 | a prompt drained in an iteration is the last message of the history that iteration's provider call carries, as a user message `god: <prompt>`, both when the call answers and when it throws |
| Orchestration.RunExtendsTranscript | backend/src/orchestration.js:177-179 | a run of the loop only ever appends to the transcript |
| Orchestration.RunKeepsDirectives | backend/src/orchestration.js:41-52 | director prompts are neither lost nor reordered: the prompts in the transcript followed by those still queued are unchanged by any run |
| Orchestration.DrainKeepsDirectives | backend/src/orchestration.js:41-47 | draining moves the queue head to the end of the transcript's prompts |
| Orchestration.RecordKeepsDirectives | backend/src/orchestration.js:58-85 | an agent's turn adds no director prompt |
| Orchestration.IterationKeepsDirectives | backend/src/orchestration.js:40-85 | one iteration keeps the prompts of transcript plus queue |
| Orchestration.RunAdvances | backend/src/orchestration.js:74 | after a run the index has grown by the number of successful turns only |
| Orchestration.RunRoundRobin | backend/src/orchestration.js:55-74 | each turn of a run goes to the agent at the current index modulo the number of agents, and only a successful turn advances the index |
| Orchestration.RoundRobinIndexed | backend/src/orchestration.js:55-74 | in such a run, turn k belongs to the agent at `turnIndex + (successful turns before k)` modulo the number of agents |
| Orchestration.RunRoundRobinIndexed | backend/src/orchestration.js:55-74 | turn k of any run belongs to the agent at `turnIndex + (successful turns before k)` modulo the number of agents |
| Orchestration.RoundRobinCons | backend/src/orchestration.js:55 | the indexed round-robin property extends by one leading turn |
| Orchestration.Successes | backend/src/orchestration.js:74 | the number of successful turns is at most the number of turns |
| Orchestration.SuccessesCons | backend/src/orchestration.js:74 | counting successes from the front |
| Orchestration.UnsupportedProviderRetried | backend/src/orchestration.js:78-102 | an agent whose provider tag is unsupported fails every iteration and keeps the floor |
| Orchestration.BroadcastsCompose | backend/src/orchestration.js:40-85 | two stages that each broadcast exactly the non-system entries they append together do the same |
| Orchestration.DrainBroadcasts | backend/src/orchestration.js:41-52 | a drained director entry is broadcast |
| Orchestration.RecordBroadcasts | backend/src/orchestration.js:58-85 | a reply is broadcast; an error notice is not |
| Orchestration.IterationBroadcasts | backend/src/orchestration.js:40-85 | one iteration broadcasts exactly its new non-system entries, in order |
| Orchestration.RunBroadcasts | backend/src/orchestration.js:48-72 | observers are sent exactly the non-system entries a run appends, in transcript order |
| Orchestration.RunLoopStep | backend/src/orchestration.js:39 | one iteration moves a turn from the rest of the run to the turns already taken |
| Orchestration.BuildConversationHistory | backend/src/orchestration.js:161-175 | the history a provider is shown; stated by `HistoryWindowed`, `HistoryIgnoresSystem` and `HistoryEndsWithDirector` |
| Orchestration.HistoryWindowed | backend/src/orchestration.js:161-175 | the history is the last min(20, n) non-system entries in order; role user exactly for `god` entries; content `<senderName or sender>: <content>` |
| Orchestration.HistoryIgnoresSystem | backend/src/orchestration.js:163 | a system entry never changes the history |
| Orchestration.HistoryEndsWithDirector | backend/src/orchestration.js:161-175 | a director entry just appended is the last history message, `god: <prompt>` |
| Orchestration.NonSystem | backend/src/orchestration.js:163 | the entries whose sender is not `system`, in order; stated by `NonSystemMembers`, `NonSystemSenders`, `NonSystemConcat` and `NonSystemSnoc` |
| Orchestration.ToChat | backend/src/orchestration.js:165-173 | role user for `god` and assistant for any other non-system sender, content `<senderName or sender>: <content>`; stated by `HistoryWindowed` and `HistoryEndsWithDirector` |
| Orchestration.NonSystemMembers | backend/src/orchestration.js:163 | the filter keeps exactly the entries whose sender is not `system` |
| Orchestration.NonSystemSenders | backend/src/orchestration.js:163 | the filtered list is no longer than the transcript and holds no system entry |
| Orchestration.NonSystemConcat | backend/src/orchestration.js:163 | filtering distributes over concatenation |
| Orchestration.NonSystemSnoc | backend/src/orchestration.js:163 | filtering one more entry |
| Orchestration.Block | backend/src/orchestration.js:194 | one entry as `[<senderName or sender>]: <content>`; stated by `Blocks` and `ExportTextSnoc` |
| Orchestration.Blocks | backend/src/orchestration.js:193-194 | one block `[<senderName or sender>]: <content>` per entry, in order |
| Orchestration.ExportTranscript | backend/src/orchestration.js:189-197 | an absent format or `json` gives the transcript; `txt` gives its text rendering; any other format yields no value |
| Orchestration.ExportText | backend/src/orchestration.js:193-195 | the text export; stated by `ExportTextSnoc` and `ExportTextGrows` |
| Orchestration.ExportTextSnoc | backend/src/orchestration.js:193-195 | one more entry appends a blank line and its block |
| Orchestration.ExportTextGrows | backend/src/orchestration.js:193-195 | the rendering of a transcript is a prefix of the rendering of any extension |
| Orchestration.ProviderFor | backend/src/orchestration.js:89-103 | the backend selection; stated by `ProviderDispatch` and `ProviderForIgnoresCase` |
| Orchestration.AgentRequest | backend/src/orchestration.js:89-92 | the selected backend with the agent, its system prompt and the history, or the dispatch error; used by `TakeTurn` and `IterationShowsDirector` |
| Orchestration.ProviderDispatch | backend/src/orchestration.js:89-103 | exactly `openai`, `anthropic`, `google` after lower-casing select a backend, each its own; anything else is `Unsupported provider: <lower-cased tag>` |
| Orchestration.ProviderForIgnoresCase | backend/src/orchestration.js:90 | dispatch does not depend on letter case |
| AnthropicAgent.NewRunner | backend/src/anthropic-agent.js:19-22 | absent toolbox is empty; absent or zero ceiling is 10, any other value is kept; the ceiling is never 0 |
| AnthropicAgent.ToAnthropicTool | backend/src/anthropic-agent.js:29-37 | one toolbox entry as a provider tool; stated by `GetAnthropicTools` |
| AnthropicAgent.GetAnthropicTools | backend/src/anthropic-agent.js:28-38 | one provider tool per entry, in order, named by its definition, schema type `object`, absent `required` is empty |
| AnthropicAgent.FindTool | backend/src/anthropic-agent.js:44 | a tool is found iff some entry has that key, and it is the tool stored under the first such entry |
| AnthropicAgent.ExecuteTool | backend/src/anthropic-agent.js:43-55 | an unknown name gives `Unknown tool: <name>`, a thrown error gives its `message` (absent when it has none), a return gives the result; never both |
| AnthropicAgent.Shown | backend/src/anthropic-agent.js:119 | `error \|\| result`: the error when it is truthy, else the result |
| AnthropicAgent.ToolUses | backend/src/anthropic-agent.js:97 | the `tool_use` filter; its properties are stated by `ToolUsesMembers`, `ToolUsesSingle` and `ToolUsesConcat` |
| AnthropicAgent.ToolUsesMembers | backend/src/anthropic-agent.js:97 | a call is among the tool uses iff its `tool_use` block is in the content |
| AnthropicAgent.ToolUsesSingle | backend/src/anthropic-agent.js:97 | one block gives its call if it is a `tool_use` block, and nothing otherwise |
| AnthropicAgent.ToolUsesConcat | backend/src/anthropic-agent.js:97 | the filter distributes over concatenation, so the calls keep the blocks' order and multiplicity |
| AnthropicAgent.FirstText | backend/src/anthropic-agent.js:88-91 | empty when there is no text block; otherwise the text of the first text block |
| AnthropicAgent.Loop | backend/src/anthropic-agent.js:70-155 | the loop specification; stated by `LoopBounded`, `LoopEnds`, `LoopMessages`, `RequestsGrow`, `LoopToolsUsed` and `LoopOneToolEach` |
| AnthropicAgent.ToolUseMessages | backend/src/anthropic-agent.js:100-103 | the assistant message with the response content, then the user message with the round's tool results, which a `tool_use` iteration pushes; stated by `LoopToolUseStep` and `LoopMessages` |
| AnthropicAgent.RunContext | backend/src/anthropic-agent.js:66-67 | the mapped model id, the system prompt, and the tools only when there is at least one; stated by `Run` and `LoopMessages` |
| AnthropicAgent.RunSpec | backend/src/anthropic-agent.js:65-155 | `run` as a value: the loop from the run's context with `max(0, maxIterations)` iterations; stated by `RunAtMostMaxIterations`, `RunAllToolUse`, `RunToolsUsed` and `RunOneToolEach` |
| AnthropicAgent.AnswerUses | backend/src/anthropic-agent.js:95-97 | the tool uses an answer asks for: its `tool_use` blocks when it stopped on `tool_use`, none otherwise; stated by `LoopToolsUsed` and `RunToolsUsed` |
| AnthropicAgent.AllUses | backend/src/anthropic-agent.js:73-97 | the tool uses of all of a run's answers, request by request; stated by `RoundsFlatten` and `RunToolsUsed` |
| AnthropicAgent.RoundRecords | backend/src/anthropic-agent.js:108-123 | the records each answer's tool round adds, request by request; stated by `LoopToolsUsed` and `RoundsFlatten` |
| AnthropicAgent.RoundEvents | backend/src/anthropic-agent.js:108-116 | the calls each answer's tool round makes, request by request; stated by `LoopToolsUsed` and `RoundsFlatten` |
| AnthropicAgent.LoopToolsUsed | backend/src/anthropic-agent.js:68-155 | after a whole run, `toolsUsed` holds each `tool_use` answer's records and the calls made are each such answer's calls, in request order, whether the run ends with a text or with the sentinel |
| AnthropicAgent.RoundsFlatten | backend/src/anthropic-agent.js:106-131 | gathering each answer's round in request order equals one round over all the tool uses asked for |
| AnthropicAgent.RunToolsUsed | backend/src/anthropic-agent.js:65-155 | `run` returns exactly one record per tool use asked for over all its iterations, in order, each with the use's name and input, `error \|\| result` and `!!error`; its calls are those of one round over the same uses |
| AnthropicAgent.ToolRoundConcat | backend/src/anthropic-agent.js:106-123 | the records of two lists of tool uses processed one after the other are those of their concatenation |
| AnthropicAgent.ToolRoundEventsConcat | backend/src/anthropic-agent.js:106-116 | the calls of two lists of tool uses processed one after the other are those of their concatenation |
| AnthropicAgent.ToolStep | backend/src/anthropic-agent.js:108-130 | one tool use; stated by `ToolRoundShape` and `ToolRoundAnnounced`/`ToolRoundSilent` |
| AnthropicAgent.ToolRound | backend/src/anthropic-agent.js:106-131 | one round of tool uses; stated by `ToolRoundShape`, `ToolRoundAnnounced`, `ToolRoundSilent` and `RunTools` |
| AnthropicAgent.Run | backend/src/anthropic-agent.js:65-156 | result, requests and calls of `run` equal the specification `RunSpec` |
| AnthropicAgent.RunLoop | backend/src/anthropic-agent.js:70-155 | the `while` loop equals `Loop` with `max(0, maxIterations)` iterations |
| AnthropicAgent.RunTools | backend/src/anthropic-agent.js:106-131 | the `for` loop appends the round's records and calls and returns its tool results |
| AnthropicAgent.LoopToolUseStep | backend/src/anthropic-agent.js:95-141 | a `tool_use` iteration adds its request, records and calls, and the next request carries the two new messages |
| AnthropicAgent.LoopStopStep | backend/src/anthropic-agent.js:86-93 | an answer other than `tool_use` ends the run with its first text and the records so far |
| AnthropicAgent.LoopOutOfFuel | backend/src/anthropic-agent.js:151-155 | no iteration left gives the sentinel with the records so far |
| AnthropicAgent.LoopBounded | backend/src/anthropic-agent.js:73-74 | at most `fuel` provider calls, and at least one iff `fuel > 0` |
| AnthropicAgent.RunAtMostMaxIterations | backend/src/anthropic-agent.js:73-74 | `run` makes at most `maxIterations` calls, none iff the ceiling is not positive |
| AnthropicAgent.LoopEnds | backend/src/anthropic-agent.js:73-155 | every call but the last got `tool_use`; a last answer of another kind gives its first text; otherwise all iterations were used and the text is the sentinel |
| AnthropicAgent.RunAllToolUse | backend/src/anthropic-agent.js:151-155 | if every answer is `tool_use`, exactly `maxIterations` calls and the sentinel text |
| AnthropicAgent.LoopMessages | backend/src/anthropic-agent.js:77-137 | every request has the run's model, 1024 tokens, system prompt and tools; the first has the caller's messages; each next one adds the assistant content and the user tool results |
| AnthropicAgent.RequestsGrow | backend/src/anthropic-agent.js:70-137 | request k carries the caller's messages followed by 2k more |
| AnthropicAgent.LoopOneToolEach | backend/src/anthropic-agent.js:108-123 | one tool use per answer gives one record per iteration |
| AnthropicAgent.RunOneToolEach | backend/src/anthropic-agent.js:108-155 | with one tool use per `tool_use` answer, `toolsUsed` has `maxIterations` records |
| AnthropicAgent.ToolRoundShape | backend/src/anthropic-agent.js:108-131 | one record and one tool result per tool use, in block order, each with the use's name, input, id, `error \|\| result` and `!!error` |
| AnthropicAgent.ToolRoundAnnounced | backend/src/anthropic-agent.js:108-114 | with the callback, each use is announced just before it is executed |
| AnthropicAgent.ToolRoundSilent | backend/src/anthropic-agent.js:108-114 | without the callback, each use is only executed, in order |
| AnthropicAgent.UnknownToolRecorded | backend/src/anthropic-agent.js:43-46 | an unknown tool is recorded as an error carrying `Unknown tool: <name>` |
| AnthropicAgent.ConvertToAnthropicMessages | backend/src/anthropic-agent.js:208-235 | at most one message; none iff the transcript is absent or has no agent turn or director instruction; else one user message with the joined lines between the fixed opening and closing |
| AnthropicAgent.HistoryLines | backend/src/anthropic-agent.js:214-222 | the lines the `for` loop pushes; stated by `HistoryLinesSingle`, `HistoryLinesConcat`, `HistoryLinesCount` and `HistoryLinesPrinted` |
| AnthropicAgent.HistoryLine | backend/src/anthropic-agent.js:217-221 | `<senderName>: <publicMessage>` for an agent turn and `[DIRECTOR INSTRUCTION]: <content>` for a director instruction, an absent field printing as `undefined`; stated by `HistoryLinesSingle` |
| AnthropicAgent.HistoryLinesPrinted | backend/src/anthropic-agent.js:216-222 | no line iff no entry is printed; every printed entry's line is present |
| AnthropicAgent.HistoryLinesSingle | backend/src/anthropic-agent.js:217-221 | one entry gives `<senderName>: <publicMessage>` for an agent turn, `[DIRECTOR INSTRUCTION]: <content>` for a director instruction, and nothing otherwise |
| AnthropicAgent.HistoryLinesConcat | backend/src/anthropic-agent.js:216-222 | the lines of a concatenation are the lines of its parts, in transcript order |
| AnthropicAgent.HistoryLinesCount | backend/src/anthropic-agent.js:216-222 | exactly one line per agent turn or director instruction |
| AnthropicAgent.NothingPrinted | backend/src/anthropic-agent.js:224-226 | no agent turn and no director instruction give no lines |
| ModelNames.ModelId | backend/src/anthropic-agent.js:161-189 | a dated id is returned unchanged; else a table key gives its value; else the default |
| ModelNames.IsDatedId | backend/src/anthropic-agent.js:184 | starts with `claude-` and contains `-202`; stated by `ModelId`, the `Dated` lemmas and `ModelIdIdempotent` |
| ModelNames.ModelMap | backend/src/anthropic-agent.js:164-181 | the sixteen table entries as written; stated by `ModelMapKeys`, the `Aliases` and the `Dated` lemmas |
| ModelNames.ModelMapKeys | backend/src/anthropic-agent.js:164-188 | no table key is a dated id, so each key maps to its table value |
| ModelNames.AliasesClaude3And4 | backend/src/anthropic-agent.js:164-180 | the `anthropic/` and bare forms of the Claude 3 and 4 names map to the same id |
| ModelNames.AliasesClaude35 | backend/src/anthropic-agent.js:168-178 | the `anthropic/` and bare forms of the Claude 3.5 names map to the same id |
| ModelNames.DatedClaude3 | backend/src/anthropic-agent.js:165-167 | the Claude 3 ids of the table are dated |
| ModelNames.DatedClaude35 | backend/src/anthropic-agent.js:168-170 | the Claude 3.5 ids, the default among them, are dated |
| ModelNames.DatedClaude4 | backend/src/anthropic-agent.js:171-172 | the Claude 4 ids are dated |
| ModelNames.ModelIdIdempotent | backend/src/anthropic-agent.js:183-188 | every produced id is dated, so mapping it again returns it unchanged |
| ModelNames.IsAnthropicModel | backend/src/anthropic-agent.js:194-198 | false for an empty or absent name |
| ModelNames.IsAnthropicIgnoresCase | backend/src/anthropic-agent.js:196 | the classification ignores letter case |
| ModelNames.ModelIdIsAnthropic | backend/src/anthropic-agent.js:161-198 | every id `getModelId` produces is classified as an Anthropic model |
| Scenarios.GameModes | frontend/src/utils/scenarios.js:1-112 | the three modes with their full text; stated by `ModeIds`, `GameModeIdsDistinct` and `GameModesCast` |
| Scenarios.ModeValues | frontend/src/utils/scenarios.js:115 | the modes in declaration order |
| Scenarios.FindById | frontend/src/utils/scenarios.js:114-119 | a result has the id and no earlier mode has it; no result iff no mode has it |
| Scenarios.GetScenarioById | frontend/src/utils/scenarios.js:114-119 | the `for` loop returns what the specification `FindById` gives over the modes in declaration order: the first mode with the id, or none |
| Scenarios.FindFirst | frontend/src/utils/scenarios.js:115-117 | a mode with the id and none before it with the id is what the lookup returns |
| Scenarios.FindOwnId | frontend/src/utils/scenarios.js:115-116 | with distinct ids, a scenario's own id finds that scenario |
| Scenarios.ModeIds | frontend/src/utils/scenarios.js:1-112 | the modes, in declaration order, have the ids `boardroom`, `island`, `turing_test` |
| Scenarios.GameModeIdsDistinct | frontend/src/utils/scenarios.js:1-112 | the three mode ids are distinct |
| Scenarios.GameModesFound | frontend/src/utils/scenarios.js:114-119 | `boardroom`, `island`, `turing_test` find their modes |
| Scenarios.GameModesOnly | frontend/src/utils/scenarios.js:114-119 | only those three ids find anything |
| Scenarios.GameModesCast | frontend/src/utils/scenarios.js:8-110 | every mode has agents `agent1`..`agent3` on openai, anthropic and google |
| Util.OrElse | backend/src/orchestration.js:172 | `a \|\| b` on strings: `a` when present and non-empty, else `b` |
| Util.Interpolate | backend/src/anthropic-agent.js:218-220 | a template literal writes `undefined` for an absent value |
| Util.Lower | backend/src/orchestration.js:90 | `toLowerCase` on ASCII: each letter `A`..`Z` lower-cased, every other character kept, the length unchanged; stated by `LowerIdempotent`, `ProviderForIgnoresCase` and `IsAnthropicIgnoresCase` |
| Util.StartsWith | backend/src/anthropic-agent.js:184 | `startsWith`: the string's first characters are the prefix; used by `IsDatedId` and stated by the `Dated` lemmas |
| Util.Contains | backend/src/anthropic-agent.js:184 | `includes`: the pattern occurs at some position; used by `IsDatedId` and `IsAnthropicModel` and stated by the `Dated` lemmas and `ModelIdIsAnthropic` |
| Util.Join | backend/src/orchestration.js:195 | `join`: the parts with the separator between neighbours; stated by `JoinPrefix` and `JoinSnoc` |
| Util.LowerIdempotent | backend/src/orchestration.js:90 | lower-casing twice is lower-casing once |
| Util.JoinPrefix | backend/src/orchestration.js:193-195 | joining a prefix of the parts gives a prefix of the joined text |
| Util.JoinSnoc | backend/src/orchestration.js:195 | joining one more part appends the separator and the part |

## Left out

- Timestamps: every entry's `new Date()` timestamp is not modelled (clock).
- Pacing: the 500 ms `setTimeout` after each successful turn is not modelled (timing).
- Calls during an awaited turn: a `stop`, an `injectGodModePrompt` or a second `start` that arrives while a turn or its pause is awaited is modelled only between `Step`s. So is a second `orchestrationLoop` that a re-entrant `start` opens on the same fields. A run ends when the sequence of provider outcomes is used up. `Engine.Stop`, `Engine.InjectGodModePrompt` and `Engine.Start` are each separate whole operations. `RunKeepsDirectives` and `RunBroadcasts` take the queue as it stands when the run starts.
- JSON export: `exportTranscript('json')` is `JSON.stringify`. The model returns the entries themselves (`Json(entries)`) in place of the serialised text.
- Provider calls: the three SDK calls of the engine (`getOpenAIResponse`, `getAnthropicResponse`, `getGoogleResponse`) are foreign network calls. Their replies, their `trim()`, their model defaults and their "client not configured" errors become the `ProviderOutcome` of the turn.
- AnthropicAgent.Run: exceptions that escape `run` are not modelled. Three cases: a rejected `client.messages.create` call, an `onToolUse` callback that throws, and a tool whose `execute` throws or rejects with `null` or `undefined` (see the `AnthropicAgent.ExecuteTool` line). In the source, `run` then rejects after the tools of earlier rounds have already run. In the model the provider is a total function from request to response, and the callback only records an event.
- AnthropicAgent.ExecuteTool: a tool that throws or rejects with `null` or `undefined` is not modelled. In the source, reading `error.message` in the `catch` block then raises a `TypeError`, so `executeTool` itself rejects and `run` rejects at its `await`. In the model `Threw(None)` stands only for a thrown value that is neither `null` nor `undefined` and has no `message`; it gives a record with no result and `isError` false.
- Console logging: the `console.error` call in the engine's `catch` block is not modelled, except for the `TypeError` it raises when there is no agent.
- Broadcast addressing: `setSessionId` and the `global.broadcastToSession` channel are not modelled. Broadcasts are the engine's `outbox`.
- `Orchestration.Engine.GetTranscript`: returns a copy of the sequence. The source returns the live array, and aliasing does not arise with values.
- Caller's messages: copying them in `run` is inherent, because sequences are values.
- Lower-casing is ASCII only. `toLowerCase` on other Unicode letters is not modelled.
- Key lookups: `this.toolbox[name]` and `modelMap[name]` are plain key lookups. Keys inherited from `Object.prototype` (such as `constructor`) are not modelled.
- Toolbox keys are assumed distinct, being object keys. Enumeration order is the order of the entries sequence.
- `onThinking` is kept as a field. The source never calls it.
- Client construction: the API-key warning and the SDK client construction in the runner's constructor are environment plumbing.
- Opaque values: tool inputs, tool results and JSON-schema `properties` are opaque strings. Tool `execute` is a function of its input, and its side effects are not modelled.
- JavaScript typing: non-string `senderName` or `agent.model` values and non-integer `maxIterations` values (such as 2.5, for which the loop runs three times) are outside the types used here. So is an agent with no `provider`. In the source, `agent.provider.toLowerCase()` then raises a `TypeError` inside the `try` block, so the turn gets an error entry and the index stays. In the model every agent has a provider string, and an unsupported one has the same effect.
