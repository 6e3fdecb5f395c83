/**
 * The Anthropic agent runner: a bounded tool-use loop around a provider
 * call, the tool execution that never throws, the model-name table and the
 * flattening of a transcript into one user message.
 *
 * The provider (`client.messages.create`) is a total function from the
 * request to the response it returns; every request of one run carries a
 * longer message list than the one before, so any sequence of answers can be
 * given this way. A tool's `execute` is likewise a function from the tool
 * input to what it returns or throws.
 */
module AnthropicAgent {
  import opened Util
  import opened Agents
  import opened ModelNames

  // ---------------------------------------------------------------------
  // Provider messages

  /** The payload of a `tool_use` content block. */
  datatype ToolCall = ToolCall(id: string, name: string, input: string)

  /** The `type` of a content block that is neither `text` nor `tool_use`. */
  type OtherKind = k: string | k != "text" && k != "tool_use" witness ""

  /** A content block of a provider response: `text`, `tool_use`, or any other type. */
  datatype ContentBlock =
    | TextBlock(text: string)
    | ToolUseBlock(call: ToolCall)
    | OtherBlock(kind: OtherKind)

  /** `{ stop_reason, content }` */
  datatype Response = Response(stopReason: string, content: seq<ContentBlock>)

  /** `{ type: 'tool_result', tool_use_id, content, is_error }` */
  datatype ToolResultBlock = ToolResultBlock(toolUseId: string, content: Option<string>, isError: bool)

  /** The content of a message: a plain string, response blocks, or tool results. */
  datatype MessageContent =
    | Plain(text: string)
    | Blocks(blocks: seq<ContentBlock>)
    | ToolResults(results: seq<ToolResultBlock>)

  datatype Message = Message(role: Role, content: MessageContent)

  // ---------------------------------------------------------------------
  // Tools

  /** `definition.function`: name, description and the parameters' JSON schema. */
  datatype ToolDefinition = ToolDefinition(
    name: string,
    description: string,
    properties: string,
    required: Option<seq<string>>)

  /**
   * What one call of a tool's `execute` does: return a value, or throw a value
   * whose `message` is given. `Threw(None)` is a thrown value that is neither
   * `null` nor `undefined` and has no `message`.
   */
  datatype ToolOutcome = Returned(value: string) | Threw(message: Option<string>)

  datatype Tool = Tool(definition: ToolDefinition, execute: string -> ToolOutcome)

  /** The toolbox object, as its entries in enumeration order. */
  type Toolbox = seq<(string, Tool)>

  /** `{ type: 'object', properties, required }` */
  datatype InputSchema = InputSchema(schemaType: string, properties: string, required: seq<string>)

  /** A tool as the provider is told about it. */
  datatype AnthropicTool = AnthropicTool(name: string, description: string, inputSchema: InputSchema)

  /** `{ result }` or `{ error }` from `executeTool`. */
  datatype ExecResult = ExecResult(result: Option<string>, error: Option<string>)

  /** One entry of `toolsUsed`. */
  datatype ToolRecord = ToolRecord(name: string, input: string, result: Option<string>, isError: bool)

  /** Calls the runner makes while it handles a tool use. */
  datatype Event =
    | ToolUseNotified(name: string, input: string)
    | ToolExecuted(name: string, input: string)

  // ---------------------------------------------------------------------
  // The runner

  /** The optional settings of the runner; a callback is present or not. */
  datatype Options = Options(maxIterations: Option<int>, onToolUse: bool, onThinking: bool)

  datatype Runner = Runner(toolbox: Toolbox, maxIterations: int, onToolUse: bool, onThinking: bool)

  const DefaultMaxIterations: int := 10

  /** The constructor: an absent toolbox is empty, an absent or zero ceiling is 10. */
  function NewRunner(toolbox: Option<Toolbox>, options: Options): (r: Runner)
    ensures toolbox.None? ==> r.toolbox == []
    ensures toolbox.Some? ==> r.toolbox == toolbox.value
    ensures r.maxIterations != 0
    ensures options.maxIterations.Some? && options.maxIterations.value != 0 ==>
              r.maxIterations == options.maxIterations.value
    ensures options.maxIterations.None? || options.maxIterations.value == 0 ==>
              r.maxIterations == DefaultMaxIterations
    ensures r.onToolUse == options.onToolUse && r.onThinking == options.onThinking
  {
    var box := match toolbox case Some(b) => b case None => [];
    var max := match options.maxIterations
      case Some(m) => if m != 0 then m else DefaultMaxIterations
      case None => DefaultMaxIterations;
    Runner(box, max, options.onToolUse, options.onThinking)
  }

  /** `getAnthropicTools` of one entry. */
  function ToAnthropicTool(t: Tool): AnthropicTool {
    var d := t.definition;
    AnthropicTool(d.name, d.description,
      InputSchema("object", d.properties, match d.required case Some(r) => r case None => []))
  }

  /**
   * `getAnthropicTools`: one provider tool per toolbox entry, in order, named
   * by its definition (not by its key), with an absent `required` list empty.
   */
  function GetAnthropicTools(rn: Runner): (r: seq<AnthropicTool>)
    ensures |r| == |rn.toolbox|
    ensures forall i :: 0 <= i < |r| ==>
      var d := rn.toolbox[i].1.definition;
      && r[i].name == d.name
      && r[i].description == d.description
      && r[i].inputSchema.schemaType == "object"
      && r[i].inputSchema.properties == d.properties
      && r[i].inputSchema.required == (if d.required.Some? then d.required.value else [])
  {
    seq(|rn.toolbox|, i requires 0 <= i < |rn.toolbox| => ToAnthropicTool(rn.toolbox[i].1))
  }

  /** `this.toolbox[key]`: the tool stored under `key`. */
  function FindTool(box: Toolbox, key: string): (r: Option<Tool>)
    ensures r.Some? <==> exists i :: 0 <= i < |box| && box[i].0 == key
    ensures r.Some? ==>
      exists i :: 0 <= i < |box| && box[i].0 == key && r.value == box[i].1
                  && forall j :: 0 <= j < i ==> box[j].0 != key
    decreases |box|
  {
    if box == [] then None
    else if box[0].0 == key then Some(box[0].1)
    else
      var r := FindTool(box[1..], key);
      assert r.Some? ==>
        exists i :: 0 <= i < |box| && box[i].0 == key && r.value == box[i].1
                    && forall j :: 0 <= j < i ==> box[j].0 != key
      by {
        if r.Some? {
          var j :| 0 <= j < |box[1..]| && box[1..][j].0 == key && r.value == box[1..][j].1
                   && forall k :: 0 <= k < j ==> box[1..][k].0 != key;
          assert box[j + 1] == box[1..][j];
          forall k | 0 <= k < j + 1
            ensures box[k].0 != key
          {
            if k > 0 { assert box[k] == box[1..][k - 1]; }
          }
        }
      }
      r
  }

  /**
   * `executeTool`: never throws. An unknown name is the error
   * `Unknown tool: <name>`, a thrown error is its message, a returned value
   * is the result.
   */
  function ExecuteTool(rn: Runner, name: string, input: string): (r: ExecResult)
    ensures r.result.Some? ==> r.error.None?
    ensures FindTool(rn.toolbox, name).None? ==> r == ExecResult(None, Some("Unknown tool: " + name))
    ensures FindTool(rn.toolbox, name).Some? ==>
      match FindTool(rn.toolbox, name).value.execute(input)
      case Returned(v) => r == ExecResult(Some(v), None)
      case Threw(m) => r == ExecResult(None, m)
  {
    match FindTool(rn.toolbox, name)
    case None => ExecResult(None, Some("Unknown tool: " + name))
    case Some(tool) =>
      match tool.execute(input)
      case Returned(v) => ExecResult(Some(v), None)
      case Threw(m) => ExecResult(None, m)
  }

  /** `error || result` */
  function Shown(x: ExecResult): (r: Option<string>)
    ensures Truthy(x.error) ==> r == x.error
    ensures !Truthy(x.error) ==> r == x.result
  {
    if Truthy(x.error) then x.error else x.result
  }

  /** What handling one tool use produces: its record, its tool result and the calls made. */
  datatype ToolStepResult = ToolStepResult(record: ToolRecord, result: ToolResultBlock, events: seq<Event>)

  function ToolStep(rn: Runner, c: ToolCall): ToolStepResult {
    var x := ExecuteTool(rn, c.name, c.input);
    var notify := if rn.onToolUse then [ToolUseNotified(c.name, c.input)] else [];
    ToolStepResult(
      ToolRecord(c.name, c.input, Shown(x), Truthy(x.error)),
      ToolResultBlock(c.id, Shown(x), Truthy(x.error)),
      notify + [ToolExecuted(c.name, c.input)])
  }

  /** The records, tool results and calls of one `tool_use` response, block by block. */
  datatype Round = Round(records: seq<ToolRecord>, results: seq<ToolResultBlock>, events: seq<Event>)

  function ToolRound(rn: Runner, uses: seq<ToolCall>): Round
    decreases |uses|
  {
    if uses == [] then Round([], [], [])
    else
      var prev := ToolRound(rn, uses[..|uses| - 1]);
      var step := ToolStep(rn, uses[|uses| - 1]);
      Round(prev.records + [step.record], prev.results + [step.result], prev.events + step.events)
  }

  /** `content.filter(block => block.type === 'tool_use')` */
  function ToolUses(content: seq<ContentBlock>): seq<ToolCall>
    decreases |content|
  {
    if content == [] then []
    else
      var prev := ToolUses(content[..|content| - 1]);
      match content[|content| - 1]
      case ToolUseBlock(c) => prev + [c]
      case _ => prev
  }

  /** The tool uses are exactly the `tool_use` blocks of the content. */
  lemma {:induction false} ToolUsesMembers(content: seq<ContentBlock>, c: ToolCall)
    ensures c in ToolUses(content) <==> ToolUseBlock(c) in content
    decreases |content|
  {
    if content != [] {
      var init := content[..|content| - 1];
      ToolUsesMembers(init, c);
      assert content == init + [content[|content| - 1]];
    }
  }

  /** On a single block: its call when it is a `tool_use` block, nothing otherwise. */
  lemma ToolUsesSingle(b: ContentBlock)
    ensures ToolUses([b]) == if b.ToolUseBlock? then [b.call] else []
  {
    assert [b][..0] == [];
  }

  /** The filter distributes over concatenation, so it keeps the blocks' order. */
  lemma {:induction false} ToolUsesConcat(a: seq<ContentBlock>, b: seq<ContentBlock>)
    ensures ToolUses(a + b) == ToolUses(a) + ToolUses(b)
    decreases |b|
  {
    if b == [] {
      assert a + b == a;
    } else {
      var init := b[..|b| - 1];
      assert (a + b)[..|a + b| - 1] == a + init;
      assert (a + b)[|a + b| - 1] == b[|b| - 1];
      ToolUsesConcat(a, init);
    }
  }

  /** `content.find(block => block.type === 'text')?.text || ''` */
  function FirstText(content: seq<ContentBlock>): (r: string)
    ensures (forall i :: 0 <= i < |content| ==> !content[i].TextBlock?) ==> r == ""
    ensures forall i :: 0 <= i < |content| && content[i].TextBlock? ==>
      (forall j :: 0 <= j < i ==> !content[j].TextBlock?) ==> r == content[i].text
    ensures r != "" ==> TextBlock(r) in content
    decreases |content|
  {
    if content == [] then ""
    else if content[0].TextBlock? then content[0].text
    else
      var r := FirstText(content[1..]);
      assert forall i :: 1 <= i < |content| ==> content[i] == content[1..][i - 1];
      r
  }

  // ---------------------------------------------------------------------
  // The run loop

  const MaxTokens: nat := 1024
  const Sentinel: string := "[Agent reached maximum tool iterations]"

  /** What stays the same in every request of one run. */
  datatype CallContext = CallContext(model: string, system: string, tools: Option<seq<AnthropicTool>>)

  datatype Request = Request(
    model: string,
    maxTokens: nat,
    system: string,
    tools: Option<seq<AnthropicTool>>,
    messages: seq<Message>)

  /** `{ text, toolsUsed }` */
  datatype RunResult = RunResult(text: string, toolsUsed: seq<ToolRecord>)

  /** A run's result together with the requests it sent and the calls it made, in order. */
  datatype Outcome = Outcome(text: string, toolsUsed: seq<ToolRecord>, requests: seq<Request>, events: seq<Event>)

  /** The number of iterations a ceiling allows. */
  function Fuel(maxIterations: int): nat {
    if maxIterations > 0 then maxIterations else 0
  }

  /** The two messages a `tool_use` response adds to the working list. */
  function ToolUseMessages(rn: Runner, resp: Response): seq<Message> {
    [Message(Assistant, Blocks(resp.content)),
     Message(User, ToolResults(ToolRound(rn, ToolUses(resp.content)).results))]
  }

  /** The loop from a working message list with `fuel` iterations left. */
  function Loop(rn: Runner, ctx: CallContext, provider: Request -> Response, messages: seq<Message>, fuel: nat): Outcome
    decreases fuel
  {
    if fuel == 0 then Outcome(Sentinel, [], [], [])
    else
      var q := Request(ctx.model, MaxTokens, ctx.system, ctx.tools, messages);
      var resp := provider(q);
      if resp.stopReason == "end_turn" then
        Outcome(FirstText(resp.content), [], [q], [])
      else if resp.stopReason == "tool_use" then
        var round := ToolRound(rn, ToolUses(resp.content));
        var rest := Loop(rn, ctx, provider, messages + ToolUseMessages(rn, resp), fuel - 1);
        Outcome(rest.text, round.records + rest.toolsUsed, [q] + rest.requests, round.events + rest.events)
      else
        Outcome(FirstText(resp.content), [], [q], [])
  }

  function RunContext(rn: Runner, agent: Agent, systemPrompt: string): CallContext {
    var tools := GetAnthropicTools(rn);
    CallContext(ModelId(Some(agent.model)), systemPrompt, if |tools| > 0 then Some(tools) else None)
  }

  /** What `run` does, as a value. */
  function RunSpec(rn: Runner, agent: Agent, systemPrompt: string, messages: seq<Message>,
                   provider: Request -> Response): Outcome
  {
    Loop(rn, RunContext(rn, agent, systemPrompt), provider, messages, Fuel(rn.maxIterations))
  }

  /** What the loop has gathered so far, in front of what the rest of the run gathers. */
  function After(toolsUsed: seq<ToolRecord>, requests: seq<Request>, events: seq<Event>, rest: Outcome): Outcome {
    Outcome(rest.text, toolsUsed + rest.toolsUsed, requests + rest.requests, events + rest.events)
  }

  /** One `tool_use` iteration moves its request, records and calls in front of the rest of the run. */
  lemma LoopToolUseStep(rn: Runner, ctx: CallContext, provider: Request -> Response, messages: seq<Message>,
                        fuel: nat, toolsUsed: seq<ToolRecord>, requests: seq<Request>, events: seq<Event>)
    requires fuel > 0
    requires provider(Request(ctx.model, MaxTokens, ctx.system, ctx.tools, messages)).stopReason == "tool_use"
    ensures var q := Request(ctx.model, MaxTokens, ctx.system, ctx.tools, messages);
      var resp := provider(q);
      var round := ToolRound(rn, ToolUses(resp.content));
      After(toolsUsed, requests, events, Loop(rn, ctx, provider, messages, fuel))
      == After(toolsUsed + round.records, requests + [q], events + round.events,
               Loop(rn, ctx, provider, messages + ToolUseMessages(rn, resp), fuel - 1))
  {
    var q := Request(ctx.model, MaxTokens, ctx.system, ctx.tools, messages);
    var resp := provider(q);
    var round := ToolRound(rn, ToolUses(resp.content));
    var rest := Loop(rn, ctx, provider, messages + ToolUseMessages(rn, resp), fuel - 1);
    assert Loop(rn, ctx, provider, messages, fuel)
      == Outcome(rest.text, round.records + rest.toolsUsed, [q] + rest.requests, round.events + rest.events);
    assert toolsUsed + (round.records + rest.toolsUsed) == (toolsUsed + round.records) + rest.toolsUsed;
    assert requests + ([q] + rest.requests) == (requests + [q]) + rest.requests;
    assert events + (round.events + rest.events) == (events + round.events) + rest.events;
  }

  /** An iteration whose answer does not ask for tools ends the run with that answer's first text. */
  lemma LoopStopStep(rn: Runner, ctx: CallContext, provider: Request -> Response, messages: seq<Message>,
                     fuel: nat, toolsUsed: seq<ToolRecord>, requests: seq<Request>, events: seq<Event>)
    requires fuel > 0
    requires provider(Request(ctx.model, MaxTokens, ctx.system, ctx.tools, messages)).stopReason != "tool_use"
    ensures var q := Request(ctx.model, MaxTokens, ctx.system, ctx.tools, messages);
      After(toolsUsed, requests, events, Loop(rn, ctx, provider, messages, fuel))
      == Outcome(FirstText(provider(q).content), toolsUsed, requests + [q], events)
  {
    assert toolsUsed + [] == toolsUsed && events + [] == events;
  }

  /** No iteration left: the sentinel. */
  lemma LoopOutOfFuel(rn: Runner, ctx: CallContext, provider: Request -> Response, messages: seq<Message>,
                      toolsUsed: seq<ToolRecord>, requests: seq<Request>, events: seq<Event>)
    ensures After(toolsUsed, requests, events, Loop(rn, ctx, provider, messages, 0))
      == Outcome(Sentinel, toolsUsed, requests, events)
  {
    assert toolsUsed + [] == toolsUsed && requests + [] == requests && events + [] == events;
  }

  /**
   * The `for` loop over the tool uses of one response: announce (when the
   * callback is set), execute, record, collect the tool result.
   */
  method RunTools(rn: Runner, uses: seq<ToolCall>, toolsUsed0: seq<ToolRecord>, events0: seq<Event>)
    returns (toolsUsed: seq<ToolRecord>, events: seq<Event>, toolResults: seq<ToolResultBlock>)
    ensures var round := ToolRound(rn, uses);
      && toolsUsed == toolsUsed0 + round.records
      && events == events0 + round.events
      && toolResults == round.results
  {
    toolsUsed, events, toolResults := toolsUsed0, events0, [];
    for j := 0 to |uses|
      invariant ToolRound(rn, uses[..j]).results == toolResults
      invariant toolsUsed0 + ToolRound(rn, uses[..j]).records == toolsUsed
      invariant events0 + ToolRound(rn, uses[..j]).events == events
    {
      var use := uses[j];
      assert uses[..j + 1][..j] == uses[..j];
      if rn.onToolUse {
        events := events + [ToolUseNotified(use.name, use.input)];
      }
      var x := ExecuteTool(rn, use.name, use.input);
      events := events + [ToolExecuted(use.name, use.input)];
      toolsUsed := toolsUsed + [ToolRecord(use.name, use.input, Shown(x), Truthy(x.error))];
      toolResults := toolResults + [ToolResultBlock(use.id, Shown(x), Truthy(x.error))];
    }
    assert uses[..|uses|] == uses;
  }

  /**
   * `run`: at most `maxIterations` provider calls; the first response that
   * does not ask for tools ends the run with its first text, and a run that
   * uses up its iterations ends with the sentinel text.
   */
  method Run(rn: Runner, agent: Agent, systemPrompt: string, messages: seq<Message>, provider: Request -> Response)
    returns (result: RunResult, requests: seq<Request>, events: seq<Event>)
    ensures Outcome(result.text, result.toolsUsed, requests, events) == RunSpec(rn, agent, systemPrompt, messages, provider)
  {
    var model := ModelId(Some(agent.model));
    var tools := GetAnthropicTools(rn);
    var ctx := CallContext(model, systemPrompt, if |tools| > 0 then Some(tools) else None);
    result, requests, events := RunLoop(rn, ctx, messages, provider);
  }

  /** The `while` loop of `run`, for the model, system prompt and tools fixed before it. */
  method RunLoop(rn: Runner, ctx: CallContext, messages: seq<Message>, provider: Request -> Response)
    returns (result: RunResult, requests: seq<Request>, events: seq<Event>)
    ensures Outcome(result.text, result.toolsUsed, requests, events)
      == Loop(rn, ctx, provider, messages, Fuel(rn.maxIterations))
  {
    ghost var whole := Loop(rn, ctx, provider, messages, Fuel(rn.maxIterations));
    var toolsUsed: seq<ToolRecord> := [];
    var current := messages;
    var iterations := 0;
    requests := [];
    events := [];
    assert After([], [], [], whole) == whole;
    while iterations < rn.maxIterations
      invariant 0 <= iterations <= Fuel(rn.maxIterations)
      invariant After(toolsUsed, requests, events, Loop(rn, ctx, provider, current, Fuel(rn.maxIterations) - iterations))
        == whole
      decreases rn.maxIterations - iterations
    {
      ghost var fuel: nat := Fuel(rn.maxIterations) - iterations;
      iterations := iterations + 1;
      var q := Request(ctx.model, MaxTokens, ctx.system, ctx.tools, current);
      var response := provider(q);
      if response.stopReason == "end_turn" {
        LoopStopStep(rn, ctx, provider, current, fuel, toolsUsed, requests, events);
        requests := requests + [q];
        result := RunResult(FirstText(response.content), toolsUsed);
        return;
      }
      if response.stopReason == "tool_use" {
        LoopToolUseStep(rn, ctx, provider, current, fuel, toolsUsed, requests, events);
        ghost var next := current + ToolUseMessages(rn, response);
        requests := requests + [q];
        var uses := ToolUses(response.content);
        current := current + [Message(Assistant, Blocks(response.content))];
        var toolResults;
        toolsUsed, events, toolResults := RunTools(rn, uses, toolsUsed, events);
        current := current + [Message(User, ToolResults(toolResults))];
        assert current == next;
        continue;
      }
      LoopStopStep(rn, ctx, provider, current, fuel, toolsUsed, requests, events);
      requests := requests + [q];
      result := RunResult(FirstText(response.content), toolsUsed);
      return;
    }
    LoopOutOfFuel(rn, ctx, provider, current, toolsUsed, requests, events);
    result := RunResult(Sentinel, toolsUsed);
  }

  // ---------------------------------------------------------------------
  // Properties of the run loop

  /** At most `fuel` provider calls, and at least one when any iteration is allowed. */
  lemma {:induction false} LoopBounded(rn: Runner, ctx: CallContext, provider: Request -> Response,
                                       messages: seq<Message>, fuel: nat)
    ensures var o := Loop(rn, ctx, provider, messages, fuel);
      |o.requests| <= fuel && (fuel > 0 <==> |o.requests| > 0)
    decreases fuel
  {
    if fuel > 0 {
      var q := Request(ctx.model, MaxTokens, ctx.system, ctx.tools, messages);
      var resp := provider(q);
      if resp.stopReason == "tool_use" {
        LoopBounded(rn, ctx, provider, messages + ToolUseMessages(rn, resp), fuel - 1);
      }
    }
  }

  /** `run` never makes more than `maxIterations` provider calls, and none when the ceiling is not positive. */
  lemma RunAtMostMaxIterations(rn: Runner, agent: Agent, systemPrompt: string, messages: seq<Message>,
                               provider: Request -> Response)
    ensures var o := RunSpec(rn, agent, systemPrompt, messages, provider);
      && |o.requests| <= Fuel(rn.maxIterations)
      && (rn.maxIterations <= 0 <==> o.requests == [])
  {
    LoopBounded(rn, RunContext(rn, agent, systemPrompt), provider, messages, Fuel(rn.maxIterations));
  }

  /** Every request but the last was answered with `tool_use`. */
  ghost predicate ToolUseUntilLast(provider: Request -> Response, rs: seq<Request>) {
    forall k :: 0 <= k < |rs| - 1 ==> provider(rs[k]).stopReason == "tool_use"
  }

  lemma ToolUseUntilLastCons(provider: Request -> Response, q: Request, rest: seq<Request>)
    requires provider(q).stopReason == "tool_use" && ToolUseUntilLast(provider, rest)
    ensures ToolUseUntilLast(provider, [q] + rest)
  {
    var rs := [q] + rest;
    forall k | 0 < k < |rs|
      ensures rs[k] == rest[k - 1]
    {
    }
  }

  /**
   * How a run ends: every call but the last was answered with `tool_use`;
   * a last answer of another kind gives its first text; a run whose every
   * answer was `tool_use` used all of its iterations and gives the sentinel.
   */
  lemma {:induction false} LoopEnds(rn: Runner, ctx: CallContext, provider: Request -> Response,
                                    messages: seq<Message>, fuel: nat)
    ensures var o := Loop(rn, ctx, provider, messages, fuel);
      var n := |o.requests|;
      && ToolUseUntilLast(provider, o.requests)
      && (n > 0 && provider(o.requests[n - 1]).stopReason != "tool_use" ==>
            o.text == FirstText(provider(o.requests[n - 1]).content))
      && (n == 0 || provider(o.requests[n - 1]).stopReason == "tool_use" ==>
            o.text == Sentinel && n == fuel)
    decreases fuel
  {
    LoopBounded(rn, ctx, provider, messages, fuel);
    if fuel > 0 {
      var q := Request(ctx.model, MaxTokens, ctx.system, ctx.tools, messages);
      var resp := provider(q);
      if resp.stopReason == "tool_use" {
        var next := messages + ToolUseMessages(rn, resp);
        LoopEnds(rn, ctx, provider, next, fuel - 1);
        LoopBounded(rn, ctx, provider, next, fuel - 1);
        var o := Loop(rn, ctx, provider, messages, fuel);
        var rest := Loop(rn, ctx, provider, next, fuel - 1);
        assert o.requests == [q] + rest.requests;
        ToolUseUntilLastCons(provider, q, rest.requests);
        if |rest.requests| > 0 {
          assert o.requests[|o.requests| - 1] == rest.requests[|rest.requests| - 1];
        }
      }
    }
  }

  /** When every answer asks for tools, `run` makes exactly `maxIterations` calls and returns the sentinel. */
  lemma RunAllToolUse(rn: Runner, agent: Agent, systemPrompt: string, messages: seq<Message>,
                      provider: Request -> Response)
    requires forall q :: provider(q).stopReason == "tool_use"
    ensures var o := RunSpec(rn, agent, systemPrompt, messages, provider);
      o.text == Sentinel && |o.requests| == Fuel(rn.maxIterations)
  {
    LoopEnds(rn, RunContext(rn, agent, systemPrompt), provider, messages, Fuel(rn.maxIterations));
  }

  /**
   * A list of requests as one run sends them: all carry the run's model,
   * token limit, system prompt and tools, and each after the first carries
   * the previous list plus the two messages of the `tool_use` answer to it.
   */
  ghost predicate Chained(rn: Runner, ctx: CallContext, provider: Request -> Response, rs: seq<Request>) {
    && (forall k :: 0 <= k < |rs| ==>
          rs[k].model == ctx.model && rs[k].maxTokens == MaxTokens
          && rs[k].system == ctx.system && rs[k].tools == ctx.tools)
    && (forall k :: 0 <= k < |rs| - 1 ==>
          rs[k + 1].messages == rs[k].messages + ToolUseMessages(rn, provider(rs[k])))
  }

  /** A chain of requests extends by one request in front whose answer leads to its head. */
  lemma ChainedCons(rn: Runner, ctx: CallContext, provider: Request -> Response, q: Request, rest: seq<Request>)
    requires q.model == ctx.model && q.maxTokens == MaxTokens && q.system == ctx.system && q.tools == ctx.tools
    requires |rest| > 0 ==> rest[0].messages == q.messages + ToolUseMessages(rn, provider(q))
    requires Chained(rn, ctx, provider, rest)
    ensures Chained(rn, ctx, provider, [q] + rest)
  {
    var rs := [q] + rest;
    forall k | 0 < k < |rs|
      ensures rs[k] == rest[k - 1]
    {
    }
  }

  /**
   * The requests of a run form a chain starting from the caller's
   * messages: every request carries the run's model, token limit, system
   * prompt and tools, and each later one the previous list plus the two
   * messages of the `tool_use` answer to it.
   */
  lemma {:induction false} LoopMessages(rn: Runner, ctx: CallContext, provider: Request -> Response,
                                        messages: seq<Message>, fuel: nat)
    ensures var rs := Loop(rn, ctx, provider, messages, fuel).requests;
      && (|rs| > 0 ==> rs[0].messages == messages)
      && Chained(rn, ctx, provider, rs)
    decreases fuel
  {
    var rs := Loop(rn, ctx, provider, messages, fuel).requests;
    if fuel > 0 {
      var q := Request(ctx.model, MaxTokens, ctx.system, ctx.tools, messages);
      var resp := provider(q);
      if resp.stopReason == "tool_use" {
        var next := messages + ToolUseMessages(rn, resp);
        LoopMessages(rn, ctx, provider, next, fuel - 1);
        var rest := Loop(rn, ctx, provider, next, fuel - 1).requests;
        assert rs == [q] + rest;
        ChainedCons(rn, ctx, provider, q, rest);
      } else {
        assert rs == [q];
      }
    } else {
      assert rs == [];
    }
  }

  /** Each request's message list is two messages longer than the one before, and starts with the caller's. */
  lemma RequestsGrow(rn: Runner, ctx: CallContext, provider: Request -> Response, messages: seq<Message>, fuel: nat)
    ensures var rs := Loop(rn, ctx, provider, messages, fuel).requests;
      forall k :: 0 <= k < |rs| ==> |rs[k].messages| == |messages| + 2 * k && rs[k].messages[..|messages|] == messages
  {
    var rs := Loop(rn, ctx, provider, messages, fuel).requests;
    LoopMessages(rn, ctx, provider, messages, fuel);
    forall k | 0 <= k < |rs|
      ensures |rs[k].messages| == |messages| + 2 * k && rs[k].messages[..|messages|] == messages
    {
      var j := 0;
      while j < k
        invariant 0 <= j <= k
        invariant |rs[j].messages| == |messages| + 2 * j && rs[j].messages[..|messages|] == messages
      {
        assert rs[j + 1].messages == rs[j].messages + ToolUseMessages(rn, provider(rs[j]));
        assert rs[j + 1].messages[..|messages|] == rs[j].messages[..|messages|];
        j := j + 1;
      }
    }
  }

  /** The number of tool uses across a run's `tool_use` answers. */
  lemma {:induction false} LoopOneToolEach(rn: Runner, ctx: CallContext, provider: Request -> Response,
                                           messages: seq<Message>, fuel: nat)
    requires forall q :: provider(q).stopReason == "tool_use" && |ToolUses(provider(q).content)| == 1
    ensures |Loop(rn, ctx, provider, messages, fuel).toolsUsed| == fuel
    decreases fuel
  {
    if fuel > 0 {
      var q := Request(ctx.model, MaxTokens, ctx.system, ctx.tools, messages);
      var resp := provider(q);
      var uses := ToolUses(resp.content);
      ToolRoundShape(rn, uses);
      LoopOneToolEach(rn, ctx, provider, messages + ToolUseMessages(rn, resp), fuel - 1);
    }
  }

  /** With one tool use in every answer, `toolsUsed` has one record per iteration allowed. */
  lemma RunOneToolEach(rn: Runner, agent: Agent, systemPrompt: string, messages: seq<Message>,
                       provider: Request -> Response)
    requires forall q :: provider(q).stopReason == "tool_use" && |ToolUses(provider(q).content)| == 1
    ensures |RunSpec(rn, agent, systemPrompt, messages, provider).toolsUsed| == Fuel(rn.maxIterations)
  {
    LoopOneToolEach(rn, RunContext(rn, agent, systemPrompt), provider, messages, Fuel(rn.maxIterations));
  }

  /** The tool uses a request's answer asks for: its `tool_use` blocks when it stopped on `tool_use`, none otherwise. */
  function AnswerUses(provider: Request -> Response, q: Request): seq<ToolCall> {
    var resp := provider(q);
    if resp.stopReason == "tool_use" then ToolUses(resp.content) else []
  }

  /** The tool uses the answers to a run's requests asked for, request by request. */
  function AllUses(provider: Request -> Response, rs: seq<Request>): seq<ToolCall>
    decreases |rs|
  {
    if rs == [] then [] else AnswerUses(provider, rs[0]) + AllUses(provider, rs[1..])
  }

  /** The records of the tool round each request's answer asks for, request by request. */
  function RoundRecords(rn: Runner, provider: Request -> Response, rs: seq<Request>): seq<ToolRecord>
    decreases |rs|
  {
    if rs == [] then [] else ToolRound(rn, AnswerUses(provider, rs[0])).records + RoundRecords(rn, provider, rs[1..])
  }

  /** The calls of the tool round each request's answer asks for, request by request. */
  function RoundEvents(rn: Runner, provider: Request -> Response, rs: seq<Request>): seq<Event>
    decreases |rs|
  {
    if rs == [] then [] else ToolRound(rn, AnswerUses(provider, rs[0])).events + RoundEvents(rn, provider, rs[1..])
  }

  /** Across a whole run, `toolsUsed` and the calls made gather each answer's tool round, in request order. */
  lemma {:induction false} LoopToolsUsed(rn: Runner, ctx: CallContext, provider: Request -> Response,
                                         messages: seq<Message>, fuel: nat)
    ensures var o := Loop(rn, ctx, provider, messages, fuel);
      o.toolsUsed == RoundRecords(rn, provider, o.requests) && o.events == RoundEvents(rn, provider, o.requests)
    decreases fuel
  {
    if fuel > 0 {
      var q := Request(ctx.model, MaxTokens, ctx.system, ctx.tools, messages);
      var resp := provider(q);
      if resp.stopReason == "tool_use" {
        var next := messages + ToolUseMessages(rn, resp);
        var rs := Loop(rn, ctx, provider, messages, fuel).requests;
        LoopToolsUsed(rn, ctx, provider, next, fuel - 1);
        assert rs[0] == q && rs[1..] == Loop(rn, ctx, provider, next, fuel - 1).requests;
      } else {
        assert [q][1..] == [];
      }
    }
  }

  /** Gathering each answer's round, request by request, is one round over all the tool uses asked for. */
  lemma {:induction false} RoundsFlatten(rn: Runner, provider: Request -> Response, rs: seq<Request>)
    ensures RoundRecords(rn, provider, rs) == ToolRound(rn, AllUses(provider, rs)).records
    ensures RoundEvents(rn, provider, rs) == ToolRound(rn, AllUses(provider, rs)).events
    decreases |rs|
  {
    if rs != [] {
      RoundsFlatten(rn, provider, rs[1..]);
      ToolRoundConcat(rn, AnswerUses(provider, rs[0]), AllUses(provider, rs[1..]));
      ToolRoundEventsConcat(rn, AnswerUses(provider, rs[0]), AllUses(provider, rs[1..]));
    }
  }

  /**
   * `run` returns one record per tool use asked for over all its iterations,
   * in order, each naming the tool and its input and carrying `error || result`.
   */
  lemma RunToolsUsed(rn: Runner, agent: Agent, systemPrompt: string, messages: seq<Message>,
                     provider: Request -> Response)
    ensures var o := RunSpec(rn, agent, systemPrompt, messages, provider);
      var uses := AllUses(provider, o.requests);
      && o.events == ToolRound(rn, uses).events
      && |o.toolsUsed| == |uses|
      && forall k :: 0 <= k < |uses| ==>
           var x := ExecuteTool(rn, uses[k].name, uses[k].input);
           o.toolsUsed[k] == ToolRecord(uses[k].name, uses[k].input, Shown(x), Truthy(x.error))
  {
    var o := RunSpec(rn, agent, systemPrompt, messages, provider);
    LoopToolsUsed(rn, RunContext(rn, agent, systemPrompt), provider, messages, Fuel(rn.maxIterations));
    RoundsFlatten(rn, provider, o.requests);
    ToolRoundShape(rn, AllUses(provider, o.requests));
  }

  // ---------------------------------------------------------------------
  // Properties of one tool round

  /** Processing two lists of tool uses one after the other gives the records of both, in order. */
  lemma {:induction false} ToolRoundConcat(rn: Runner, a: seq<ToolCall>, b: seq<ToolCall>)
    ensures ToolRound(rn, a + b).records == ToolRound(rn, a).records + ToolRound(rn, b).records
    decreases |b|
  {
    if b == [] {
      assert a + b == a;
    } else {
      var init := b[..|b| - 1];
      assert (a + b)[..|a + b| - 1] == a + init;
      assert (a + b)[|a + b| - 1] == b[|b| - 1];
      ToolRoundConcat(rn, a, init);
    }
  }

  /** Processing two lists of tool uses one after the other makes the calls of both, in order. */
  lemma {:induction false} ToolRoundEventsConcat(rn: Runner, a: seq<ToolCall>, b: seq<ToolCall>)
    ensures ToolRound(rn, a + b).events == ToolRound(rn, a).events + ToolRound(rn, b).events
    decreases |b|
  {
    if b == [] {
      assert a + b == a;
    } else {
      var init, last := b[..|b| - 1], b[|b| - 1];
      assert (a + b)[..|a + b| - 1] == a + init;
      assert (a + b)[|a + b| - 1] == last;
      ToolRoundEventsConcat(rn, a, init);
      var ea, ei, es := ToolRound(rn, a).events, ToolRound(rn, init).events, ToolStep(rn, last).events;
      assert ToolRound(rn, b).events == ei + es;
      assert ToolRound(rn, a + b).events == ToolRound(rn, a + init).events + es;
      assert ea + ei + es == ea + (ei + es);
    }
  }

  /**
   * One record and one tool result per tool use, in block order: the
   * record names the tool and its input, the result answers the use's id,
   * and both carry `error || result` and whether the error is truthy.
   */
  lemma {:induction false} ToolRoundShape(rn: Runner, uses: seq<ToolCall>)
    ensures var r := ToolRound(rn, uses);
      && |r.records| == |uses| && |r.results| == |uses|
      && forall k :: 0 <= k < |uses| ==>
           var x := ExecuteTool(rn, uses[k].name, uses[k].input);
           && r.records[k] == ToolRecord(uses[k].name, uses[k].input, Shown(x), Truthy(x.error))
           && r.results[k] == ToolResultBlock(uses[k].id, Shown(x), Truthy(x.error))
    decreases |uses|
  {
    if uses != [] {
      var init := uses[..|uses| - 1];
      ToolRoundShape(rn, init);
      forall k | 0 <= k < |init|
        ensures init[k] == uses[k]
      {
      }
    }
  }

  /** With the callback set, every tool use is announced and then executed: two calls per use, in block order. */
  lemma {:induction false} ToolRoundAnnounced(rn: Runner, uses: seq<ToolCall>)
    requires rn.onToolUse
    ensures var ev := ToolRound(rn, uses).events;
      && |ev| == 2 * |uses|
      && forall k :: 0 <= k < |uses| ==>
           ev[2 * k] == ToolUseNotified(uses[k].name, uses[k].input)
           && ev[2 * k + 1] == ToolExecuted(uses[k].name, uses[k].input)
    decreases |uses|
  {
    if uses != [] {
      var init := uses[..|uses| - 1];
      ToolRoundAnnounced(rn, init);
      forall k | 0 <= k < |init|
        ensures init[k] == uses[k]
      {
      }
    }
  }

  /** Without the callback, every tool use is only executed, in block order. */
  lemma {:induction false} ToolRoundSilent(rn: Runner, uses: seq<ToolCall>)
    requires !rn.onToolUse
    ensures var ev := ToolRound(rn, uses).events;
      |ev| == |uses| && forall k :: 0 <= k < |uses| ==> ev[k] == ToolExecuted(uses[k].name, uses[k].input)
    decreases |uses|
  {
    if uses != [] {
      var init := uses[..|uses| - 1];
      ToolRoundSilent(rn, init);
      forall k | 0 <= k < |init|
        ensures init[k] == uses[k]
      {
      }
    }
  }

  /** A failing tool is recorded as an error carrying the message, and the run goes on. */
  lemma UnknownToolRecorded(rn: Runner, c: ToolCall)
    requires FindTool(rn.toolbox, c.name).None?
    ensures ToolStep(rn, c).record == ToolRecord(c.name, c.input, Some("Unknown tool: " + c.name), true)
    ensures ToolStep(rn, c).result == ToolResultBlock(c.id, Some("Unknown tool: " + c.name), true)
  {
  }

  // ---------------------------------------------------------------------
  // Flattening a transcript

  /** A transcript entry as the flattening reads it: its type and the fields it may print. */
  datatype TypedEntry = TypedEntry(
    kind: Option<string>,
    senderName: Option<string>,
    publicMessage: Option<string>,
    content: Option<string>)

  /** An entry the flattening prints: an agent turn or a director instruction. */
  predicate Printed(e: TypedEntry) {
    e.kind == Some("agent_turn") || e.kind == Some("god_mode")
  }

  function HistoryLine(e: TypedEntry): string
    requires Printed(e)
  {
    if e.kind == Some("agent_turn") then Interpolate(e.senderName) + ": " + Interpolate(e.publicMessage)
    else "[DIRECTOR INSTRUCTION]: " + Interpolate(e.content)
  }

  /** The history lines of a transcript, one per printed entry, in order. */
  function HistoryLines(t: seq<TypedEntry>): seq<string>
    decreases |t|
  {
    if t == [] then []
    else
      var prev := HistoryLines(t[..|t| - 1]);
      var e := t[|t| - 1];
      if Printed(e) then prev + [HistoryLine(e)] else prev
  }

  /** There is one line per printed entry; none exactly when no entry is printed. */
  lemma {:induction false} HistoryLinesPrinted(t: seq<TypedEntry>)
    ensures |HistoryLines(t)| <= |t|
    ensures HistoryLines(t) == [] <==> forall i :: 0 <= i < |t| ==> !Printed(t[i])
    ensures forall i :: 0 <= i < |t| && Printed(t[i]) ==> HistoryLine(t[i]) in HistoryLines(t)
    decreases |t|
  {
    if t != [] {
      var init := t[..|t| - 1];
      HistoryLinesPrinted(init);
      forall i | 0 <= i < |init|
        ensures init[i] == t[i]
      {
      }
    }
  }

  /** The number of printed entries, counted from the front. */
  function CountPrinted(t: seq<TypedEntry>): nat
    decreases |t|
  {
    if t == [] then 0 else (if Printed(t[0]) then 1 else 0) + CountPrinted(t[1..])
  }

  /** On a single entry: its line when it is printed, nothing otherwise. */
  lemma HistoryLinesSingle(e: TypedEntry)
    ensures HistoryLines([e]) == if Printed(e) then [HistoryLine(e)] else []
  {
    assert [e][..0] == [];
  }

  /** The lines of a concatenation are the lines of its parts, in order. */
  lemma {:induction false} HistoryLinesConcat(a: seq<TypedEntry>, b: seq<TypedEntry>)
    ensures HistoryLines(a + b) == HistoryLines(a) + HistoryLines(b)
    decreases |b|
  {
    if b == [] {
      assert a + b == a;
    } else {
      var init := b[..|b| - 1];
      assert (a + b)[..|a + b| - 1] == a + init;
      assert (a + b)[|a + b| - 1] == b[|b| - 1];
      HistoryLinesConcat(a, init);
    }
  }

  /** Exactly one line per printed entry. */
  lemma {:induction false} HistoryLinesCount(t: seq<TypedEntry>)
    ensures |HistoryLines(t)| == CountPrinted(t)
    decreases |t|
  {
    if t != [] {
      assert t == [t[0]] + t[1..];
      HistoryLinesConcat([t[0]], t[1..]);
      HistoryLinesSingle(t[0]);
      HistoryLinesCount(t[1..]);
    }
  }

  const Preamble: string := "Here is the conversation so far:\n\n"
  const Closing: string := "\n\nNow it's your turn to respond."

  /**
   * `convertToAnthropicMessages`: nothing for an absent transcript or one
   * without agent turns and director instructions, else one user message
   * holding the lines joined by blank lines between a fixed opening and
   * closing.
   */
  method ConvertToAnthropicMessages(transcript: Option<seq<TypedEntry>>) returns (msgs: seq<Message>)
    ensures |msgs| <= 1
    ensures msgs == [] <==> transcript.None? || HistoryLines(transcript.value) == []
    ensures msgs != [] ==>
      msgs[0] == Message(User, Plain(Preamble + Join(HistoryLines(transcript.value), "\n\n") + Closing))
  {
    if transcript.None? || |transcript.value| == 0 {
      return [];
    }
    var t := transcript.value;
    var lines: seq<string> := [];
    for i := 0 to |t|
      invariant lines == HistoryLines(t[..i])
    {
      assert t[..i + 1][..i] == t[..i];
      var e := t[i];
      if e.kind == Some("agent_turn") {
        lines := lines + [Interpolate(e.senderName) + ": " + Interpolate(e.publicMessage)];
      } else if e.kind == Some("god_mode") {
        lines := lines + ["[DIRECTOR INSTRUCTION]: " + Interpolate(e.content)];
      }
    }
    assert t[..|t|] == t;
    if |lines| == 0 {
      return [];
    }
    msgs := [Message(User, Plain(Preamble + Join(lines, "\n\n") + Closing))];
  }

  /** No agent turn and no director instruction means no message at all. */
  lemma NothingPrinted(t: seq<TypedEntry>)
    requires forall i :: 0 <= i < |t| ==> !Printed(t[i])
    ensures HistoryLines(t) == []
  {
    HistoryLinesPrinted(t);
  }
}
