/**
 * The session engine: an append-only transcript, a FIFO queue of director
 * ("god mode") prompts, a round-robin turn index and a running flag, driven
 * by a loop that in each iteration drains at most one director prompt and
 * then gives the floor to one agent.
 *
 * The network call that produces an agent's reply is replaced by a
 * `ProviderOutcome` per loop iteration; the pure specification of one
 * iteration (`Iteration`) and of a bounded run of the loop (`RunLoop`) is
 * written over `Session` values, and the `Engine` class is proved to follow it.
 */
module Orchestration {
  import opened Util
  import opened Agents

  // ---------------------------------------------------------------------
  // Transcript entries

  /**
   * One transcript entry `{ sender, senderName?, senderColor?, content }`.
   * The `timestamp` every entry carries is not modelled.
   */
  datatype Entry = Entry(
    sender: string,
    senderName: Option<string>,
    senderColor: Option<string>,
    content: string)

  function SystemEntry(text: string): Entry {
    Entry("system", None, None, text)
  }

  /** The entry a drained director prompt becomes. */
  function DirectorEntry(prompt: string): Entry {
    Entry("god", None, None, prompt)
  }

  /** The entry of a successful turn of agent `a`. */
  function AgentEntry(a: Agent, response: string): Entry {
    Entry(a.id, Some(a.name), Some(a.color), response)
  }

  /** The system entry of a failed turn of agent `a`. */
  function ErrorEntry(a: Agent): Entry {
    SystemEntry("[Error: " + a.name + " failed to respond]")
  }

  /** `senderName || sender` */
  function DisplayName(e: Entry): string {
    OrElse(e.senderName, e.sender)
  }

  // ---------------------------------------------------------------------
  // Conversation history handed to a provider

  datatype ChatMessage = ChatMessage(role: Role, content: string)

  /** Number of most recent non-system entries given to a provider. */
  const HistoryWindow: nat := 20

  function Min(a: nat, b: nat): nat {
    if a <= b then a else b
  }

  /** The entries whose sender is not `system`, in transcript order. */
  function NonSystem(t: seq<Entry>): seq<Entry>
    decreases |t|
  {
    if t == [] then []
    else
      var last := t[|t| - 1];
      NonSystem(t[..|t| - 1]) + (if last.sender == "system" then [] else [last])
  }

  lemma NonSystemSnoc(t: seq<Entry>, e: Entry)
    ensures NonSystem(t + [e]) == NonSystem(t) + (if e.sender == "system" then [] else [e])
  {
    assert (t + [e])[..|t|] == t;
  }

  /** Filtering distributes over concatenation. */
  lemma {:induction false} NonSystemConcat(a: seq<Entry>, b: seq<Entry>)
    ensures NonSystem(a + b) == NonSystem(a) + NonSystem(b)
    decreases |b|
  {
    if b == [] {
      assert a + b == a;
    } else {
      var init := b[..|b| - 1];
      assert (a + b)[..|a + b| - 1] == a + init;
      assert b[..|b| - 1] == init;
      NonSystemConcat(a, init);
    }
  }

  lemma {:induction false} NonSystemSenders(t: seq<Entry>)
    ensures |NonSystem(t)| <= |t|
    ensures forall e :: e in NonSystem(t) ==> e.sender != "system"
    decreases |t|
  {
    if t != [] {
      NonSystemSenders(t[..|t| - 1]);
    }
  }

  /** The filter keeps exactly the entries whose sender is not `system`. */
  lemma {:induction false} NonSystemMembers(t: seq<Entry>, e: Entry)
    ensures e in NonSystem(t) <==> e in t && e.sender != "system"
    decreases |t|
  {
    if t != [] {
      var init := t[..|t| - 1];
      NonSystemMembers(init, e);
      assert t == init + [t[|t| - 1]];
    }
  }

  /** How one entry is presented to a provider. */
  function ToChat(e: Entry): ChatMessage {
    var role := if e.sender == "god" then User
                else if e.sender != "system" then Assistant
                else User;
    ChatMessage(role, DisplayName(e) + ": " + e.content)
  }

  /**
   * `buildConversationHistory`: the last `HistoryWindow` non-system entries,
   * in order, each as a chat message.
   */
  function BuildConversationHistory(t: seq<Entry>): seq<ChatMessage> {
    var f := NonSystem(t);
    var w := if |f| <= HistoryWindow then f else f[|f| - HistoryWindow..];
    seq(|w|, i requires 0 <= i < |w| => ToChat(w[i]))
  }

  /**
   * The history is the last `min(20, n)` of the `n` non-system entries, in
   * order; a message has the user role exactly when its entry is a director
   * prompt, and its content is `<senderName or sender>: <content>`.
   */
  lemma HistoryWindowed(t: seq<Entry>)
    ensures var h := BuildConversationHistory(t);
      var f := NonSystem(t);
      && |h| == Min(HistoryWindow, |f|)
      && forall k :: 0 <= k < |h| ==>
           && h[k].content == DisplayName(f[|f| - |h| + k]) + ": " + f[|f| - |h| + k].content
           && (h[k].role == User <==> f[|f| - |h| + k].sender == "god")
  {
    var f := NonSystem(t);
    var w := if |f| <= HistoryWindow then f else f[|f| - HistoryWindow..];
    var h := BuildConversationHistory(t);
    assert |h| == |w| == Min(HistoryWindow, |f|);
    NonSystemSenders(t);
    forall k | 0 <= k < |h|
      ensures h[k].content == DisplayName(f[|f| - |h| + k]) + ": " + f[|f| - |h| + k].content
      ensures h[k].role == User <==> f[|f| - |h| + k].sender == "god"
    {
      assert h[k] == ToChat(w[k]);
      assert w[k] == f[|f| - |h| + k];
      assert f[|f| - |h| + k] in f;
    }
  }

  /** A system entry never changes what a provider is shown. */
  lemma HistoryIgnoresSystem(t: seq<Entry>, e: Entry)
    requires e.sender == "system"
    ensures BuildConversationHistory(t + [e]) == BuildConversationHistory(t)
  {
    NonSystemConcat(t, [e]);
    assert NonSystem([e]) == [];
    assert NonSystem(t + [e]) == NonSystem(t);
  }

  /** A director prompt just appended is the last message a provider sees, as a user message. */
  lemma HistoryEndsWithDirector(t: seq<Entry>, prompt: string)
    ensures var h := BuildConversationHistory(t + [DirectorEntry(prompt)]);
      |h| > 0 && h[|h| - 1] == ChatMessage(User, "god: " + prompt)
  {
    var e := DirectorEntry(prompt);
    NonSystemSnoc(t, e);
    HistoryWindowed(t + [e]);
    var f := NonSystem(t + [e]);
    assert f[|f| - 1] == e;
    assert "god" + ": " + prompt == "god: " + prompt;
  }

  // ---------------------------------------------------------------------
  // Export

  /** `[<senderName or sender>]: <content>` */
  function Block(e: Entry): string {
    "[" + DisplayName(e) + "]: " + e.content
  }

  function Blocks(t: seq<Entry>): (r: seq<string>)
    ensures |r| == |t|
    ensures forall k :: 0 <= k < |t| ==> r[k] == Block(t[k])
  {
    seq(|t|, k requires 0 <= k < |t| => Block(t[k]))
  }

  /** The readable rendering: one block per entry, separated by a blank line. */
  function ExportText(t: seq<Entry>): string {
    Join(Blocks(t), "\n\n")
  }

  /** The two export forms; the structured form carries the entries themselves. */
  datatype Exported = Json(entries: seq<Entry>) | Txt(text: string)

  /**
   * `exportTranscript(format = 'json')`: an absent format means `json`; an
   * unrecognised format yields no value.
   */
  function ExportTranscript(t: seq<Entry>, format: Option<string>): (r: Option<Exported>)
    ensures r.None? <==> format.Some? && format.value != "json" && format.value != "txt"
    ensures r.Some? && r.value.Json? ==> r.value.entries == t
    ensures r.Some? && r.value.Txt? ==> r.value.text == ExportText(t) && format == Some("txt")
    ensures format == Some("txt") ==> r == Some(Txt(ExportText(t)))
    ensures format.None? || format == Some("json") ==> r == Some(Json(t))
  {
    var f := if format.Some? then format.value else "json";
    if f == "json" then Some(Json(t))
    else if f == "txt" then Some(Txt(ExportText(t)))
    else None
  }

  /** Rendering one more entry appends a blank line and that entry's block. */
  lemma ExportTextSnoc(t: seq<Entry>, e: Entry)
    ensures ExportText(t + [e]) == if t == [] then Block(e) else ExportText(t) + "\n\n" + Block(e)
  {
    assert Blocks(t + [e]) == Blocks(t) + [Block(e)];
    JoinSnoc(Blocks(t), Block(e), "\n\n");
  }

  /** The rendering of an earlier transcript is a prefix of the rendering of a later one. */
  lemma ExportTextGrows(t: seq<Entry>, more: seq<Entry>)
    ensures StartsWith(ExportText(t + more), ExportText(t))
  {
    assert Blocks(t + more) == Blocks(t) + Blocks(more);
    JoinPrefix(Blocks(t), Blocks(more), "\n\n");
  }

  // ---------------------------------------------------------------------
  // Provider dispatch

  datatype Backend = OpenAI | Anthropic | Google

  /** The backend `getAgentResponse` selects for a provider tag, after lower-casing it. */
  function ProviderFor(provider: string): Result<Backend> {
    var p := Lower(provider);
    if p == "openai" then Ok(OpenAI)
    else if p == "anthropic" then Ok(Anthropic)
    else if p == "google" then Ok(Google)
    else Err("Unsupported provider: " + p)
  }

  /**
   * Exactly the tags `openai`, `anthropic` and `google`, in any letter case,
   * select a backend; any other tag is rejected with the lower-cased tag in
   * the message.
   */
  lemma ProviderDispatch(provider: string)
    ensures var r := ProviderFor(provider);
      && (r.Ok? <==> Lower(provider) in {"openai", "anthropic", "google"})
      && (r == Ok(OpenAI) <==> Lower(provider) == "openai")
      && (r == Ok(Anthropic) <==> Lower(provider) == "anthropic")
      && (r == Ok(Google) <==> Lower(provider) == "google")
      && (r.Err? ==> r.message == "Unsupported provider: " + Lower(provider))
  {
  }

  /** Dispatch does not depend on the case of the provider tag. */
  lemma ProviderForIgnoresCase(provider: string)
    ensures ProviderFor(Lower(provider)) == ProviderFor(provider)
  {
    LowerIdempotent(provider);
  }

  /** What the engine hands to the selected backend for one turn. */
  datatype ProviderCall = ProviderCall(
    backend: Backend,
    agent: Agent,
    systemPrompt: string,
    history: seq<ChatMessage>)

  /** `getAgentResponse` up to the network call: the backend and its inputs, or the dispatch error. */
  function AgentRequest(a: Agent, t: seq<Entry>): Result<ProviderCall> {
    var history := BuildConversationHistory(t);
    match ProviderFor(a.provider)
    case Ok(b) => Ok(ProviderCall(b, a, a.systemPrompt, history))
    case Err(m) => Err(m)
  }

  /** What the provider did with one call: returned text, or threw. */
  datatype ProviderOutcome = Success(text: string) | Failure

  // ---------------------------------------------------------------------
  // Specification of the loop

  /** The engine's mutable state; `outbox` holds what was broadcast, in order. */
  datatype Session = Session(
    transcript: seq<Entry>,
    queue: seq<string>,
    turnIndex: nat,
    running: bool,
    outbox: seq<Entry>)

  /** What one iteration did for the agent whose turn it was. */
  datatype Turn =
    | Spoke(agent: Agent, call: ProviderCall, response: string)
    | Failed(agent: Agent, request: Option<ProviderCall>)
    | Aborted   // no agent at all: the loop throws out of its error handler

  datatype Tick = Tick(next: Session, turn: Turn)

  /** Step (1) of an iteration: move the head of the director queue into the transcript. */
  function DrainDirector(s: Session): Session {
    if |s.queue| > 0 then
      var e := DirectorEntry(s.queue[0]);
      s.(queue := s.queue[1..], transcript := s.transcript + [e], outbox := s.outbox + [e])
    else s
  }

  /** The entry a turn appends: the agent's reply, or the error notice. */
  function TurnEntry(turn: Turn): Entry
    requires !turn.Aborted?
  {
    if turn.Spoke? then AgentEntry(turn.agent, turn.response) else ErrorEntry(turn.agent)
  }

  /**
   * Steps (2) and (3) of an iteration on the drained state `d`: pick the
   * agent at `turnIndex` modulo the number of agents and ask its provider,
   * with `o` standing for the provider call. The turn succeeds exactly when
   * the provider tag is supported and the call returned text.
   */
  function TakeTurn(agents: seq<Agent>, d: Session, o: ProviderOutcome): (turn: Turn)
    ensures turn.Aborted? <==> |agents| == 0
    ensures !turn.Aborted? ==>
      var request := AgentRequest(turn.agent, d.transcript);
      && turn.agent == agents[d.turnIndex % |agents|]
      && (turn.Spoke? <==> request.Ok? && o.Success?)
      && (turn.Spoke? ==> turn.response == o.text && turn.call == request.value)
      && (turn.Failed? ==> turn.request == if request.Ok? then Some(request.value) else None)
  {
    if |agents| == 0 then Aborted
    else
      var a := agents[d.turnIndex % |agents|];
      match AgentRequest(a, d.transcript)
      case Err(_) => Failed(a, None)
      case Ok(call) =>
        match o
        case Success(text) => Spoke(a, call, text)
        case Failure => Failed(a, Some(call))
  }

  /**
   * Step (4): record a turn. A successful turn appends the agent's entry,
   * broadcasts it and advances the index; a failed one appends the error
   * notice only and leaves the index where it was.
   */
  function Record(d: Session, turn: Turn): (n: Session)
    ensures n.queue == d.queue && n.running == d.running
  {
    match turn
    case Aborted => d
    case Failed(_, _) =>
      d.(transcript := d.transcript + [TurnEntry(turn)])
    case Spoke(_, _, _) =>
      d.(transcript := d.transcript + [TurnEntry(turn)], outbox := d.outbox + [TurnEntry(turn)],
         turnIndex := d.turnIndex + 1)
  }

  /** One iteration of the loop body. */
  function Iteration(agents: seq<Agent>, s: Session, o: ProviderOutcome): (t: Tick)
    ensures t.next.running == s.running
  {
    var d := DrainDirector(s);
    var turn := TakeTurn(agents, d, o);
    Tick(Record(d, turn), turn)
  }

  /**
   * Order within one iteration: the old transcript is kept, the drained
   * director prompt comes first, then the turn's own entry.
   */
  lemma IterationOrder(agents: seq<Agent>, s: Session, o: ProviderOutcome)
    ensures var t := Iteration(agents, s, o);
      var base := |s.transcript| + (if |s.queue| > 0 then 1 else 0);
      && IsPrefix(s.transcript, t.next.transcript)
      && (|s.queue| > 0 ==>
            t.next.queue == s.queue[1..] && t.next.transcript[|s.transcript|] == DirectorEntry(s.queue[0]))
      && (|s.queue| == 0 ==> t.next.queue == [])
      && |t.next.transcript| == base + (if t.turn.Aborted? then 0 else 1)
      && (!t.turn.Aborted? ==> t.next.transcript[base] == TurnEntry(t.turn))
  {
  }

  /**
   * The speaking agent's provider is shown the transcript as it stands after
   * the drain, so a director prompt drained in the same iteration is the last
   * message it sees, whether the call then answers or throws.
   */
  lemma IterationShowsDirector(agents: seq<Agent>, s: Session, o: ProviderOutcome)
    requires |s.queue| > 0
    ensures var t := Iteration(agents, s, o);
      t.turn.Spoke? ==>
        var h := t.turn.call.history;
        |h| > 0 && h[|h| - 1] == ChatMessage(User, "god: " + s.queue[0])
    ensures var t := Iteration(agents, s, o);
      t.turn.Failed? && t.turn.request.Some? ==>
        var h := t.turn.request.value.history;
        |h| > 0 && h[|h| - 1] == ChatMessage(User, "god: " + s.queue[0])
  {
    HistoryEndsWithDirector(s.transcript, s.queue[0]);
  }

  /** A run of the loop: the final state and one `Turn` per iteration. */
  datatype Trace = Trace(final: Session, turns: seq<Turn>)

  /**
   * `while (this.isRunning)`, one iteration per outcome in `os`: the run ends
   * when the engine is not running, when the outcomes are used up (the point
   * at which `stop` arrives), or when an iteration aborts.
   */
  function RunLoop(agents: seq<Agent>, s: Session, os: seq<ProviderOutcome>): Trace
    decreases |os|
  {
    if !s.running || os == [] then Trace(s, [])
    else
      var t := Iteration(agents, s, os[0]);
      if t.turn.Aborted? then Trace(t.next, [t.turn])
      else
        var rest := RunLoop(agents, t.next, os[1..]);
        Trace(rest.final, [t.turn] + rest.turns)
  }

  /** The loop's accumulated turns followed by the rest of the run: one iteration moves a turn across. */
  lemma RunLoopStep(agents: seq<Agent>, s: Session, os: seq<ProviderOutcome>, turns: seq<Turn>, whole: Trace)
    requires s.running && os != []
    requires var rest := RunLoop(agents, s, os); Trace(rest.final, turns + rest.turns) == whole
    ensures var t := Iteration(agents, s, os[0]);
      if t.turn.Aborted? then Trace(t.next, turns + [t.turn]) == whole
      else var rest := RunLoop(agents, t.next, os[1..]); Trace(rest.final, (turns + [t.turn]) + rest.turns) == whole
  {
    var t := Iteration(agents, s, os[0]);
    if !t.turn.Aborted? {
      var rest := RunLoop(agents, t.next, os[1..]);
      assert turns + ([t.turn] + rest.turns) == (turns + [t.turn]) + rest.turns;
    }
  }

  /** The state `start` establishes before entering the loop. */
  function Opened(s: Session, scenario: string, initialPrompt: string): (o: Session)
    ensures o.running && o.turnIndex == 0 && o.queue == s.queue && o.outbox == s.outbox
    ensures o.transcript == s.transcript + [SystemEntry("Scenario: " + scenario), SystemEntry(initialPrompt)]
  {
    s.(running := true, turnIndex := 0,
       transcript := s.transcript + [SystemEntry("Scenario: " + scenario), SystemEntry(initialPrompt)])
  }

  // ---------------------------------------------------------------------
  // Properties of a run

  /** The loop only ever appends to the transcript. */
  lemma {:induction false} RunExtendsTranscript(agents: seq<Agent>, s: Session, os: seq<ProviderOutcome>)
    ensures IsPrefix(s.transcript, RunLoop(agents, s, os).final.transcript)
    decreases |os|
  {
    if s.running && os != [] {
      var t := Iteration(agents, s, os[0]);
      IterationOrder(agents, s, os[0]);
      if !t.turn.Aborted? {
        RunExtendsTranscript(agents, t.next, os[1..]);
        IsPrefixTrans(s.transcript, t.next.transcript, RunLoop(agents, t.next, os[1..]).final.transcript);
      }
    }
  }

  /** The director prompts of a transcript, in order. */
  function Directives(t: seq<Entry>): seq<string>
    decreases |t|
  {
    if t == [] then []
    else
      var last := t[|t| - 1];
      Directives(t[..|t| - 1]) + (if last.sender == "god" then [last.content] else [])
  }

  lemma DirectivesSnoc(t: seq<Entry>, e: Entry)
    ensures Directives(t + [e]) == Directives(t) + (if e.sender == "god" then [e.content] else [])
  {
    assert (t + [e])[..|t|] == t;
  }

  /** No agent speaks under the director's sender tag. */
  ghost predicate NoDirectorImpersonation(agents: seq<Agent>) {
    forall i :: 0 <= i < |agents| ==> agents[i].id != "god"
  }

  lemma DrainKeepsDirectives(s: Session)
    ensures var d := DrainDirector(s);
      Directives(d.transcript) + d.queue == Directives(s.transcript) + s.queue
  {
    if |s.queue| > 0 {
      var d := DrainDirector(s);
      var p := s.queue[0];
      assert d.transcript == s.transcript + [DirectorEntry(p)] && d.queue == s.queue[1..];
      DirectivesSnoc(s.transcript, DirectorEntry(p));
      assert Directives(d.transcript) == Directives(s.transcript) + [p];
      assert s.queue == [p] + d.queue;
      assert Directives(d.transcript) + d.queue == Directives(s.transcript) + ([p] + d.queue);
    }
  }

  lemma RecordKeepsDirectives(d: Session, turn: Turn)
    requires !turn.Aborted? ==> turn.agent.id != "god"
    ensures Directives(Record(d, turn).transcript) == Directives(d.transcript)
  {
    if !turn.Aborted? {
      DirectivesSnoc(d.transcript, TurnEntry(turn));
    }
  }

  lemma IterationKeepsDirectives(agents: seq<Agent>, s: Session, o: ProviderOutcome)
    requires NoDirectorImpersonation(agents)
    ensures var n := Iteration(agents, s, o).next;
      Directives(n.transcript) + n.queue == Directives(s.transcript) + s.queue
  {
    var d := DrainDirector(s);
    DrainKeepsDirectives(s);
    RecordKeepsDirectives(d, TakeTurn(agents, d, o));
  }

  /**
   * Director prompts are neither lost nor reordered: the prompts already in
   * the transcript followed by those still queued are the same before and
   * after any run.
   */
  lemma {:induction false} RunKeepsDirectives(agents: seq<Agent>, s: Session, os: seq<ProviderOutcome>)
    requires NoDirectorImpersonation(agents)
    ensures var f := RunLoop(agents, s, os).final;
      Directives(f.transcript) + f.queue == Directives(s.transcript) + s.queue
    decreases |os|
  {
    if s.running && os != [] {
      var t := Iteration(agents, s, os[0]);
      IterationKeepsDirectives(agents, s, os[0]);
      if !t.turn.Aborted? {
        RunKeepsDirectives(agents, t.next, os[1..]);
      }
    }
  }

  /** The number of successful turns. */
  function Successes(turns: seq<Turn>): (n: nat)
    ensures n <= |turns|
    decreases |turns|
  {
    if turns == [] then 0
    else Successes(turns[..|turns| - 1]) + (if turns[|turns| - 1].Spoke? then 1 else 0)
  }

  lemma {:induction false} SuccessesCons(t: Turn, rest: seq<Turn>)
    ensures Successes([t] + rest) == (if t.Spoke? then 1 else 0) + Successes(rest)
    decreases |rest|
  {
    if rest != [] {
      var init := rest[..|rest| - 1];
      assert ([t] + rest)[..|rest|] == [t] + init;
      assert ([t] + rest)[|rest|] == rest[|rest| - 1];
      SuccessesCons(t, init);
    }
  }

  /**
   * Each turn went to the agent at the current index `i` modulo the number
   * of agents, and only a successful turn moved the index on.
   */
  ghost predicate RoundRobin(agents: seq<Agent>, i: nat, turns: seq<Turn>)
    decreases |turns|
  {
    turns == [] ||
    (&& (!turns[0].Aborted? ==> 0 < |agents| && turns[0].agent == agents[i % |agents|])
     && RoundRobin(agents, i + (if turns[0].Spoke? then 1 else 0), turns[1..]))
  }

  /** Turn `k` went to the agent at `i0 + (successful turns before k)`, modulo the number of agents. */
  ghost predicate RoundRobinFrom(agents: seq<Agent>, i0: nat, turns: seq<Turn>) {
    forall k :: 0 <= k < |turns| && !turns[k].Aborted? ==>
      0 < |agents| && turns[k].agent == agents[(i0 + Successes(turns[..k])) % |agents|]
  }

  lemma RoundRobinCons(agents: seq<Agent>, i0: nat, first: Turn, rest: seq<Turn>)
    requires !first.Aborted? ==> 0 < |agents| && first.agent == agents[i0 % |agents|]
    requires RoundRobinFrom(agents, i0 + (if first.Spoke? then 1 else 0), rest)
    ensures RoundRobinFrom(agents, i0, [first] + rest)
  {
    var turns := [first] + rest;
    var i1 := i0 + (if first.Spoke? then 1 else 0);
    forall k | 0 <= k < |turns| && !turns[k].Aborted?
      ensures 0 < |agents| && turns[k].agent == agents[(i0 + Successes(turns[..k])) % |agents|]
    {
      if k == 0 {
        assert turns[..0] == [];
      } else {
        var j := k - 1;
        assert turns[..k] == [first] + rest[..j];
        SuccessesCons(first, rest[..j]);
        assert turns[k] == rest[j];
        assert 0 < |agents| && rest[j].agent == agents[(i1 + Successes(rest[..j])) % |agents|];
        assert i0 + Successes(turns[..k]) == i1 + Successes(rest[..j]);
      }
    }
  }

  /** One iteration advances the index exactly when the turn succeeds, and picks the agent at that index. */
  lemma IterationAdvance(agents: seq<Agent>, s: Session, o: ProviderOutcome)
    ensures var t := Iteration(agents, s, o);
      && t.next.turnIndex == s.turnIndex + (if t.turn.Spoke? then 1 else 0)
      && (!t.turn.Aborted? ==> 0 < |agents| && t.turn.agent == agents[s.turnIndex % |agents|])
  {
  }

  /** The final index has advanced by the number of successful turns only. */
  lemma {:induction false} RunAdvances(agents: seq<Agent>, s: Session, os: seq<ProviderOutcome>)
    ensures var r := RunLoop(agents, s, os);
      r.final.turnIndex == s.turnIndex + Successes(r.turns)
    decreases |os|
  {
    if s.running && os != [] {
      var t := Iteration(agents, s, os[0]);
      IterationAdvance(agents, s, os[0]);
      if t.turn.Aborted? {
        assert [t.turn][..0] == [];
      } else {
        RunAdvances(agents, t.next, os[1..]);
        SuccessesCons(t.turn, RunLoop(agents, t.next, os[1..]).turns);
      }
    }
  }

  /**
   * Round robin as written: each turn of a run belongs to the agent at the
   * current index, which only a successful turn advances.
   */
  lemma {:induction false} RunRoundRobin(agents: seq<Agent>, s: Session, os: seq<ProviderOutcome>)
    ensures RoundRobin(agents, s.turnIndex, RunLoop(agents, s, os).turns)
    decreases |os|
  {
    if s.running && os != [] {
      var t := Iteration(agents, s, os[0]);
      IterationAdvance(agents, s, os[0]);
      if !t.turn.Aborted? {
        var rest := RunLoop(agents, t.next, os[1..]).turns;
        RunRoundRobin(agents, t.next, os[1..]);
        assert ([t.turn] + rest)[1..] == rest;
      }
    }
  }

  /** In a round-robin run, turn `k` went to the agent at `i0 + (successful turns before k)`. */
  lemma {:induction false} RoundRobinIndexed(agents: seq<Agent>, i0: nat, turns: seq<Turn>)
    requires RoundRobin(agents, i0, turns)
    ensures RoundRobinFrom(agents, i0, turns)
    decreases |turns|
  {
    if turns != [] {
      var first := turns[0];
      var rest := turns[1..];
      RoundRobinIndexed(agents, i0 + (if first.Spoke? then 1 else 0), rest);
      assert turns == [first] + rest;
      RoundRobinCons(agents, i0, first, rest);
    }
  }

  /** Turn `k` of a run belongs to the agent at `turnIndex + (successful turns before k)`. */
  lemma RunRoundRobinIndexed(agents: seq<Agent>, s: Session, os: seq<ProviderOutcome>)
    ensures RoundRobinFrom(agents, s.turnIndex, RunLoop(agents, s, os).turns)
  {
    RunRoundRobin(agents, s, os);
    RoundRobinIndexed(agents, s.turnIndex, RunLoop(agents, s, os).turns);
  }

  /**
   * A failed turn does not advance the index, so an agent whose provider tag
   * is unsupported is retried in every iteration and nobody else speaks.
   */
  lemma {:induction false} UnsupportedProviderRetried(agents: seq<Agent>, s: Session, os: seq<ProviderOutcome>)
    requires |agents| > 0
    requires ProviderFor(agents[s.turnIndex % |agents|].provider).Err?
    ensures var r := RunLoop(agents, s, os);
      && r.final.turnIndex == s.turnIndex
      && forall k :: 0 <= k < |r.turns| ==> r.turns[k] == Failed(agents[s.turnIndex % |agents|], None)
    decreases |os|
  {
    if s.running && os != [] {
      var t := Iteration(agents, s, os[0]);
      UnsupportedProviderRetried(agents, t.next, os[1..]);
    }
  }

  /** No agent speaks under the system sender tag. */
  ghost predicate NoSystemImpersonation(agents: seq<Agent>) {
    forall i :: 0 <= i < |agents| ==> agents[i].id != "system"
  }

  /** The filter on a single entry. */
  lemma NonSystemSingle(e: Entry)
    ensures NonSystem([e]) == if e.sender == "system" then [] else [e]
  {
    NonSystemSnoc([], e);
    assert [] + [e] == [e];
  }

  /** Session `n` broadcast exactly the non-system entries it appended to the transcript of `s`. */
  ghost predicate BroadcastsSince(s: Session, n: Session) {
    IsPrefix(s.transcript, n.transcript) && n.outbox == s.outbox + NonSystem(n.transcript[|s.transcript|..])
  }

  /** Two stages that each broadcast what they append together broadcast what they append. */
  lemma BroadcastsCompose(a: Session, b: Session, c: Session)
    requires BroadcastsSince(a, b) && BroadcastsSince(b, c)
    ensures BroadcastsSince(a, c)
  {
    IsPrefixTrans(a.transcript, b.transcript, c.transcript);
    var first := b.transcript[|a.transcript|..];
    var second := c.transcript[|b.transcript|..];
    SuffixSplit(a.transcript, b.transcript, c.transcript);
    NonSystemConcat(first, second);
    assert c.outbox == (a.outbox + NonSystem(first)) + NonSystem(second);
  }

  lemma DrainBroadcasts(s: Session)
    ensures BroadcastsSince(s, DrainDirector(s))
  {
    var d := DrainDirector(s);
    if |s.queue| > 0 {
      var e := DirectorEntry(s.queue[0]);
      assert d.transcript == s.transcript + [e] && d.outbox == s.outbox + [e];
      assert d.transcript[|s.transcript|..] == [e];
      NonSystemSingle(e);
    } else {
      assert d.transcript[|s.transcript|..] == [];
    }
  }

  lemma RecordBroadcasts(d: Session, turn: Turn)
    requires !turn.Aborted? ==> turn.agent.id != "system"
    ensures BroadcastsSince(d, Record(d, turn))
  {
    var n := Record(d, turn);
    if turn.Aborted? {
      assert n.transcript[|d.transcript|..] == [];
    } else {
      var e := TurnEntry(turn);
      assert n.transcript == d.transcript + [e];
      assert n.transcript[|d.transcript|..] == [e];
      NonSystemSingle(e);
      assert n.outbox == d.outbox + (if turn.Spoke? then [e] else []);
    }
  }

  lemma IterationBroadcasts(agents: seq<Agent>, s: Session, o: ProviderOutcome)
    requires NoSystemImpersonation(agents)
    ensures BroadcastsSince(s, Iteration(agents, s, o).next)
  {
    var d := DrainDirector(s);
    var turn := TakeTurn(agents, d, o);
    DrainBroadcasts(s);
    if !turn.Aborted? {
      assert turn.agent.id != "system";
    }
    RecordBroadcasts(d, turn);
    BroadcastsCompose(s, d, Record(d, turn));
  }

  /**
   * Observers are sent exactly the director and agent entries of a run, in
   * transcript order; system and error entries are never broadcast.
   */
  lemma {:induction false} RunBroadcasts(agents: seq<Agent>, s: Session, os: seq<ProviderOutcome>)
    requires NoSystemImpersonation(agents)
    ensures BroadcastsSince(s, RunLoop(agents, s, os).final)
    decreases |os|
  {
    if !s.running || os == [] {
      assert s.transcript[|s.transcript|..] == [];
    } else {
      var n := Iteration(agents, s, os[0]).next;
      IterationBroadcasts(agents, s, os[0]);
      if !Iteration(agents, s, os[0]).turn.Aborted? {
        RunBroadcasts(agents, n, os[1..]);
        BroadcastsCompose(s, n, RunLoop(agents, n, os[1..]).final);
      }
    }
  }

  // ---------------------------------------------------------------------
  // The engine

  class Engine {
    const agents: seq<Agent>
    const scenario: string
    const initialPrompt: string
    var transcript: seq<Entry>
    var isRunning: bool
    var currentTurnIndex: nat
    var godModeQueue: seq<string>
    var outbox: seq<Entry>

    function State(): Session
      reads this
    {
      Session(transcript, godModeQueue, currentTurnIndex, isRunning, outbox)
    }

    constructor (agents: seq<Agent>, scenario: string, initialPrompt: string)
      ensures this.agents == agents && this.scenario == scenario && this.initialPrompt == initialPrompt
      ensures State() == Session([], [], 0, false, [])
    {
      this.agents := agents;
      this.scenario := scenario;
      this.initialPrompt := initialPrompt;
      transcript := [];
      isRunning := false;
      currentTurnIndex := 0;
      godModeQueue := [];
      outbox := [];
    }

    /** `start`: open the session and run the loop, one iteration per outcome. */
    method Start(outcomes: seq<ProviderOutcome>) returns (turns: seq<Turn>)
      modifies this
      ensures Trace(State(), turns) == RunLoop(agents, Opened(old(State()), scenario, initialPrompt), outcomes)
    {
      isRunning := true;
      currentTurnIndex := 0;
      AddMessageToTranscript(SystemEntry("Scenario: " + scenario));
      AddMessageToTranscript(SystemEntry(initialPrompt));
      assert State() == Opened(old(State()), scenario, initialPrompt);
      turns := OrchestrationLoop(outcomes);
    }

    /** `stop`: clears the running flag and nothing else. */
    method Stop()
      modifies this`isRunning
      ensures State() == old(State()).(running := false)
    {
      isRunning := false;
    }

    /** One iteration of the loop body. */
    method Step(outcome: ProviderOutcome) returns (turn: Turn)
      modifies this
      ensures var t := Iteration(agents, old(State()), outcome);
        State() == t.next && turn == t.turn
    {
      if |godModeQueue| > 0 {
        var prompt := godModeQueue[0];
        godModeQueue := godModeQueue[1..];
        AddMessageToTranscript(DirectorEntry(prompt));
        outbox := outbox + [DirectorEntry(prompt)];
      }
      if |agents| == 0 {
        turn := Aborted;
        return;
      }
      var agent := agents[currentTurnIndex % |agents|];
      match AgentRequest(agent, transcript) {
        case Err(_) =>
          AddMessageToTranscript(ErrorEntry(agent));
          turn := Failed(agent, None);
        case Ok(call) =>
          match outcome {
            case Success(text) =>
              AddMessageToTranscript(AgentEntry(agent, text));
              outbox := outbox + [AgentEntry(agent, text)];
              currentTurnIndex := currentTurnIndex + 1;
              turn := Spoke(agent, call, text);
            case Failure =>
              AddMessageToTranscript(ErrorEntry(agent));
              turn := Failed(agent, Some(call));
          }
      }
    }

    /** `orchestrationLoop`, bounded by the outcomes of the provider calls. */
    method OrchestrationLoop(outcomes: seq<ProviderOutcome>) returns (turns: seq<Turn>)
      modifies this
      ensures Trace(State(), turns) == RunLoop(agents, old(State()), outcomes)
    {
      turns := [];
      var i := 0;
      var aborted := false;
      while isRunning && i < |outcomes| && !aborted
        invariant 0 <= i <= |outcomes|
        invariant aborted ==> Trace(State(), turns) == RunLoop(agents, old(State()), outcomes)
        invariant !aborted ==>
          var rest := RunLoop(agents, State(), outcomes[i..]);
          Trace(rest.final, turns + rest.turns) == RunLoop(agents, old(State()), outcomes)
        decreases |outcomes| - i
      {
        RunLoopStep(agents, State(), outcomes[i..], turns, RunLoop(agents, old(State()), outcomes));
        assert outcomes[i..][1..] == outcomes[i + 1..];
        var turn := Step(outcomes[i]);
        turns := turns + [turn];
        aborted := turn.Aborted?;
        i := i + 1;
      }
      if !aborted {
        assert RunLoop(agents, State(), outcomes[i..]) == Trace(State(), []);
        assert turns + [] == turns;
      }
    }

    /** `addMessageToTranscript` */
    method AddMessageToTranscript(e: Entry)
      modifies this`transcript
      ensures transcript == old(transcript) + [e]
    {
      transcript := transcript + [e];
    }

    /** `injectGodModePrompt`: queue a director prompt behind those already waiting. */
    method InjectGodModePrompt(prompt: string)
      modifies this`godModeQueue
      ensures godModeQueue == old(godModeQueue) + [prompt]
    {
      godModeQueue := godModeQueue + [prompt];
    }

    /** `getTranscript` */
    method GetTranscript() returns (t: seq<Entry>)
      ensures t == transcript
    {
      t := transcript;
    }
  }
}
