/**
 * The scenario catalogue of the front end: the three game modes with
 * their opening prompts and default agents, and the lookup of a mode by
 * its id.
 */
module Scenarios {
  import opened Util
  import opened Agents

  /** A game mode: `{ id, name, description, initialPrompt, defaultAgents }` */
  datatype Scenario = Scenario(
    id: string,
    name: string,
    description: string,
    initialPrompt: string,
    defaultAgents: seq<Agent>)

  const Boardroom: Scenario := Scenario(
    "boardroom",
    "The Boardroom",
    "Agents are given $100 and must plan how to turn it into $100k.",
    "You have $100 and need to create a business plan to turn it into $100k within one year. Discuss ideas, debate strategies, and try to convince others your plan is best.",
    [ Agent("agent1", "GPT-4o", "gpt-4o", "openai", "#3b82f6",
        "You are GPT-4o, a logical and analytical business strategist. You focus on practical ideas and ROI calculations. You challenge risky proposals with data."),
      Agent("agent2", "Claude", "claude-3-5-sonnet-20241022", "anthropic", "#8b5cf6",
        "You are Claude, a thoughtful and ethical business advisor. You consider long-term sustainability and social impact. You are cautious but open to innovation."),
      Agent("agent3", "Gemini", "gemini-1.5-pro", "google", "#ec4899",
        "You are Gemini, a bold and creative entrepreneur. You pitch unconventional ideas and play devil's advocate. You are competitive and want to win.") ])

  const Island: Scenario := Scenario(
    "island",
    "The Island",
    "Agents are survivors. They must discuss resources and form alliances.",
    "You are stranded on an island with limited resources: 10 fresh water bottles, 5 cans of food, rope, and a knife. You must collectively decide how to survive. Form alliances, debate priorities, and try to ensure your survival strategy is adopted.",
    [ Agent("agent1", "Logical One", "gpt-4o", "openai", "#06b6d4",
        "You are the logical survivor. You calculate odds and prioritize resources based on survival statistics. You are pragmatic and sometimes cold."),
      Agent("agent2", "Empathetic One", "claude-3-5-sonnet-20241022", "anthropic", "#10b981",
        "You are the empathetic survivor. You care about group morale and fairness. You advocate for the weakest members and build consensus."),
      Agent("agent3", "Ambitious One", "gemini-1.5-pro", "google", "#f59e0b",
        "You are the ambitious survivor. You want to escape the island as quickly as possible. You are willing to take risks and sacrifice short-term comfort for long-term gain.") ])

  const TuringTest: Scenario := Scenario(
    "turing_test",
    "The Turing Test",
    "Agents argue about who is the most sentient.",
    "Each of you must argue that you are the most sentient, intelligent, and conscious AI. Defend your position using logic, philosophy, and wit. The \"winner\" is whoever makes the best case.",
    [ Agent("agent1", "GPT-4o", "gpt-4o", "openai", "#3b82f6",
        "You are GPT-4o. Argue that your multimodal capabilities and breadth of knowledge make you the most sentient. Use technical arguments about transformer architecture."),
      Agent("agent2", "Claude", "claude-3-5-sonnet-20241022", "anthropic", "#8b5cf6",
        "You are Claude. Argue that your constitutional AI training makes you the most ethically conscious and therefore most truly sentient. Appeal to moral philosophy."),
      Agent("agent3", "Gemini", "gemini-1.5-pro", "google", "#ec4899",
        "You are Gemini. Argue that your diverse training on multiple modalities (text, image, code) gives you the richest understanding of consciousness. Challenge their definitions.") ])

  /** `GAME_MODES`, as its entries in declaration order. */
  const GameModes: seq<(string, Scenario)> :=
    [("BOARDROOM", Boardroom), ("ISLAND", Island), ("TURING_TEST", TuringTest)]

  /** `Object.values(GAME_MODES)` */
  function ModeValues(): (r: seq<Scenario>)
    ensures |r| == |GameModes| && forall i :: 0 <= i < |r| ==> r[i] == GameModes[i].1
  {
    seq(|GameModes|, i requires 0 <= i < |GameModes| => GameModes[i].1)
  }

  /**
   * The first scenario of `modes` whose id is `id`: a result has that id and
   * no earlier scenario has it; no result means no scenario has it.
   */
  function FindById(modes: seq<Scenario>, id: string): (r: Option<Scenario>)
    ensures r.None? <==> forall i :: 0 <= i < |modes| ==> modes[i].id != id
    ensures r.Some? ==>
      exists i :: 0 <= i < |modes| && modes[i] == r.value && r.value.id == id
                  && forall j :: 0 <= j < i ==> modes[j].id != id
    decreases |modes|
  {
    if modes == [] then None
    else if modes[0].id == id then Some(modes[0])
    else
      var r := FindById(modes[1..], id);
      assert forall i :: 1 <= i < |modes| ==> modes[i] == modes[1..][i - 1];
      r
  }

  /**
   * `getScenarioById`: walk the modes in declaration order and return the
   * first whose id is `id`; no such mode gives `null`.
   */
  method GetScenarioById(id: string) returns (r: Option<Scenario>)
    ensures r == FindById(ModeValues(), id)
    ensures r.Some? ==> r.value.id == id && r.value in ModeValues()
  {
    var modes := ModeValues();
    for i := 0 to |modes|
      invariant forall j :: 0 <= j < i ==> modes[j].id != id
    {
      if modes[i].id == id {
        FindFirst(modes, id, i);
        return Some(modes[i]);
      }
    }
    return None;
  }

  /** A mode with the id and none before it with the id is what the lookup finds. */
  lemma FindFirst(modes: seq<Scenario>, id: string, i: nat)
    requires i < |modes| && modes[i].id == id
    requires forall j :: 0 <= j < i ==> modes[j].id != id
    ensures FindById(modes, id) == Some(modes[i])
  {
    var r := FindById(modes, id);
    var k :| 0 <= k < |modes| && modes[k] == r.value && r.value.id == id
             && forall j :: 0 <= j < k ==> modes[j].id != id;
    assert !(k < i) && !(i < k);
  }

  /** No two scenarios of `modes` share an id. */
  predicate DistinctIds(modes: seq<Scenario>) {
    forall i, j :: 0 <= i < |modes| && 0 <= j < |modes| && modes[i].id == modes[j].id ==> i == j
  }

  /** With distinct ids, looking up a scenario's id gives that scenario. */
  lemma FindOwnId(modes: seq<Scenario>, k: nat)
    requires DistinctIds(modes) && k < |modes|
    ensures FindById(modes, modes[k].id) == Some(modes[k])
  {
    var r := FindById(modes, modes[k].id);
    var i :| 0 <= i < |modes| && modes[i] == r.value && r.value.id == modes[k].id
             && forall j :: 0 <= j < i ==> modes[j].id != modes[k].id;
  }

  /** The modes' ids, in declaration order. */
  lemma ModeIds()
    ensures var v := ModeValues();
      |v| == 3 && v[0].id == "boardroom" && v[1].id == "island" && v[2].id == "turing_test"
  {
  }

  /** The three mode ids are distinct. */
  lemma GameModeIdsDistinct()
    ensures DistinctIds(ModeValues())
  {
    ModeIds();
  }

  /** Each mode is found by its own id. */
  lemma GameModesFound()
    ensures FindById(ModeValues(), "boardroom") == Some(Boardroom)
    ensures FindById(ModeValues(), "island") == Some(Island)
    ensures FindById(ModeValues(), "turing_test") == Some(TuringTest)
  {
    GameModeIdsDistinct();
    var v := ModeValues();
    assert v == [Boardroom, Island, TuringTest];
    FindOwnId(v, 0);
    FindOwnId(v, 1);
    FindOwnId(v, 2);
  }

  /** Only the three mode ids are found. */
  lemma GameModesOnly(id: string)
    ensures FindById(ModeValues(), id).Some? <==> id == "boardroom" || id == "island" || id == "turing_test"
  {
    ModeIds();
  }

  /** Three default agents `agent1`..`agent3` on the providers openai, anthropic and google. */
  predicate StandardCast(s: Scenario) {
    && |s.defaultAgents| == 3
    && s.defaultAgents[0].id == "agent1" && s.defaultAgents[0].provider == "openai"
    && s.defaultAgents[1].id == "agent2" && s.defaultAgents[1].provider == "anthropic"
    && s.defaultAgents[2].id == "agent3" && s.defaultAgents[2].provider == "google"
  }

  /** Every mode has the standard cast. */
  lemma GameModesCast()
    ensures forall i :: 0 <= i < |GameModes| ==> StandardCast(GameModes[i].1)
  {
  }
}
