/** The configured models and agents, the listings `get_models` and
    `get_agents` (src/t5.py) print, and the first-match lookup by name that
    `/m <name>` and `/a <name>` use. */
module Catalog {
  import opened Wrappers
  import opened PyStr

  /** One `[[models]]` entry of the configuration. */
  datatype ModelEntry = ModelEntry(id: string, name: string)

  /** Where an agent's prompt comes from: the `prompt` key, else the
      `prompt_file` key, else neither. */
  datatype AgentPrompt = Inline(text: string) | PromptFile(path: string) | NoPrompt

  /** One `[[agents]]` entry of the configuration. */
  datatype AgentEntry = AgentEntry(name: string, prompt: AgentPrompt)

  const CURRENT_TAG := "<<< CURRENT"
  const MODELS_HEADER := "当前可用模型有："
  const AGENTS_HEADER := "当前可用 agent 有："

  function Tag(current: bool): string {
    if current then CURRENT_TAG else ""
  }

  /** A model's line: its id, then its short name labelled `id=`. */
  function ModelLine(m: ModelEntry, current: string): string {
    m.id + " (id=" + m.name + ") " + Tag(m.id == current)
  }

  /** An agent's line: its name twice. */
  function AgentLine(a: AgentEntry, current: string): string {
    a.name + " (name=" + a.name + ") " + Tag(a.name == current)
  }

  function ModelLines(models: seq<ModelEntry>, current: string): seq<string> {
    if models == [] then []
    else ModelLines(models[..|models| - 1], current) + [ModelLine(models[|models| - 1], current)]
  }

  function AgentLines(agents: seq<AgentEntry>, current: string): seq<string> {
    if agents == [] then []
    else AgentLines(agents[..|agents| - 1], current) + [AgentLine(agents[|agents| - 1], current)]
  }

  /** `get_models`: the header line, then one line per model, joined by
      newlines. */
  method GetModels(models: seq<ModelEntry>, current: string) returns (text: string)
    ensures text == Join([MODELS_HEADER] + ModelLines(models, current), "\n")
  {
    var msgs := [MODELS_HEADER];
    for i := 0 to |models|
      invariant msgs == [MODELS_HEADER] + ModelLines(models[..i], current)
    {
      assert models[..i + 1][..i] == models[..i];
      msgs := msgs + [ModelLine(models[i], current)];
    }
    assert models[..|models|] == models;
    text := Join(msgs, "\n");
  }

  /** `get_agents`: the header line, then one line per agent, joined by
      newlines. */
  method GetAgents(agents: seq<AgentEntry>, current: string) returns (text: string)
    ensures text == Join([AGENTS_HEADER] + AgentLines(agents, current), "\n")
  {
    var msgs := [AGENTS_HEADER];
    for i := 0 to |agents|
      invariant msgs == [AGENTS_HEADER] + AgentLines(agents[..i], current)
    {
      assert agents[..i + 1][..i] == agents[..i];
      msgs := msgs + [AgentLine(agents[i], current)];
    }
    assert agents[..|agents|] == agents;
    text := Join(msgs, "\n");
  }

  /** The first model whose short name is `name`. */
  function FirstModelNamed(models: seq<ModelEntry>, name: string): (r: Option<nat>)
    ensures r.Some? ==> r.value < |models| && models[r.value].name == name
    ensures r.Some? ==> forall j :: 0 <= j < r.value ==> models[j].name != name
    ensures r.None? ==> forall j :: 0 <= j < |models| ==> models[j].name != name
  {
    if models == [] then None
    else if models[0].name == name then Some(0)
    else match FirstModelNamed(models[1..], name)
      case None => None
      case Some(k) => Some(k + 1)
  }

  /** The first agent whose name is `name`. */
  function FirstAgentNamed(agents: seq<AgentEntry>, name: string): (r: Option<nat>)
    ensures r.Some? ==> r.value < |agents| && agents[r.value].name == name
    ensures r.Some? ==> forall j :: 0 <= j < r.value ==> agents[j].name != name
    ensures r.None? ==> forall j :: 0 <= j < |agents| ==> agents[j].name != name
  {
    if agents == [] then None
    else if agents[0].name == name then Some(0)
    else match FirstAgentNamed(agents[1..], name)
      case None => None
      case Some(k) => Some(k + 1)
  }

  // ---------------------------------------------------------------------
  // Properties

  lemma {:induction false} ModelLinesAt(models: seq<ModelEntry>, current: string)
    ensures |ModelLines(models, current)| == |models|
    ensures forall i :: 0 <= i < |models| ==> ModelLines(models, current)[i] == ModelLine(models[i], current)
    decreases |models|
  {
    if models != [] {
      ModelLinesAt(models[..|models| - 1], current);
    }
  }

  lemma {:induction false} AgentLinesAt(agents: seq<AgentEntry>, current: string)
    ensures |AgentLines(agents, current)| == |agents|
    ensures forall i :: 0 <= i < |agents| ==> AgentLines(agents, current)[i] == AgentLine(agents[i], current)
    decreases |agents|
  {
    if agents != [] {
      AgentLinesAt(agents[..|agents| - 1], current);
    }
  }

  /** One line per model, in order; a line carries the current tag exactly
      when that model's id is the active model. */
  lemma ModelLinesMarked(models: seq<ModelEntry>, current: string)
    ensures |ModelLines(models, current)| == |models|
    ensures forall i :: 0 <= i < |models| ==>
      StartsWith(ModelLines(models, current)[i], models[i].id + " (id=" + models[i].name + ") ")
      && (EndsWith(ModelLines(models, current)[i], CURRENT_TAG) <==> models[i].id == current)
  {
    ModelLinesAt(models, current);
    forall i | 0 <= i < |models|
      ensures StartsWith(ModelLine(models[i], current), models[i].id + " (id=" + models[i].name + ") ")
      ensures EndsWith(ModelLine(models[i], current), CURRENT_TAG) <==> models[i].id == current
    {
      LineMarked(models[i].id + " (id=" + models[i].name + ") ", models[i].id == current);
    }
  }

  /** One line per agent, in order; a line carries the current tag exactly
      when that agent is the active one. */
  lemma AgentLinesMarked(agents: seq<AgentEntry>, current: string)
    ensures |AgentLines(agents, current)| == |agents|
    ensures forall i :: 0 <= i < |agents| ==>
      StartsWith(AgentLines(agents, current)[i], agents[i].name + " (name=" + agents[i].name + ") ")
      && (EndsWith(AgentLines(agents, current)[i], CURRENT_TAG) <==> agents[i].name == current)
  {
    AgentLinesAt(agents, current);
    forall i | 0 <= i < |agents|
      ensures StartsWith(AgentLine(agents[i], current), agents[i].name + " (name=" + agents[i].name + ") ")
      ensures EndsWith(AgentLine(agents[i], current), CURRENT_TAG) <==> agents[i].name == current
    {
      LineMarked(agents[i].name + " (name=" + agents[i].name + ") ", agents[i].name == current);
    }
  }

  /** A listing line ends with the tag exactly when it was tagged: an
      untagged line ends with the space that precedes the tag. */
  lemma LineMarked(head: string, current: bool)
    requires |head| > 0 && head[|head| - 1] == ' '
    ensures StartsWith(head + Tag(current), head)
    ensures EndsWith(head + Tag(current), CURRENT_TAG) <==> current
  {
    var s := head + Tag(current);
    assert s[..|head|] == head;
    if current {
      assert s[|s| - |CURRENT_TAG|..] == CURRENT_TAG;
    } else {
      assert s[|s| - 1] == ' ';
    }
  }
}
