/**
  Per-agent model configuration (insightai/models.py, lines 8-120).

  The process environment and the working directory are explicit inputs (`Sources`):
  the three API-key variables (an unset variable is the empty string), the `LLM_CONFIG`
  variable together with what the JSON decoder makes of its text, and the
  `LLM_CONFIG.json` file. Every operation is then a total function of those inputs.
 */
module LlmConfig {
  import opened Wrappers
  import PyDict

  /**
    The `details` object of one configuration item. A key missing from the JSON object is
    `None`; an item without a `details` key has every field `None`. A `details` value that
    is `null` or not an object has no representation here.
   */
  datatype Details = Details(
    model: Option<string>,
    provider: Option<string>,
    maxTokens: Option<int>,
    temperature: Option<real>)

  /** One configuration item, `{"agent": ..., "details": {...}}`. */
  datatype Entry = Entry(agent: string, details: Details)

  /** The `(model, provider, max_tokens, temperature)` tuple handed to a call. */
  datatype AgentDetails = AgentDetails(model: string, provider: string, maxTokens: int, temperature: real)

  /** `OPENAI_API_KEY`, `GROQ_API_KEY`, `GEMINI_API_KEY`; `""` when unset. */
  datatype ApiKeys = ApiKeys(openai: string, groq: string, gemini: string)

  /** The text of `LLM_CONFIG` and the JSON decoder's verdict on it (`None`: not valid JSON). */
  datatype EnvValue = EnvValue(text: string, parsed: Option<seq<Entry>>)

  /** `LLM_CONFIG.json`: absent, present but unreadable or not valid JSON, or decoded. */
  datatype ConfigFile = NoFile | Unusable | Parsed(entries: seq<Entry>)

  datatype Sources = Sources(keys: ApiKeys, llmConfig: Option<EnvValue>, file: ConfigFile)

  /** A `(provider, model)` pair. */
  datatype Choice = Choice(provider: string, model: string)

  const OpenAIChoice := Choice("openai", "gpt-4o-mini")
  const GroqChoice := Choice("groq", "llama-3.3-70b-versatile")
  const GeminiChoice := Choice("gemini", "gemini-1.5-flash")

  /** What a lookup yields for an agent with no configuration item. */
  const Fallback := AgentDetails("gpt-4o-mini", "openai", 2000, 0.0)

  function Agents(items: seq<Entry>): (r: seq<string>)
    ensures |r| == |items|
    ensures forall i :: 0 <= i < |items| ==> r[i] == items[i].agent
  {
    seq(|items|, i requires 0 <= i < |items| => items[i].agent)
  }

  // ---------------------------------------------------------------------------
  // get_best_available_provider and the default table
  // ---------------------------------------------------------------------------

  /**
    `get_best_available_provider`: the first provider, in the order OpenAI, Groq, Gemini,
    whose key is set; OpenAI when none is.
   */
  function BestProvider(keys: ApiKeys): (c: Choice)
    ensures c == OpenAIChoice || c == GroqChoice || c == GeminiChoice
    ensures c == OpenAIChoice ==> keys.openai != "" || (keys.groq == "" && keys.gemini == "")
    ensures c == GroqChoice ==> keys.openai == "" && keys.groq != ""
    ensures c == GeminiChoice ==> keys.openai == "" && keys.groq == "" && keys.gemini != ""
  {
    if keys.openai != "" then OpenAIChoice
    else if keys.groq != "" then GroqChoice
    else if keys.gemini != "" then GeminiChoice
    else OpenAIChoice
  }

  function DefaultEntry(agent: string, c: Choice, maxTokens: int, temperature: real): Entry {
    Entry(agent, Details(Some(c.model), Some(c.provider), Some(maxTokens), Some(temperature)))
  }

  /** The agents of `default_llm_config`, in table order, with their token budgets and temperatures. */
  const DefaultAgents: seq<string> := [
    "Expert Selector", "Analyst Selector", "Theorist", "SQL Analyst", "SQL Generator",
    "SQL Executor", "Dataframe Inspector", "Planner", "Code Generator", "Code Debugger",
    "Error Corrector", "Code Ranker", "Solution Summarizer", "Dataset Categorizer",
    "Question Generator", "Report Generator", "Research Specialist"]
  const DefaultBudgets: seq<int> := [
    4000, 4000, 4000, 2000, 2000,
    2000, 4000, 4000, 4000, 4000,
    4000, 4000, 4000, 1000,
    2000, 4000, 4000]
  const DefaultTemperatures: seq<real> := [
    0.0, 0.0, 0.0, 0.0, 0.0,
    0.0, 0.0, 0.0, 0.0, 0.0,
    0.0, 0.0, 0.0, 0.0,
    0.1, 0.0, 0.0]

  /** `default_llm_config`: one item per known agent, all on the best available provider. */
  function DefaultConfig(keys: ApiKeys): (r: seq<Entry>)
    ensures |r| == |DefaultAgents| == 17
    ensures Agents(r) == DefaultAgents
    ensures forall i :: 0 <= i < |r| ==>
      && r[i].details.model == Some(BestProvider(keys).model)
      && r[i].details.provider == Some(BestProvider(keys).provider)
      && r[i].details.maxTokens.Some?
      && r[i].details.temperature.Some?
  {
    var c := BestProvider(keys);
    seq(17, i requires 0 <= i < 17 => DefaultEntry(DefaultAgents[i], c, DefaultBudgets[i], DefaultTemperatures[i]))
  }

  /** The 17 default agent names are pairwise distinct. */
  lemma DefaultAgentsDistinct()
    ensures PyDict.Distinct(DefaultAgents)
  {
  }

  /**
    The shape of the default table: temperature 0 everywhere except 0.1 for the Question
    Generator, and a token budget of 1000, 2000 or 4000.
   */
  lemma DefaultTableShape(keys: ApiKeys)
    ensures forall e :: e in DefaultConfig(keys) ==> e.details.maxTokens in {Some(1000), Some(2000), Some(4000)}
    ensures forall e :: e in DefaultConfig(keys) ==>
      e.details.temperature == if e.agent == "Question Generator" then Some(0.1) else Some(0.0)
  {
  }

  // ---------------------------------------------------------------------------
  // load_llm_config and get_effective_config
  // ---------------------------------------------------------------------------

  /** `if os.environ.get('LLM_CONFIG')`: the variable is set and not empty. */
  predicate EnvSet(src: Sources) {
    src.llmConfig.Some? && src.llmConfig.value.text != ""
  }

  /**
    `load_llm_config`: a non-empty `LLM_CONFIG` decides alone (its decoded list, or the
    defaults when it does not decode); otherwise the decoded file, or the defaults when the
    file is absent or unusable.
   */
  function LoadLlmConfig(src: Sources): seq<Entry> {
    var defaults := DefaultConfig(src.keys);
    if EnvSet(src) then
      src.llmConfig.value.parsed.GetOr(defaults)
    else
      match src.file
      case Parsed(entries) => entries
      case _ => defaults
  }

  /** The `user_config` list of `get_effective_config`: the same sources, `[]` in place of the defaults. */
  function UserConfig(src: Sources): seq<Entry> {
    if EnvSet(src) then
      src.llmConfig.value.parsed.GetOr([])
    else
      match src.file
      case Parsed(entries) => entries
      case _ => []
  }

  /** `for item in items: d[item['agent']] = item`, starting from `d`. */
  function Index(d: PyDict.Dict<string, Entry>, items: seq<Entry>): (r: PyDict.Dict<string, Entry>)
    requires PyDict.Valid(d)
    ensures PyDict.Valid(r)
    decreases |items|
  {
    if |items| == 0 then d
    else
      var last := items[|items| - 1];
      PyDict.Put(Index(d, items[..|items| - 1]), last.agent, last)
  }

  /** `list({item['agent']: item for item in items}.values())`. */
  function Dedup(items: seq<Entry>): seq<Entry> {
    PyDict.Values(Index(PyDict.Empty(), items))
  }

  /**
    `get_effective_config`: index what `load_llm_config` returns by agent, then assign every
    item of the user list over it.
   */
  function EffectiveConfig(src: Sources): seq<Entry> {
    var base := Index(PyDict.Empty(), LoadLlmConfig(src));
    PyDict.Values(Index(base, UserConfig(src)))
  }

  // ---------------------------------------------------------------------------
  // get_agent_details, init, get_model_name
  // ---------------------------------------------------------------------------

  /**
    The index of the first item whose agent equals `agent`. Every item's agent is a string
    here, so a call without an agent (`None`) matches no item.
   */
  function FindAgent(agent: Option<string>, items: seq<Entry>): (r: Option<nat>)
    ensures r.Some? ==> r.value < |items| && agent == Some(items[r.value].agent)
    ensures r.Some? ==> forall j :: 0 <= j < r.value ==> agent != Some(items[j].agent)
    ensures r.None? ==> forall j :: 0 <= j < |items| ==> agent != Some(items[j].agent)
    decreases |items|
  {
    if |items| == 0 then None
    else if agent == Some(items[0].agent) then Some(0)
    else match FindAgent(agent, items[1..])
      case None => None
      case Some(k) => Some(k + 1)
  }

  /**
    `get_agent_details`: the first item for `agent`, each missing detail filled in on its
    own from the fallback; the whole fallback when no item names the agent.
   */
  function GetAgentDetails(agent: Option<string>, items: seq<Entry>): (r: AgentDetails)
    ensures (forall j :: 0 <= j < |items| ==> agent != Some(items[j].agent)) ==> r == Fallback
    ensures forall i :: 0 <= i < |items| && agent == Some(items[i].agent)
                        && (forall j :: 0 <= j < i ==> agent != Some(items[j].agent)) ==>
      && r.model == items[i].details.model.GetOr(Fallback.model)
      && r.provider == items[i].details.provider.GetOr(Fallback.provider)
      && r.maxTokens == items[i].details.maxTokens.GetOr(Fallback.maxTokens)
      && r.temperature == items[i].details.temperature.GetOr(Fallback.temperature)
  {
    match FindAgent(agent, items)
    case None => Fallback
    case Some(i) =>
      var d := items[i].details;
      AgentDetails(
        d.model.GetOr(Fallback.model),
        d.provider.GetOr(Fallback.provider),
        d.maxTokens.GetOr(Fallback.maxTokens),
        d.temperature.GetOr(Fallback.temperature))
  }

  /** `init(agent)`. */
  function Init(src: Sources, agent: Option<string>): AgentDetails {
    GetAgentDetails(agent, EffectiveConfig(src))
  }

  /**
    `get_model_name(agent)`: the `(model, provider)` part of `init`. An agent no effective item
    names runs on `gpt-4o-mini` at OpenAI, in particular one a decoded `LLM_CONFIG` leaves out;
    without any user list, every default agent runs on the best available provider.
   */
  function GetModelName(src: Sources, agent: Option<string>): (r: (string, string))
    ensures (forall j :: 0 <= j < |EffectiveConfig(src)| ==> agent != Some(EffectiveConfig(src)[j].agent)) ==>
      r == ("gpt-4o-mini", "openai")
    ensures EnvSet(src) && src.llmConfig.value.parsed.Some? && agent.Some?
            && agent.value !in Agents(src.llmConfig.value.parsed.value) ==>
      r == ("gpt-4o-mini", "openai")
    ensures !EnvSet(src) && !src.file.Parsed? ==>
      forall i :: 0 <= i < 17 && agent == Some(DefaultAgents[i]) ==>
        r == (BestProvider(src.keys).model, BestProvider(src.keys).provider)
  {
    var d := Init(src, agent);
    InitCases(src, agent);
    (d.model, d.provider)
  }

  /** The two situations `GetModelName` spells out, for the whole `init` tuple. */
  lemma InitCases(src: Sources, agent: Option<string>)
    ensures EnvSet(src) && src.llmConfig.value.parsed.Some? && agent.Some?
            && agent.value !in Agents(src.llmConfig.value.parsed.value) ==>
      Init(src, agent) == Fallback
    ensures !EnvSet(src) && !src.file.Parsed? ==>
      forall i :: 0 <= i < 17 && agent == Some(DefaultAgents[i]) ==>
        Init(src, agent) == AgentDetails(BestProvider(src.keys).model, BestProvider(src.keys).provider,
                                         DefaultBudgets[i], DefaultTemperatures[i])
  {
    if EnvSet(src) && src.llmConfig.value.parsed.Some? && agent.Some?
       && agent.value !in Agents(src.llmConfig.value.parsed.value) {
      PartialOverrideDropsDefaults(src, agent.value);
    }
    if !EnvSet(src) && !src.file.Parsed? {
      forall i | 0 <= i < 17 && agent == Some(DefaultAgents[i])
        ensures Init(src, agent) == AgentDetails(BestProvider(src.keys).model, BestProvider(src.keys).provider,
                                                 DefaultBudgets[i], DefaultTemperatures[i])
      {
        DefaultsWhenNoUserList(src, i);
      }
    }
  }

  // ---------------------------------------------------------------------------
  // Reference definitions for deduplication
  // ---------------------------------------------------------------------------

  /** The last item of `items` for agent `a`, searching from the end. */
  function LastWith(items: seq<Entry>, a: string): Option<Entry>
    decreases |items|
  {
    if |items| == 0 then None
    else if items[|items| - 1].agent == a then Some(items[|items| - 1])
    else LastWith(items[..|items| - 1], a)
  }

  /** Agent to last item for that agent. */
  function LastMap(items: seq<Entry>): map<string, Entry>
    decreases |items|
  {
    if |items| == 0 then map[]
    else LastMap(items[..|items| - 1])[items[|items| - 1].agent := items[|items| - 1]]
  }

  lemma {:induction false} LastMapSpec(items: seq<Entry>)
    ensures LastMap(items).Keys == set e | e in items :: e.agent
    ensures forall a :: a in LastMap(items) ==> LastWith(items, a) == Some(LastMap(items)[a])
    ensures forall a :: a !in LastMap(items) ==> LastWith(items, a) == None
    decreases |items|
  {
    if |items| > 0 {
      var p := items[..|items| - 1];
      LastMapSpec(p);
      assert items == p + [items[|items| - 1]];
    }
  }

  /** Assigning items over `d` leaves each agent with its last item and keeps earlier values of the rest. */
  lemma {:induction false} IndexVals(d: PyDict.Dict<string, Entry>, items: seq<Entry>)
    requires PyDict.Valid(d)
    ensures Index(d, items).vals == d.vals + LastMap(items)
    decreases |items|
  {
    if |items| > 0 {
      var p := items[..|items| - 1];
      var last := items[|items| - 1];
      IndexVals(d, p);
      assert LastMap(items) == LastMap(p)[last.agent := last];
      var m := d.vals + LastMap(p);
      assert Index(d, items).vals == m[last.agent := last];
      assert m[last.agent := last] == d.vals + LastMap(p)[last.agent := last] by {
        var lhs := m[last.agent := last];
        var rhs := d.vals + LastMap(p)[last.agent := last];
        assert lhs.Keys == rhs.Keys;
        forall a | a in lhs ensures lhs[a] == rhs[a] {
        }
      }
    }
  }

  /** Assigning only agents already present never changes the key order. */
  lemma {:induction false} IndexKeysStable(d: PyDict.Dict<string, Entry>, items: seq<Entry>)
    requires PyDict.Valid(d)
    requires forall e :: e in items ==> e.agent in d.vals
    ensures Index(d, items).keys == d.keys
    decreases |items|
  {
    if |items| > 0 {
      var p := items[..|items| - 1];
      IndexKeysStable(d, p);
      IndexVals(d, p);
      assert items[|items| - 1] in items;
    }
  }

  /** Indexing from an empty dict orders the agents by first occurrence. */
  lemma {:induction false} IndexKeysFromEmpty(items: seq<Entry>)
    ensures Index(PyDict.Empty(), items).keys == PyDict.FirstOccurrences(Agents(items))
    decreases |items|
  {
    if |items| > 0 {
      var p := items[..|items| - 1];
      IndexKeysFromEmpty(p);
      IndexVals(PyDict.Empty(), p);
      LastMapSpec(p);
      assert Agents(items)[..|items| - 1] == Agents(p);
      var a := items[|items| - 1].agent;
      assert a in Agents(p) <==> a in (set e | e in p :: e.agent) by {
        if a in Agents(p) {
          var i :| 0 <= i < |p| && Agents(p)[i] == a;
          assert p[i] in p;
        }
        if a in (set e | e in p :: e.agent) {
          var e :| e in p && e.agent == a;
          var i :| 0 <= i < |p| && p[i] == e;
          assert Agents(p)[i] == a;
        }
      }
    }
  }

  /**
    Deduplication against an independent reference: agents in first-occurrence order, each
    carrying the LAST item the list gives for it.
   */
  lemma DedupSpec(items: seq<Entry>)
    ensures Agents(Dedup(items)) == PyDict.FirstOccurrences(Agents(items))
    ensures forall i :: 0 <= i < |Dedup(items)| ==> LastWith(items, Dedup(items)[i].agent) == Some(Dedup(items)[i])
  {
    var d := Index(PyDict.Empty(), items);
    IndexKeysFromEmpty(items);
    IndexVals(PyDict.Empty(), items);
    LastMapSpec(items);
    var r := Dedup(items);
    assert |r| == |d.keys|;
    forall i | 0 <= i < |r|
      ensures r[i].agent == d.keys[i]
      ensures LastWith(items, r[i].agent) == Some(r[i])
    {
      assert d.keys[i] in d.keys;
      assert d.keys[i] in LastMap(items);
      var e :| e in items && e.agent == d.keys[i];
      assert LastWith(items, d.keys[i]) == Some(LastMap(items)[d.keys[i]]);
      LastWithAgent(items, d.keys[i]);
    }
  }

  lemma {:induction false} LastWithAgent(items: seq<Entry>, a: string)
    ensures LastWith(items, a).Some? ==> LastWith(items, a).value.agent == a
    decreases |items|
  {
    if |items| > 0 {
      LastWithAgent(items[..|items| - 1], a);
    }
  }

  /** Re-assigning the same list over its own index changes nothing. */
  lemma IndexTwice(items: seq<Entry>)
    ensures Index(Index(PyDict.Empty(), items), items) == Index(PyDict.Empty(), items)
  {
    var d := Index(PyDict.Empty(), items);
    IndexVals(PyDict.Empty(), items);
    assert d.vals == LastMap(items);
    LastMapSpec(items);
    assert forall e :: e in items ==> e.agent in d.vals;
    IndexKeysStable(d, items);
    IndexVals(d, items);
    assert d.vals + d.vals == d.vals;
  }

  /** A list without repeated agents survives deduplication unchanged. */
  lemma {:induction false} DedupDistinct(items: seq<Entry>)
    requires PyDict.Distinct(Agents(items))
    ensures Dedup(items) == items
  {
    var d := Index(PyDict.Empty(), items);
    IndexKeysFromEmpty(items);
    FirstOccurrencesOfDistinct(Agents(items));
    IndexVals(PyDict.Empty(), items);
    var r := Dedup(items);
    forall i | 0 <= i < |items|
      ensures r[i] == items[i]
    {
      LastOfDistinct(items, i);
    }
  }

  lemma {:induction false} FirstOccurrencesOfDistinct(xs: seq<string>)
    requires PyDict.Distinct(xs)
    ensures PyDict.FirstOccurrences(xs) == xs
    decreases |xs|
  {
    if |xs| > 0 {
      var p := xs[..|xs| - 1];
      FirstOccurrencesOfDistinct(p);
      assert xs == p + [xs[|xs| - 1]];
    }
  }

  lemma {:induction false} LastOfDistinct(items: seq<Entry>, i: nat)
    requires PyDict.Distinct(Agents(items))
    requires i < |items|
    ensures items[i].agent in LastMap(items) && LastMap(items)[items[i].agent] == items[i]
    decreases |items|
  {
    var n := |items| - 1;
    var p := items[..n];
    assert Agents(p) == Agents(items)[..n];
    if i < n {
      LastOfDistinct(p, i);
      assert Agents(items)[i] != Agents(items)[n];
    }
  }

  // ---------------------------------------------------------------------------
  // Properties of the source precedence
  // ---------------------------------------------------------------------------

  /** The effective configuration, case by case: a decoded user list replaces the defaults wholesale. */
  lemma EffectiveConfigCases(src: Sources)
    ensures EnvSet(src) && src.llmConfig.value.parsed.Some? ==>
      EffectiveConfig(src) == Dedup(src.llmConfig.value.parsed.value)
    ensures EnvSet(src) && src.llmConfig.value.parsed.None? ==>
      EffectiveConfig(src) == DefaultConfig(src.keys)
    ensures !EnvSet(src) && src.file.Parsed? ==> EffectiveConfig(src) == Dedup(src.file.entries)
    ensures !EnvSet(src) && !src.file.Parsed? ==> EffectiveConfig(src) == DefaultConfig(src.keys)
  {
    var load := LoadLlmConfig(src);
    if UserConfig(src) == [] {
      DefaultAgentsDistinct();
      DedupDistinct(DefaultConfig(src.keys));
    } else {
      IndexTwice(load);
    }
  }

  /** A non-empty `LLM_CONFIG` decides alone: the file is never consulted. */
  lemma EnvDecides(src: Sources, file: ConfigFile)
    requires EnvSet(src)
    ensures EffectiveConfig(src.(file := file)) == EffectiveConfig(src)
  {
  }

  /** An `LLM_CONFIG` set to the empty string counts as unset. */
  lemma EmptyEnvIsAbsent(src: Sources, parsed: Option<seq<Entry>>)
    ensures EffectiveConfig(src.(llmConfig := Some(EnvValue("", parsed)))) == EffectiveConfig(src.(llmConfig := None))
  {
  }

  /**
    The merge the comment in `get_effective_config` promises does not happen: once a user list
    decodes, an agent it does not name gets the global fallback, not its default item.
   */
  lemma PartialOverrideDropsDefaults(src: Sources, agent: string)
    requires EnvSet(src) && src.llmConfig.value.parsed.Some?
    requires agent !in Agents(src.llmConfig.value.parsed.value)
    ensures Init(src, Some(agent)) == Fallback
  {
    var items := src.llmConfig.value.parsed.value;
    EffectiveConfigCases(src);
    DedupSpec(items);
    PyDict.FirstOccurrencesSpec(Agents(items));
    var r := EffectiveConfig(src);
    forall j | 0 <= j < |r|
      ensures Some(agent) != Some(r[j].agent)
    {
      assert Agents(r)[j] in Agents(items);
    }
  }

  /** An `LLM_CONFIG` text naming only the Planner, and its decoding. */
  const PlannerOnly: string :=
    "[{\"agent\": \"Planner\", \"details\": {\"model\": \"llama-3.3-70b-versatile\", \"provider\": \"groq\", \"max_tokens\": 4000, \"temperature\": 0}}]"
  const PlannerEntry: Entry := DefaultEntry("Planner", GroqChoice, 4000, 0.0)

  /**
    An example of the gap: with only a Groq key and a user list naming just the Planner,
    the Code Generator runs on OpenAI (for which no key is set) instead of on its Groq default.
   */
  lemma PartialOverrideExample()
    ensures var src := Sources(ApiKeys("", "gsk", ""), Some(EnvValue(PlannerOnly, Some([PlannerEntry]))), NoFile);
            && Init(src, Some("Code Generator")).provider == "openai"
            && GetAgentDetails(Some("Code Generator"), DefaultConfig(src.keys)).provider == "groq"
  {
    var src := Sources(ApiKeys("", "gsk", ""), Some(EnvValue(PlannerOnly, Some([PlannerEntry]))), NoFile);
    PartialOverrideDropsDefaults(src, "Code Generator");
    var defaults := DefaultConfig(src.keys);
    DefaultAgentsDistinct();
    assert Agents(defaults)[8] == "Code Generator";
    forall j | 0 <= j < 8
      ensures Some("Code Generator") != Some(defaults[j].agent)
    {
      assert Agents(defaults)[j] != Agents(defaults)[8];
    }
  }

  /** In a list without repeated agents, the lookup finds the item that names the agent. */
  lemma LookupDistinct(items: seq<Entry>, i: nat)
    requires PyDict.Distinct(Agents(items))
    requires i < |items|
    ensures FindAgent(Some(items[i].agent), items) == Some(i)
  {
    var a := Some(items[i].agent);
    forall k | 0 <= k < |items| && k != i
      ensures a != Some(items[k].agent)
    {
      assert Agents(items)[k] != Agents(items)[i];
    }
    var r := FindAgent(a, items);
    assert r.Some? ==> r.value == i;
  }

  /** With no user list anywhere, every default agent resolves to exactly its row of the default table. */
  lemma DefaultsWhenNoUserList(src: Sources, i: nat)
    requires !EnvSet(src) && !src.file.Parsed?
    requires i < 17
    ensures Init(src, Some(DefaultAgents[i])) ==
      AgentDetails(BestProvider(src.keys).model, BestProvider(src.keys).provider, DefaultBudgets[i], DefaultTemperatures[i])
  {
    EffectiveConfigCases(src);
    DefaultAgentsDistinct();
    var items := DefaultConfig(src.keys);
    LookupDistinct(items, i);
  }
}
