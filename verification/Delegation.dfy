/** The scenario contract and the checks on the delegation object (scripts/real_agent_scenario_runner.py:330-470,
    915-980, 1450, 1525-1610): prompt digest, canonical task object, task prompts, and what the contract's own
    validation makes of them. */
module Delegation {
  import opened Prelude
  import opened Sorting
  import opened Strings
  import opened Json
  import opened Summaries

  /** What the prompt of one child must and must not say. */
  datatype Requirement = Requirement(agent: string, contains: seq<string>, excludes: seq<string>, minChars: nat)

  /** A scenario as its contract file states it. */
  datatype Scenario = Scenario(required: seq<string>, requireParallel: bool, prompt: string, canonical: Option<Json>,
                               canonicalDigest: string, requirements: seq<Requirement>)

  /** What the runner takes from elsewhere: strict JSON parsing, the digests of values and texts, case folding, and the
      prompt the candidate gets, built from the prompt of the contract and the prescribed object. */
  datatype Host = Host(loads: string -> Option<Json>, digest: Json -> string, sha: string -> string,
                       fold: string -> string, candidate: (string, Option<Json>) -> string)
  {
    /** Digests of values are SHA-256 in hexadecimal, and case folding leaves lower-case ASCII text as it is. */
    ghost predicate Standard() {
      && (forall j :: IsShaText(digest(j)))
      && (forall s :: (forall i :: 0 <= i < |s| ==> 'a' <= s[i] <= 'z') ==> fold(s) == s)
    }
  }

  const BUILTIN := "builtin:"
  const TASKS := "tasks"
  const MAX_CONCURRENCY := "max_concurrency"

  predicate IsBuiltin(id: string) { BUILTIN <= id }

  /** `_SHA_RE`. */
  predicate IsShaText(s: string) {
    |s| == 64 && forall i :: 0 <= i < 64 ==> '0' <= s[i] <= '9' || 'a' <= s[i] <= 'f'
  }

  /** `_ID_RE`. */
  predicate IsIdentifier(s: string) {
    && 1 <= |s| <= 128 && Alphanumeric(s[0])
    && forall i :: 0 < i < |s| ==> Alphanumeric(s[i]) || s[i] in {'.', '_', ':', '/', '-'}
  }

  /** `_PLUGIN_COMPONENT_RE`. */
  predicate IsComponent(s: string) {
    && 1 <= |s| <= 128 && Alphanumeric(s[0])
    && forall i :: 0 < i < |s| ==> Alphanumeric(s[i]) || s[i] in {'.', '_', '-'}
  }

  function ExpectedConcurrency(scenario: Scenario): nat {
    if scenario.requireParallel then |scenario.required| else 1
  }

  predicate PromptValid(scenario: Scenario, host: Host, promptDigest: string) {
    promptDigest == host.sha(host.candidate(scenario.prompt, scenario.canonical))
  }

  // ---- The delegation object --------------------------------------------------------------------

  /** Arguments that are still a string are parsed once more; a failure counts as none. */
  function Parsed(host: Host, arguments: Json): Json {
    if arguments.Str? then (var parsed := host.loads(arguments.s); if parsed.Some? then parsed.value else Null)
        else arguments
  }

  /** `_normalized_delegation_arguments`: tasks and concurrency, if nothing but a description stands beside them. */
  function Normalized(arguments: Json): Option<Json> {
    if !arguments.Obj? || !(arguments.fields.Keys <= {TASKS, MAX_CONCURRENCY, "description"}) then None
    else Some(DelegationObject(Get(arguments.fields, TASKS), Get(arguments.fields, MAX_CONCURRENCY)))
  }

  function DelegationObject(tasks: Json, concurrency: Json): Json {
    Obj(map[TASKS := tasks, MAX_CONCURRENCY := concurrency])
  }

  /** The object is the prescribed one. */
  predicate CanonicalValid(scenario: Scenario, host: Host, arguments: Json) {
    if scenario.required == [] then scenario.canonical.None? && arguments.Null?
    else
      && Normalized(arguments).Some? && scenario.canonical.Some?
      && Normalized(arguments).value == scenario.canonical.value
      && host.digest(Normalized(arguments).value) == scenario.canonicalDigest
  }

  function TaskIdentity(task: Json): string {
    if !task.Obj? then ""
    else if Truthy(Get(task.fields, "agent_id")) then Printed(Get(task.fields, "agent_id"))
    else if Truthy(Get(task.fields, "agent_type")) then BUILTIN + Printed(Get(task.fields, "agent_type"))
    else ""
  }

  predicate TasksFor(required: seq<string>, tasks: Json) {
    && tasks.Arr? && |tasks.items| == |required|
    && forall k :: 0 <= k < |required| ==> TaskIdentity(tasks.items[k]) == required[k]
  }

  /** One task for each required child, in order, at the exact concurrency. */
  predicate ShapeValid(scenario: Scenario, arguments: Json) {
    && Normalized(arguments).Some?
    && TasksFor(scenario.required, Get(Normalized(arguments).value.fields, TASKS))
    && Get(Normalized(arguments).value.fields, MAX_CONCURRENCY) == Int(ExpectedConcurrency(scenario))
  }

  /** The arguments of the one delegation call pass both tests. */
  predicate DelegationOk(scenario: Scenario, host: Host, given: Json) {
    ShapeValid(scenario, Parsed(host, given)) && CanonicalValid(scenario, host, Parsed(host, given))
  }

  // ---- Child prompts ----------------------------------------------------------------------------

  predicate StandsAt(s: string, t: string, i: int) {
    0 <= i <= |s| - |t| && s[i..i + |t|] == t
  }

  /** `t in s`. */
  predicate Contains(s: string, t: string) {
    exists i :: 0 <= i <= |s| && StandsAt(s, t, i)
  }

  predicate PromptMeets(host: Host, need: Requirement, prompt: string) {
    && |Strip(prompt)| >= need.minChars
    && (forall k :: 0 <= k < |need.contains| ==> Contains(Strip(prompt), need.contains[k]))
    && (forall k :: 0 <= k < |need.excludes| ==> !Contains(host.fold(Strip(prompt)), host.fold(need.excludes[k])))
  }

  /** The requirement the dictionary keeps for an agent: the last one. */
  function RequirementOf(requirements: seq<Requirement>, agent: string): Option<Requirement> {
    if requirements == [] then None
    else
      var last := requirements[|requirements| - 1];
      if last.agent == agent then Some(last) else RequirementOf(requirements[..|requirements| - 1], agent)
  }

  predicate TaskPromptValid(scenario: Scenario, host: Host, agent: string, task: Json) {
    && task.Obj? && Get(task.fields, "prompt").Str?
    && RequirementOf(scenario.requirements, agent).Some?
    && PromptMeets(host, RequirementOf(scenario.requirements, agent).value, Get(task.fields, "prompt").s)
  }

  predicate PromptsMeet(scenario: Scenario, host: Host, tasks: seq<Json>)
    requires |tasks| == |scenario.required|
  {
    forall k :: 0 <= k < |tasks| ==> TaskPromptValid(scenario, host, scenario.required[k], tasks[k])
  }

  predicate PromptsValid(scenario: Scenario, host: Host, arguments: Json) {
    && ShapeValid(scenario, arguments)
    && PromptsMeet(scenario, host, Get(Normalized(arguments).value.fields, TASKS).items)
  }

  /** The loop over the tasks and their children. */
  method CheckPrompts(scenario: Scenario, host: Host, tasks: seq<Json>) returns (valid: bool)
    requires |tasks| == |scenario.required|
    ensures valid == PromptsMeet(scenario, host, tasks)
  {
    var needs := IndexRequirements(scenario.requirements);
    var k := 0;
    while k < |tasks|
      invariant 0 <= k <= |tasks|
      invariant forall j :: 0 <= j < k ==> TaskPromptValid(scenario, host, scenario.required[j], tasks[j])
    {
      var agent := scenario.required[k];
      var prompt := if tasks[k].Obj? then Get(tasks[k].fields, "prompt") else Null;
      if agent !in needs || !prompt.Str? || !PromptMeets(host, needs[agent], prompt.s) {
        assert !TaskPromptValid(scenario, host, agent, tasks[k]);
        return false;
      }
      k := k + 1;
    }
    valid := true;
  }

  /** `requirement_by_agent`. */
  method IndexRequirements(requirements: seq<Requirement>) returns (byAgent: map<string, Requirement>)
    ensures forall a :: RequirementOf(requirements, a) == if a in byAgent then Some(byAgent[a]) else None
  {
    byAgent := map[];
    var i := 0;
    while i < |requirements|
      invariant 0 <= i <= |requirements|
      invariant forall a :: RequirementOf(requirements[..i], a) == if a in byAgent then Some(byAgent[a]) else None
    {
      assert requirements[..i + 1][..i] == requirements[..i];
      byAgent := byAgent[requirements[i].agent := requirements[i]];
      i := i + 1;
    }
    assert requirements[..i] == requirements;
  }

  // ---- The validation of the contract -----------------------------------------------------------

  /** `_bounded_text`. */
  predicate Bounded(text: Json, maximum: nat) {
    text.Str? && 1 <= |Strip(text.s)| <= maximum
  }

  predicate TokensValid(tokens: seq<string>) {
    && 1 <= |tokens| <= 32
    && (forall k :: 0 <= k < |tokens| ==> Strip(tokens[k]) != "" && |tokens[k]| <= 240)
    && forall i, j :: 0 <= i < j < |tokens| ==> tokens[i] != tokens[j]
  }

  predicate RequirementValid(need: Requirement) {
    && IsIdentifier(Strip(need.agent)) && TokensValid(need.contains) && TokensValid(need.excludes)
    && 160 <= need.minChars <= 20_000
  }

  function Agents(requirements: seq<Requirement>): (r: seq<string>)
    ensures |r| == |requirements| && forall k :: 0 <= k < |r| ==> r[k] == requirements[k].agent
  {
    Map((need: Requirement) => need.agent, requirements)
  }

  /** A prescribed task has a description, names its child by exactly one string, id or type, and its prompt meets the
      requirement written under the child's id. */
  ghost predicate ContractTask(scenario: Scenario, host: Host, agent: string, task: Json) {
    && task.Obj? && {"prompt", "description"} <= task.fields.Keys
    && task.fields.Keys <= {"prompt", "description", "agent_id", "agent_type"}
    && var id, kind := Get(task.fields, "agent_id"), Get(task.fields, "agent_type");
    && var named, typed := id.Str? && id.s != "", kind.Str? && kind.s != "";
    && named != typed && IsIdentifier(Strip(if named then id.s else kind.s))
    && agent == (if named then Strip(id.s) else BUILTIN + Strip(kind.s))
    && Bounded(Get(task.fields, "description"), 200) && Bounded(Get(task.fields, "prompt"), 20_000)
    && agent in Agents(scenario.requirements)
    && forall need :: need in scenario.requirements && need.agent == agent ==>
         PromptMeets(host, need, Get(task.fields, "prompt").s)
  }

  ghost predicate ContractTasks(scenario: Scenario, host: Host, tasks: seq<Json>) {
    && scenario.canonical == Some(DelegationObject(Arr(tasks), Int(ExpectedConcurrency(scenario))))
    && |tasks| == |scenario.required|
    && forall k :: 0 <= k < |tasks| ==> ContractTask(scenario, host, Strip(scenario.required[k]), tasks[k])
  }

  ghost predicate AgentsValid(required: seq<string>) {
    && |required| <= 5
    && (forall k :: 0 <= k < |required| ==> IsIdentifier(Strip(required[k])))
    && forall i, j :: 0 <= i < j < |required| ==> Strip(required[i]) != Strip(required[j])
  }

  /** `load_scenarios`, as far as the delegation goes. */
  ghost predicate ContractValid(scenario: Scenario, host: Host) {
    && 1 <= |Strip(scenario.prompt)| <= 40_000
    && AgentsValid(scenario.required)
    && (scenario.requireParallel ==> |scenario.required| >= 2)
    && if scenario.required == [] then scenario.requirements == [] && scenario.canonical.None?
       else
         && (forall k :: 0 <= k < |scenario.requirements| ==> RequirementValid(scenario.requirements[k]))
         && multiset(Map(Strip, Agents(scenario.requirements))) == multiset(Map(Strip, scenario.required))
         && (exists tasks: seq<Json> :: ContractTasks(scenario, host, tasks))
         && IsShaText(scenario.canonicalDigest)
         && scenario.canonicalDigest == host.digest(scenario.canonical.value)
  }

  /** One colon, between two components. */
  ghost predicate PluginName(id: string) {
    !IsBuiltin(id) && exists i :: 0 <= i < |id| && id[i] == ':' && IsComponent(id[..i]) && IsComponent(id[i + 1..])
  }

  /** `verify_plugin_definitions`: the digests of the local definitions, for every plugin child of this scenario and
      perhaps of others. */
  ghost predicate DefinitionTable(scenario: Scenario, definitions: map<string, string>) {
    && (forall id :: id in definitions ==> PluginName(id) && IsShaText(definitions[id]))
    && forall k :: 0 <= k < |scenario.required| && !IsBuiltin(scenario.required[k]) ==>
         scenario.required[k] in definitions
  }

  /** A scenario that passed both. */
  ghost predicate Validated(scenario: Scenario, host: Host, definitions: map<string, string>) {
    ContractValid(scenario, host) && DefinitionTable(scenario, definitions)
  }

  // ---- What the validation buys -----------------------------------------------------------------

  lemma ObjectFields(tasks: Json, concurrency: Json)
    ensures Get(DelegationObject(tasks, concurrency).fields, TASKS) == tasks
    ensures Get(DelegationObject(tasks, concurrency).fields, MAX_CONCURRENCY) == concurrency
  {
    assert |TASKS| == 5 && |MAX_CONCURRENCY| == 15;
  }

  lemma {:induction false} RequirementFound(requirements: seq<Requirement>, agent: string)
    ensures RequirementOf(requirements, agent).Some? <==> agent in Agents(requirements)
    ensures RequirementOf(requirements, agent).Some? ==>
              RequirementOf(requirements, agent).value in requirements
                  && RequirementOf(requirements, agent).value.agent == agent
  {
    if requirements != [] {
      var init, last := requirements[..|requirements| - 1], requirements[|requirements| - 1];
      RequirementFound(init, agent);
      assert requirements == init + [last];
      assert Agents(requirements) == Agents(init) + [last.agent];
    }
  }

  /** Every required id is qualified: builtin, or a plugin's. */
  lemma QualifiedIds(scenario: Scenario, definitions: map<string, string>)
    requires DefinitionTable(scenario, definitions)
    ensures forall k :: 0 <= k < |scenario.required| ==> ':' in scenario.required[k]
  {
    forall k | 0 <= k < |scenario.required| ensures ':' in scenario.required[k] {
      if IsBuiltin(scenario.required[k]) { assert scenario.required[k][7] == BUILTIN[7] == ':'; }
    }
  }

  /** A task that names its child the way the runner reads it: without surrounding white space, and beside a type with
      no id, not even one of the wrong kind. */
  predicate PlainName(task: Json) {
    task.Obj? ==>
      && var id, kind := Get(task.fields, "agent_id"), Get(task.fields, "agent_type");
      && (id.Str? ==> Strip(id.s) == id.s) && (kind.Str? ==> Strip(kind.s) == kind.s)
      && (!id.Str? ==> !Truthy(id))
  }

  predicate PlainIds(scenario: Scenario) {
    forall k :: 0 <= k < |scenario.required| ==> Strip(scenario.required[k]) == scenario.required[k]
  }

  /** Ids and names of a scenario are written without surrounding white space. */
  predicate PlainScenario(scenario: Scenario, tasks: seq<Json>) {
    PlainIds(scenario) && forall k :: 0 <= k < |tasks| ==> PlainName(tasks[k])
  }

  lemma ContractIdentity(scenario: Scenario, host: Host, agent: string, task: Json)
    requires ContractTask(scenario, host, agent, task) && PlainName(task)
    ensures TaskIdentity(task) == agent
  {
  }

  lemma ContractPrompt(scenario: Scenario, host: Host, agent: string, task: Json)
    requires ContractTask(scenario, host, agent, task)
    ensures TaskPromptValid(scenario, host, agent, task)
  {
    RequirementFound(scenario.requirements, agent);
  }

  /** For a validated scenario the canonical test settles the others: an object that passes it has the right shape if
      ids and names are written plainly, and then its prompts meet every requirement. */
  lemma CanonicalIsEnough(scenario: Scenario, host: Host, arguments: Json, tasks: seq<Json>)
    requires scenario.required != [] && ContractTasks(scenario, host, tasks)
    requires CanonicalValid(scenario, host, arguments)
    ensures PlainScenario(scenario, tasks) ==> ShapeValid(scenario, arguments)
    ensures PlainIds(scenario) && ShapeValid(scenario, arguments) ==> PromptsValid(scenario, host, arguments)
  {
    ObjectFields(Arr(tasks), Int(ExpectedConcurrency(scenario)));
    assert Normalized(arguments) == Some(DelegationObject(Arr(tasks), Int(ExpectedConcurrency(scenario))));
    forall k | 0 <= k < |tasks|
      ensures PlainScenario(scenario, tasks) ==> TaskIdentity(tasks[k]) == scenario.required[k]
      ensures PlainIds(scenario) ==> TaskPromptValid(scenario, host, scenario.required[k], tasks[k])
    {
      if PlainScenario(scenario, tasks) { ContractIdentity(scenario, host, scenario.required[k], tasks[k]); }
      if PlainIds(scenario) { ContractPrompt(scenario, host, scenario.required[k], tasks[k]); }
    }
  }
}
