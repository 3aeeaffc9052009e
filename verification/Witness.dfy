/** Streams of one validated scenario that pass every check of the runner: one that the judge takes too, and for each of
    the judge's further conditions one that it refuses for that reason alone
    (scripts/judge_real_agent_receipts.py:703-1019). They are variants of one stream of ten events: the delegation call,
    a place for a second one, two children that run at once, the regular result, a place for one more tool event, the
    text and the end. `VariantExact` decides a variant by twelve conditions on its parameters; all of it holds for every
    host, whatever its digests. */
module Witnesses {
  import opened Prelude
  import opened Sorting
  import opened Strings
  import opened Json
  import opened Summaries
  import opened Delegation
  import opened Lifecycle
  import opened Agreement
  import opened Checking
  import opened Acceptance

  // ---- Every stream has a summary ---------------------------------------------------------------

  lemma {:induction false} IndexKeys(finishes: seq<Receipt>) returns (inserted: seq<int>)
    ensures Distinct(inserted) && forall d :: d in inserted <==> d in ByIndex(finishes)
  {
    if finishes == [] {
      inserted := [];
    } else {
      inserted := IndexKeys(finishes[..|finishes| - 1]);
      var index := Get(finishes[|finishes| - 1].fields, "dispatch_index");
      if index.Int? && index.n !in inserted { inserted := inserted + [index.n]; }
    }
  }

  ghost function TypesIn(events: seq<Event>): set<EventType> {
    set k | 0 <= k < |events| :: events[k].eventType
  }

  lemma {:induction false} NotCounted(events: seq<Event>, n: nat, t: EventType)
    requires n <= |events| && forall k :: 0 <= k < n ==> events[k].eventType != t
    ensures CountOf(events, n, t) == 0
  {
    if n != 0 { NotCounted(events, n - 1, t); }
  }

  ghost function AttemptsIn(events: seq<Event>): (r: set<string>)
    ensures AttemptsOf(r, events, |events|)
  {
    set k | 0 <= k < |events| && AttemptOf(events[k]) != "" :: AttemptOf(events[k])
  }

  lemma CountsIn(events: seq<Event>) returns (counts: map<EventType, nat>)
    ensures CountsOf(counts, events, |events|)
  {
    counts := map t | t in TypesIn(events) :: CountOf(events, |events|, t);
    forall t | t !in TypesIn(events) ensures CountOf(events, |events|, t) == 0 {
      forall k | 0 <= k < |events| ensures events[k].eventType != t { assert events[k].eventType in TypesIn(events); }
      NotCounted(events, |events|, t);
    }
  }

  lemma OverlapsIn(finishes: seq<Receipt>) returns (overlaps: seq<Overlap>)
    ensures OverlapListOf(overlaps, finishes)
  {
    var inserted := IndexKeys(finishes);
    SortedKeys(inserted);
    overlaps := OverlapsFrom(ByIndex(finishes), Sort(IntLeq, inserted));
  }

  lemma SummaryOf(events: seq<Event>) returns (o: Observation)
    ensures Summarises(o, events)
  {
    var n := |events|;
    var starts := ReceiptsOf(events, n, StartKind);
    var finishes := InheritAll(starts, ReceiptsOf(events, n, FinishKind));
    var overlaps := OverlapsIn(finishes);
    var counts := CountsIn(events);
    o := Observation(starts, finishes, ReceiptsOf(events, n, ToolStartKind), ReceiptsOf(events, n, ToolResultKind),
                     ReceiptsOf(events, n, TerminalKind), TextsOf(events, n), MarksOf(events, n), overlaps,
                         AttemptsIn(events),
                     counts);
  }

  // ---- The scenario -----------------------------------------------------------------------------

  function Repeat(c: char, n: nat): (r: string)
    ensures |r| == n && forall i :: 0 <= i < n ==> r[i] == c
  {
    seq(n, i => c)
  }

  const PLUGIN := "p:a"
  const NUMBERED := "builtin:5"
  const TASK_FIELDS: set<string> := {"agent_id", "prompt", "description"}

  function TaskField(id: string, k: string): Json {
    if k == "agent_id" then Str(id) else if k == "prompt" then Str(Repeat('x', 160)) else Str("task")
  }

  function Task(id: string): Json { Obj(map k | k in TASK_FIELDS :: TaskField(id, k)) }

  const REQUIRED: seq<string> := [PLUGIN, NUMBERED]
  const TASK_LIST: seq<Json> := [Task(PLUGIN), Task(NUMBERED)]
  const PRESCRIBED: Json := DelegationObject(Arr(TASK_LIST), Int(2))

  function Need(id: string): Requirement { Requirement(id, ["x"], ["y"], 160) }

  const NEEDS: seq<Requirement> := [Need(PLUGIN), Need(NUMBERED)]

  /** A plugin child and a builtin one, in parallel. */
  function ScenarioOf(host: Host): Scenario {
    Scenario(REQUIRED, true, "x", Some(PRESCRIBED), host.digest(PRESCRIBED), NEEDS)
  }

  const LOCAL: string := Repeat('0', 64)
  const DEFINITIONS: map<string, string> := map[PLUGIN := LOCAL]

  /** Stripping leaves the texts as they are. */
  lemma Stripped()
    ensures Strip("x") == "x" && Strip("y") == "y" && Strip("task") == "task" && Strip(PLUGIN) == PLUGIN
              && Strip(NUMBERED) == NUMBERED
  {
    StripFixed("x");
    StripFixed("y");
    StripFixed("task");
    StripFixed(PLUGIN);
    StripFixed(NUMBERED);
  }

  lemma PromptStripped()
    ensures Strip(Repeat('x', 160)) == Repeat('x', 160)
  {
    StripFixed(Repeat('x', 160));
  }

  lemma Identifiers()
    ensures IsIdentifier(PLUGIN) && IsIdentifier(NUMBERED) && PLUGIN != NUMBERED
    ensures !IsBuiltin(PLUGIN) && IsBuiltin(NUMBERED)
  {
    assert |PLUGIN| == 3 && |NUMBERED| == 9;
    assert PLUGIN[0] == 'p' && BUILTIN[0] == 'b';

  }

  lemma TaskGets(id: string)
    ensures var f := Task(id).fields;
            && f.Keys == TASK_FIELDS && Get(f, "agent_id") == Str(id) && Get(f, "agent_type") == Null
            && Get(f, "prompt") == Str(Repeat('x', 160)) && Get(f, "description") == Str("task")
  {
    assert "agent_id" != "prompt" && "agent_id" != "description" && "prompt" != "description";
    assert "agent_type" !in TASK_FIELDS;
  }

  lemma NoOther(n: nat, i: int)
    ensures !StandsAt(Repeat('x', n), "y", i)
  {
    var s := Repeat('x', n);
    if 0 <= i <= |s| - 1 { assert s[i..i + 1][0] == 'x' != "y"[0]; }
  }

  /** The prompts of the tasks meet their requirements for every host. */
  lemma PromptSuits(host: Host, id: string)
    requires host.Standard()
    ensures PromptMeets(host, Need(id), Repeat('x', 160))
  {
    PromptStripped();
    var s := Repeat('x', 160);
    assert StandsAt(s, "x", 0);
    assert host.fold(s) == s && host.fold("y") == "y";
    forall i | 0 <= i <= |s| ensures !StandsAt(s, "y", i) { NoOther(160, i); }
  }

  lemma NeedOf(need: Requirement, id: string)
    requires need in NEEDS && need.agent == id
    ensures need == Need(id)
  {
  }

  lemma AgentsOfNeeds()
    ensures Agents(NEEDS) == REQUIRED
  {
  }

  lemma TaskBounded(id: string)
    ensures var f := Task(id).fields;
            Bounded(Get(f, "description"), 200) && Bounded(Get(f, "prompt"), 20_000)
  {
    TaskGets(id);
    Stripped();
    PromptStripped();
  }

  lemma TaskNamed(id: string)
    requires id in REQUIRED
    ensures var f := Task(id).fields;
            Get(f, "agent_id") == Str(id) && id != "" && IsIdentifier(Strip(id)) && Strip(id) == id
                && Get(f, "agent_type") == Null
    ensures PlainName(Task(id))
  {
    TaskGets(id);
    Stripped();
    Identifiers();
  }

  lemma TaskOfContract(scenario: Scenario, host: Host, id: string)
    requires host.Standard() && id in REQUIRED && scenario.requirements == NEEDS
    ensures ContractTask(scenario, host, id, Task(id))
  {
    TaskGets(id);
    TaskBounded(id);
    TaskNamed(id);
    AgentsOfNeeds();
    forall need | need in NEEDS && need.agent == id ensures PromptMeets(host, need, Repeat('x', 160)) {
      NeedOf(need, id);
      PromptSuits(host, id);
    }
    assert {"prompt", "description"} <= TASK_FIELDS <= {"prompt", "description", "agent_id", "agent_type"};
  }

  lemma NeedsValid()
    ensures forall k :: 0 <= k < |NEEDS| ==> RequirementValid(NEEDS[k])
  {
    Stripped();
    Identifiers();
    assert TokensValid(["x"]) && TokensValid(["y"]);
  }

  lemma AgentsAreValid()
    ensures Map(Strip, Agents(NEEDS)) == REQUIRED && Map(Strip, REQUIRED) == REQUIRED && AgentsValid(REQUIRED)
  {
    Stripped();
    Identifiers();
    AgentsOfNeeds();
  }

  lemma PluginIsNamed()
    ensures PluginName(PLUGIN) && PluginOf(PLUGIN) == "p"
  {
    assert PLUGIN[0] == 'p' && PLUGIN[1] == ':' && PLUGIN[2] == 'a' && BUILTIN[0] == 'b';
    assert PLUGIN[..1] == "p" && PLUGIN[1 + 1..] == "a";
    assert IsComponent("p") && IsComponent("a");
    assert PLUGIN[1..][0] == ':' && PluginOf(PLUGIN[1..]) == "";
  }

  lemma PlainNames(host: Host)
    ensures PlainScenario(ScenarioOf(host), TASK_LIST)
  {
    TaskNamed(PLUGIN);
    TaskNamed(NUMBERED);
  }

  lemma Places()
    ensures |REQUIRED| == |TASK_LIST| == 2 && REQUIRED[0] == PLUGIN && REQUIRED[1] == NUMBERED
    ensures TASK_LIST[0] == Task(PLUGIN) && TASK_LIST[1] == Task(NUMBERED)
    ensures Strip(REQUIRED[0]) == PLUGIN && Strip(REQUIRED[1]) == NUMBERED
  {
    Stripped();
  }

  lemma FirstTask(scenario: Scenario, host: Host)
    requires host.Standard() && scenario.required == REQUIRED && scenario.requirements == NEEDS
    ensures forall k :: 0 <= k < 1 ==> ContractTask(scenario, host, Strip(scenario.required[k]), TASK_LIST[k])
  {
    Places();
    TaskOfContract(scenario, host, PLUGIN);
    OneTask(scenario, host, TASK_LIST, 0, PLUGIN);
  }

  lemma SecondTask(scenario: Scenario, host: Host)
    requires host.Standard() && scenario.required == REQUIRED && scenario.requirements == NEEDS
    ensures forall k :: 1 <= k < 2 ==> ContractTask(scenario, host, Strip(scenario.required[k]), TASK_LIST[k])
  {
    Places();
    TaskOfContract(scenario, host, NUMBERED);
    OneTask(scenario, host, TASK_LIST, 1, NUMBERED);
  }

  lemma TasksOfContract(host: Host)
    requires host.Standard()
    ensures ContractTasks(ScenarioOf(host), host, TASK_LIST)
  {
    FirstTask(ScenarioOf(host), host);
    SecondTask(ScenarioOf(host), host);
    TwoTasks(ScenarioOf(host), host, TASK_LIST);
  }

  lemma OneTask(scenario: Scenario, host: Host, tasks: seq<Json>, n: nat, id: string)
    requires n < |scenario.required| == |tasks| && Strip(scenario.required[n]) == id
    requires ContractTask(scenario, host, id, tasks[n])
    ensures forall k :: n <= k < n + 1 ==> ContractTask(scenario, host, Strip(scenario.required[k]), tasks[k])
  {
    forall k | n <= k < n + 1 ensures ContractTask(scenario, host, Strip(scenario.required[k]), tasks[k]) {
      assert k == n;
    }
  }

  lemma TwoTasks(scenario: Scenario, host: Host, tasks: seq<Json>)
    requires |scenario.required| == 2 == |tasks|
    requires scenario.canonical == Some(DelegationObject(Arr(tasks), Int(ExpectedConcurrency(scenario))))
    requires forall k :: 0 <= k < 1 ==> ContractTask(scenario, host, Strip(scenario.required[k]), tasks[k])
    requires forall k :: 1 <= k < 2 ==> ContractTask(scenario, host, Strip(scenario.required[k]), tasks[k])
    ensures ContractTasks(scenario, host, tasks)
  {
  }

  lemma TableOfScenario(host: Host)
    ensures DefinitionTable(ScenarioOf(host), DEFINITIONS)
  {
    Identifiers();
    PluginIsNamed();
    assert IsShaText(LOCAL);
  }

  /** The loader and the check of the definitions accept the scenario. */
  lemma ScenarioValidated(host: Host)
    requires host.Standard()
    ensures Validated(ScenarioOf(host), host, DEFINITIONS)
  {
    TasksOfContract(host);
    TableOfScenario(host);
    NeedsValid();
    AgentsAreValid();
    Stripped();
    ValidParts(ScenarioOf(host), host, TASK_LIST);
  }

  lemma ValidParts(scenario: Scenario, host: Host, tasks: seq<Json>)
    requires 1 <= |Strip(scenario.prompt)| <= 40_000 && AgentsValid(scenario.required) && |scenario.required| >= 2
    requires forall k :: 0 <= k < |scenario.requirements| ==> RequirementValid(scenario.requirements[k])
    requires Map(Strip, Agents(scenario.requirements)) == Map(Strip, scenario.required)
    requires ContractTasks(scenario, host, tasks)
    requires IsShaText(scenario.canonicalDigest) && scenario.canonicalDigest == host.digest(scenario.canonical.value)
    ensures ContractValid(scenario, host)
  {
  }

  function Digest(host: Host): string { host.sha(host.candidate("x", Some(PRESCRIBED))) }

  /** The object is the prescribed one. */
  lemma PrescribedCanonical(host: Host)
    ensures Normalized(PRESCRIBED) == Some(PRESCRIBED) && CanonicalValid(ScenarioOf(host), host, PRESCRIBED)
  {
    ObjectFields(Arr(TASK_LIST), Int(2));
  }

  /** So every check on the delegation object passes. */
  lemma PrescribedPasses(host: Host)
    requires host.Standard()
    ensures Parsed(host, PRESCRIBED) == PRESCRIBED && CanonicalValid(ScenarioOf(host), host, PRESCRIBED)
    ensures DelegationOk(ScenarioOf(host), host, PRESCRIBED) && PromptsValid(ScenarioOf(host), host, PRESCRIBED)
    ensures PromptValid(ScenarioOf(host), host, Digest(host))
  {
    TasksOfContract(host);
    PlainNames(host);
    PrescribedCanonical(host);
    CanonicalIsEnough(ScenarioOf(host), host, PRESCRIBED, TASK_LIST);
  }

  // ---- The stream -------------------------------------------------------------------------------

  /** What stands in the last free place: nothing, the delegation call, or a further result of it. */
  datatype Tail = Nothing | LateCall | Further(success: Json, status: Json)

  /** A variant of the stream: the parent attempt, the plugin the first child names, type and agent id of the second,
      attempt and state of the tool receipts, metadata of the end, the text, and where calls and results stand. */
  datatype Variant = Variant(attempt: string, plugin: string, kind: Json, agent: string, toolAttempt: Json,
                             state: string, metadata: Json, text: string, twice: bool, tail: Tail)

  const CALL := "c"

  datatype Child = Child(agent: string, profile: Json, kind: Json, plugin: Json, definition: Json, index: int)

  function First(v: Variant): Child { Child("g", Str(PLUGIN), Null, Str(v.plugin), Str(LOCAL), 0) }
  function Second(v: Variant): Child { Child(v.agent, Null, v.kind, Null, Null, 1) }

  function ChildField(c: Child, attempt: string, k: string): Json {
    if k == "agent_id" then Str(c.agent)
    else if k == "profile_id" then c.profile
    else if k == "agent_type" then c.kind
    else if k == "source_plugin" then c.plugin
    else if k == "definition_sha256" then c.definition
    else if k == "dispatch_index" then Int(c.index)
    else if k == "attempt_id" then Str(attempt)
    else if k == "started_monotonic_ms" then Int(0)
    else if k == "finished_monotonic_ms" then Int(100)
    else if k == "status" then Str("completed")
    else Null
  }

  function ToolField(v: Variant, success: Json, status: Json, k: string): Json {
    if k == "tool_call_id" then Str(CALL)
    else if k == "name" then Str(SPAWN)
    else if k == "attempt_id" then v.toolAttempt
    else if k == "arguments" then PRESCRIBED
    else if k == "success" then success
    else if k == "status" then status
    else if k == "side_effect_state" then Str(v.state)
    else Null
  }

  function TerminalField(v: Variant, k: string): Json {
    if k == "attempt_id" then Str(v.attempt) else if k == "run_id" then Str("r") else Null
  }

  function Begun(c: Child, attempt: string): map<string, Json> {
    map k | k in START_FIELDS :: ChildField(c, attempt, k)
  }
  function Ended(c: Child, attempt: string): map<string, Json> {
    map k | k in FINISH_FIELDS :: ChildField(c, attempt, k)
  }
  function Called(v: Variant): map<string, Json> { map k | k in TOOL_START_FIELDS :: ToolField(v, Null, Null, k) }
  function Returned(v: Variant, success: Json, status: Json): map<string, Json> {
    map k | k in TOOL_RESULT_FIELDS :: ToolField(v, success, status, k)
  }
  function Closed(v: Variant): map<string, Json> {
    (map k | k in TERMINAL_FIELDS :: TerminalField(v, k))["metadata" := v.metadata]
  }

  const QUIET := Event(OtherType("ping"), Null)

  function CallEvent(v: Variant): Event { Event(ToolCallStart, Obj(Called(v))) }
  function ResultEvent(v: Variant, success: Json, status: Json): Event {
    Event(ToolCallResult, Obj(Returned(v, success, status)))
  }
  function BeginEvent(c: Child, attempt: string): Event { Event(SubagentStarted, Obj(Begun(c, attempt))) }
  function EndEvent(c: Child, attempt: string): Event { Event(SubagentFinished, Obj(Ended(c, attempt))) }

  function Opening(v: Variant): Event { if v.tail.LateCall? then QUIET else CallEvent(v) }
  function Repeated(v: Variant): Event { if v.twice then CallEvent(v) else QUIET }
  function Closing(v: Variant): Event {
    match v.tail
    case Nothing => QUIET
    case LateCall => CallEvent(v)
    case Further(success, status) => ResultEvent(v, success, status)
  }

  function Stream(v: Variant): seq<Event> {
    [Opening(v), Repeated(v), BeginEvent(First(v), v.attempt), BeginEvent(Second(v), v.attempt),
     EndEvent(First(v), v.attempt), EndEvent(Second(v), v.attempt), ResultEvent(v, Bool(true), Null), Closing(v),
     Event(TextDelta, Str(v.text)), Event(RunFinished, Obj(Closed(v)))]
  }

  // ---- Reading its fields -----------------------------------------------------------------------

  lemma ChildGets(c: Child, attempt: string, f: map<string, Json>)
    requires f in {Begun(c, attempt), Ended(c, attempt)}
    ensures Get(f, "agent_id") == Str(c.agent) && Get(f, "profile_id") == c.profile && Get(f, "agent_type") == c.kind
              && Get(f, "source_plugin") == c.plugin && Get(f, "definition_sha256") == c.definition
              && Get(f, "dispatch_index") == Int(c.index) && Get(f, "attempt_id") == Str(attempt)
              && Get(f, "started_monotonic_ms") == Int(0)
  {
  }

  lemma EndedGets(c: Child, attempt: string)
    ensures var f := Ended(c, attempt);
            && Get(f, "finished_monotonic_ms") == Int(100) && Get(f, "status") == Str("completed")
            && Get(f, "error") == Null && INHERITED_FIELDS <= f.Keys
  {
  }

  lemma CalledGets(v: Variant)
    ensures var f := Called(v);
            && Get(f, "tool_call_id") == Str(CALL) && Get(f, "call_id") == Null && Get(f, "tool_id") == Null
            && Get(f, "name") == Str(SPAWN) && Get(f, "tool_name") == Null && Get(f, "attempt_id") == v.toolAttempt
            && Get(f, "arguments") == PRESCRIBED
  {
  }

  lemma ReturnedNames(v: Variant, success: Json, status: Json)
    ensures var f := Returned(v, success, status);
            && Get(f, "tool_call_id") == Str(CALL) && Get(f, "call_id") == Null && Get(f, "tool_id") == Null
            && Get(f, "name") == Str(SPAWN) && Get(f, "tool_name") == Null && Get(f, "attempt_id") == v.toolAttempt
  {
  }

  lemma ReturnedGets(v: Variant, success: Json, status: Json)
    ensures var f := Returned(v, success, status);
            && Get(f, "success") == success && Get(f, "status") == status && Get(f, "side_effect_state") == Str(v.state)
            && Get(f, "error") == Null && Get(f, "error_code") == Null
  {
  }

  lemma ClosedGets(v: Variant)
    ensures var f := TerminalFields(Obj(Closed(v)));
            && Get(f, "attempt_id") == Str(v.attempt) && Get(f, "run_id") == Str("r")
            && Get(f, "status") == Null && Get(f, "error") == Null
            && var envelope := if v.metadata.Obj? then Get(v.metadata.fields, "terminal_envelope") else Null;
            && Get(f, "terminal_envelope") == if envelope.Obj? then Obj(Whitelist(envelope, ENVELOPE_FIELDS)) else Null
  {
    assert "metadata" !in TERMINAL_FIELDS && "terminal_envelope" !in TERMINAL_FIELDS;
    assert Get(Closed(v), "metadata") == v.metadata;
  }

  // ---- Its lists, event by event ----------------------------------------------------------------

  datatype Lists = Lists(starts: seq<Receipt>, finishes: seq<Receipt>, calls: seq<Receipt>, results: seq<Receipt>,
                         ends: seq<Receipt>, texts: seq<TextReceipt>)

  ghost predicate ListsAre(l: Lists, events: seq<Event>, n: nat)
    requires n <= |events|
  {
    && l.starts == ReceiptsOf(events, n, StartKind) && l.finishes == ReceiptsOf(events, n, FinishKind)
    && l.calls == ReceiptsOf(events, n, ToolStartKind) && l.results == ReceiptsOf(events, n, ToolResultKind)
    && l.ends == ReceiptsOf(events, n, TerminalKind) && l.texts == TextsOf(events, n)
  }

  function Grown(l: Lists, n: nat, e: Event): Lists {
    var kind := KindOf(e.eventType);
    var r := Receipt(n, e.eventType, FieldsOf(kind, e.data));
    match kind
    case StartKind => l.(starts := l.starts + [r])
    case FinishKind => l.(finishes := l.finishes + [r])
    case ToolStartKind => l.(calls := l.calls + [r])
    case ToolResultKind => l.(results := l.results + [r])
    case TerminalKind => l.(ends := l.ends + [r])
    case TextKind => l.(texts := l.texts + [TextReceipt(n, e.eventType, EventText(e.data))])
    case OtherKind => l
  }

  lemma Grow(l: Lists, events: seq<Event>, n: nat)
    requires n < |events| && ListsAre(l, events, n)
    ensures ListsAre(Grown(l, n, events[n]), events, n + 1)
  {
  }

  lemma Kept(f: map<string, Json>, allowed: set<string>)
    requires f.Keys <= allowed
    ensures Whitelist(Obj(f), allowed) == f
  {
  }

  lemma QuietAdds(l: Lists, n: nat)
    ensures Grown(l, n, QUIET) == l
  {
  }

  lemma CallAdds(l: Lists, n: nat, v: Variant)
    ensures Grown(l, n, CallEvent(v)) == l.(calls := l.calls + [CallAt(v, n)])
  {
    Kept(Called(v), TOOL_START_FIELDS);
  }

  lemma TextAdds(l: Lists, n: nat, text: string)
    ensures Grown(l, n, Event(TextDelta, Str(text))) == l.(texts := l.texts + [TextReceipt(n, TextDelta, text)])
  {
  }

  lemma EndAdds(l: Lists, n: nat, v: Variant)
    ensures Grown(l, n, Event(RunFinished, Obj(Closed(v)))) == l.(ends := l.ends + [EndAt(v, n)])
  {
  }

  lemma ResultAdds(l: Lists, n: nat, v: Variant, success: Json, status: Json)
    ensures Grown(l, n, ResultEvent(v, success, status)) ==
              l.(results := l.results + [ResultAt(v, n, success, status)])
  {
    Kept(Returned(v, success, status), TOOL_RESULT_FIELDS);
  }

  lemma ChildAdds(l: Lists, n: nat, c: Child, attempt: string)
    ensures Grown(l, n, BeginEvent(c, attempt)) == l.(starts := l.starts + [BeginAt(c, attempt, n)])
    ensures Grown(l, n, EndEvent(c, attempt)) == l.(finishes := l.finishes + [FinishAt(c, attempt, n)])
  {
    Kept(Begun(c, attempt), START_FIELDS);
    Kept(Ended(c, attempt), FINISH_FIELDS);
  }

  function CallAt(v: Variant, n: nat): Receipt { Receipt(n, ToolCallStart, Called(v)) }
  function ResultAt(v: Variant, n: nat, success: Json, status: Json): Receipt {
    Receipt(n, ToolCallResult, Returned(v, success, status))
  }
  function BeginAt(c: Child, attempt: string, n: nat): Receipt { Receipt(n, SubagentStarted, Begun(c, attempt)) }
  function FinishAt(c: Child, attempt: string, n: nat): Receipt { Receipt(n, SubagentFinished, Ended(c, attempt)) }
  function EndAt(v: Variant, n: nat): Receipt { Receipt(n, RunFinished, TerminalFields(Obj(Closed(v)))) }

  function Starts(v: Variant): seq<Receipt> {
    [BeginAt(First(v), v.attempt, 2), BeginAt(Second(v), v.attempt, 3)]
  }
  function Finishes(v: Variant): seq<Receipt> {
    [FinishAt(First(v), v.attempt, 4), FinishAt(Second(v), v.attempt, 5)]
  }
  function Early(v: Variant): seq<Receipt> {
    (if v.tail.LateCall? then [] else [CallAt(v, 0)]) + if v.twice then [CallAt(v, 1)] else []
  }
  function Calls(v: Variant): seq<Receipt> { Early(v) + if v.tail.LateCall? then [CallAt(v, 7)] else [] }
  function Regular(v: Variant): Receipt { ResultAt(v, 6, Bool(true), Null) }
  function Results(v: Variant): seq<Receipt> {
    if v.tail.Further? then [Regular(v), ResultAt(v, 7, v.tail.success, v.tail.status)] else [Regular(v)]
  }

  /** The events one by one. */
  ghost predicate IsStream(v: Variant, s: seq<Event>) {
    && |s| == 10 && s[0] == Opening(v) && s[1] == Repeated(v)
    && s[2] == BeginEvent(First(v), v.attempt) && s[3] == BeginEvent(Second(v), v.attempt)
    && s[4] == EndEvent(First(v), v.attempt) && s[5] == EndEvent(Second(v), v.attempt)
    && s[6] == ResultEvent(v, Bool(true), Null) && s[7] == Closing(v)
    && s[8] == Event(TextDelta, Str(v.text)) && s[9] == Event(RunFinished, Obj(Closed(v)))
  }

  lemma StreamEvents(v: Variant)
    ensures IsStream(v, Stream(v))
  {
  }

  lemma Took(l: Lists, m: Lists, s: seq<Event>, n: nat, e: Event)
    requires n < |s| && s[n] == e && ListsAre(l, s, n) && Grown(l, n, e) == m
    ensures ListsAre(m, s, n + 1)
  {
    Grow(l, s, n);
  }

  /** A place holds the call or nothing of interest. */
  lemma MaybeCall(v: Variant, calls: seq<Receipt>, s: seq<Event>, n: nat, called: bool)
    requires n < |s| && s[n] == (if called then CallEvent(v) else QUIET)
    requires ListsAre(Lists([], [], calls, [], [], []), s, n)
    ensures ListsAre(Lists([], [], calls + (if called then [CallAt(v, n)] else []), [], [], []), s, n + 1)
  {
    var l := Lists([], [], calls, [], [], []);
    QuietAdds(l, n);
    CallAdds(l, n, v);
    assert calls + [] == calls;
    Took(l, Lists([], [], calls + (if called then [CallAt(v, n)] else []), [], [], []), s, n, s[n]);
  }

  lemma OpeningLists(v: Variant, s: seq<Event>)
    requires IsStream(v, s)
    ensures ListsAre(Lists([], [], Early(v), [], [], []), s, 2)
  {
    var first := if v.tail.LateCall? then [] else [CallAt(v, 0)];
    MaybeCall(v, [], s, 0, !v.tail.LateCall?);
    assert [] + first == first;
    MaybeCall(v, first, s, 1, v.twice);
  }

  lemma StartLists(v: Variant, s: seq<Event>)
    requires IsStream(v, s)
    ensures ListsAre(Lists(Starts(v), [], Early(v), [], [], []), s, 4)
  {
    OpeningLists(v, s);
    var l := Lists([], [], Early(v), [], [], []);
    var m := l.(starts := [BeginAt(First(v), v.attempt, 2)]);
    ChildAdds(l, 2, First(v), v.attempt);
    Took(l, m, s, 2, BeginEvent(First(v), v.attempt));
    ChildAdds(m, 3, Second(v), v.attempt);
    Took(m, l.(starts := Starts(v)), s, 3, BeginEvent(Second(v), v.attempt));
  }

  lemma FinishLists(v: Variant, s: seq<Event>)
    requires IsStream(v, s)
    ensures ListsAre(Lists(Starts(v), Finishes(v), Early(v), [], [], []), s, 6)
  {
    StartLists(v, s);
    var l := Lists(Starts(v), [], Early(v), [], [], []);
    var m := l.(finishes := [FinishAt(First(v), v.attempt, 4)]);
    ChildAdds(l, 4, First(v), v.attempt);
    Took(l, m, s, 4, EndEvent(First(v), v.attempt));
    ChildAdds(m, 5, Second(v), v.attempt);
    Took(m, l.(finishes := Finishes(v)), s, 5, EndEvent(Second(v), v.attempt));
  }

  lemma ToolLists(v: Variant, s: seq<Event>)
    requires IsStream(v, s)
    ensures ListsAre(Lists(Starts(v), Finishes(v), Calls(v), Results(v), [], []), s, 8)
  {
    FinishLists(v, s);
    var l := Lists(Starts(v), Finishes(v), Early(v), [], [], []);
    var m := l.(results := [Regular(v)]);
    ResultAdds(l, 6, v, Bool(true), Null);
    Took(l, m, s, 6, ResultEvent(v, Bool(true), Null));
    QuietAdds(m, 7);
    CallAdds(m, 7, v);
    if v.tail.Further? { ResultAdds(m, 7, v, v.tail.success, v.tail.status); }
    assert Early(v) + [] == Early(v);
    Took(m, l.(calls := Calls(v), results := Results(v)), s, 7, Closing(v));
  }

  lemma StreamLists(v: Variant, s: seq<Event>)
    requires IsStream(v, s)
    ensures ListsAre(Lists(Starts(v), Finishes(v), Calls(v), Results(v), [EndAt(v, 9)],
                           [TextReceipt(8, TextDelta, v.text)]), s, 10)
  {
    ToolLists(v, s);
    var l := Lists(Starts(v), Finishes(v), Calls(v), Results(v), [], []);
    var m := l.(texts := [TextReceipt(8, TextDelta, v.text)]);
    TextAdds(l, 8, v.text);
    Took(l, m, s, 8, Event(TextDelta, Str(v.text)));
    EndAdds(m, 9, v);
    Took(m, m.(ends := [EndAt(v, 9)]), s, 9, Event(RunFinished, Obj(Closed(v))));
  }

  /** A finish that has all inherited fields takes nothing from a start. */
  lemma Inherited(starts: seq<Receipt>, finish: Receipt)
    requires INHERITED_FIELDS <= finish.fields.Keys
    ensures Inherit(starts, finish) == finish
  {
  }

  /** The lists of a summary of the stream. */
  ghost predicate Shows(v: Variant, o: Observation) {
    && o.starts == Starts(v) && o.finishes == Finishes(v) && o.toolStarts == Calls(v) && o.toolResults == Results(v)
    && o.terminals == [EndAt(v, 9)] && o.texts == [TextReceipt(8, TextDelta, v.text)]
  }

  lemma NothingInherited(starts: seq<Receipt>, finishes: seq<Receipt>)
    requires forall i :: 0 <= i < |finishes| ==> INHERITED_FIELDS <= finishes[i].fields.Keys
    ensures InheritAll(starts, finishes) == finishes
  {
    forall i | 0 <= i < |finishes| ensures Inherit(starts, finishes[i]) == finishes[i] {
      Inherited(starts, finishes[i]);
    }
  }

  lemma FinishKeys(v: Variant)
    ensures forall i :: 0 <= i < |Finishes(v)| ==> INHERITED_FIELDS <= Finishes(v)[i].fields.Keys
  {
    EndedGets(First(v), v.attempt);
    EndedGets(Second(v), v.attempt);
  }

  lemma SummaryShows(v: Variant, o: Observation)
    requires Summarises(o, Stream(v))
    ensures Shows(v, o)
  {
    StreamEvents(v);
    StreamLists(v, Stream(v));
    FinishKeys(v);
    NothingInherited(o.starts, Finishes(v));
  }

  // ---- The runner accepts it --------------------------------------------------------------------

  function StatusText(status: Json): string { if Truthy(status) then Printed(status) else "" }

  predicate Recognised(status: Json) { status in {Null, Str(""), Str("completed"), Str("succeeded"), Str("success")} }

  /** A further result that the runner counts neither as a completion nor as a failure. */
  predicate Idle(success: Json, status: Json) {
    && success != Bool(false)
    && Lower(StatusText(status)) !in {"error", "failed", "cancelled", "blocked", "unknown"}
    && !(success == Bool(true) && Recognised(status))
  }

  /** What the runner asks of a variant. */
  predicate Runs(v: Variant) {
    && v.attempt != "" && v.plugin != "" && v.kind in {Str("5"), Int(5)} && v.agent != "" && v.text != ""
    && v.toolAttempt in {Null, Str(v.attempt)} && Lower(v.state) in {"none", "read_only"}
    && (v.tail.Further? ==> Idle(v.tail.success, v.tail.status))
  }

  /** Children with the dispatch indexes 0, 1, ... in order pass if each pair does. */
  lemma PairsPass(scenario: Scenario, o: Observation, attempt: string)
    requires attempt != "" && |o.starts| == |o.finishes| == |scenario.required|
    requires forall d :: 0 <= d < |o.starts| ==>
               && PairValid(scenario.required[d], o.starts[d], o.finishes[d], attempt)
               && IndexIs(o.starts[d], d) && IndexIs(o.finishes[d], d)
    ensures ProfilesValid(scenario, o, attempt)
  {
  }

  /** The child is named as required, by its profile or by its type. */
  predicate Named(c: Child, expected: string) {
    && expected != "" && c.agent != ""
    && (c.profile == Str(expected) || (c.profile == Null && Truthy(c.kind) && BUILTIN + Printed(c.kind) == expected))
    && if IsBuiltin(expected) then !Truthy(c.definition) else IsSha(c.definition) && Truthy(c.plugin)
  }

  lemma PairPasses(c: Child, attempt: string, expected: string, s: Receipt, f: Receipt)
    requires Named(c, expected) && s.fields == Begun(c, attempt) && f.fields == Ended(c, attempt)
    requires s.ordinal < f.ordinal
    ensures PairValid(expected, s, f, attempt) && IndexIs(s, c.index) && IndexIs(f, c.index)
  {
    ChildGets(c, attempt, s.fields);
    ChildGets(c, attempt, f.fields);
    EndedGets(c, attempt);
  }

  lemma ChildrenNamed(v: Variant)
    requires Runs(v)
    ensures Named(First(v), PLUGIN) && Named(Second(v), NUMBERED)
  {
    Identifiers();
    assert IsSha(Str(LOCAL));
    assert Decimal(5) == "5" && BUILTIN + "5" == NUMBERED;
  }

  lemma ProfilesPass(v: Variant, scenario: Scenario, o: Observation)
    requires Runs(v) && Shows(v, o) && scenario.required == REQUIRED
    ensures ProfilesValid(scenario, o, v.attempt)
    ensures IndexIs(o.finishes[0], 0) && IndexIs(o.finishes[1], 1)
  {
    ChildrenNamed(v);
    PairPasses(First(v), v.attempt, PLUGIN, o.starts[0], o.finishes[0]);
    PairPasses(Second(v), v.attempt, NUMBERED, o.starts[1], o.finishes[1]);
    TwoPairs(scenario, o, v.attempt);
  }

  lemma TwoPairs(scenario: Scenario, o: Observation, attempt: string)
    requires attempt != "" && |o.starts| == |o.finishes| == |scenario.required| == 2
    requires PairValid(scenario.required[0], o.starts[0], o.finishes[0], attempt)
    requires PairValid(scenario.required[1], o.starts[1], o.finishes[1], attempt)
    requires IndexIs(o.starts[0], 0) && IndexIs(o.finishes[0], 0)
    requires IndexIs(o.starts[1], 1) && IndexIs(o.finishes[1], 1)
    ensures ProfilesValid(scenario, o, attempt)
  {
    PairsPass(scenario, o, attempt);
  }

  // ---- Overlaps ---------------------------------------------------------------------------------

  /** The overlaps of finishes with the indexes below n are those of these indexes in order. */
  lemma OverlapsByRange(finishes: seq<Receipt>, overlaps: seq<Overlap>, n: nat)
    requires OverlapListOf(overlaps, finishes)
    requires forall k :: k in ByIndex(finishes) <==> 0 <= k < n
    ensures overlaps == OverlapsFrom(ByIndex(finishes), Range(n))
  {
    var keys: seq<int> :|
      && (forall i, j :: 0 <= i < j < |keys| ==> keys[i] < keys[j])
      && (forall k :: k in keys <==> k in ByIndex(finishes))
      && overlaps == OverlapsFrom(ByIndex(finishes), keys);
    KeysBelowAre(keys, n);
  }

  lemma IndexOfTwo(f: Receipt, g: Receipt)
    requires IndexIs(f, 0) && IndexIs(g, 1)
    ensures ByIndex([f, g]) == map[0 := f, 1 := g]
  {
    assert [f, g][..1] == [f] && [f][..0] == [];
    assert ByIndex([f]) == map[0 := f];
  }

  lemma KeysOfTwo(byIndex: map<int, Receipt>, f: Receipt, g: Receipt)
    requires byIndex == map[0 := f, 1 := g]
    ensures forall k :: k in byIndex <==> 0 <= k < 2
    ensures OverlapsFrom(byIndex, Range(2)) == [OverlapOf(0, 1, f, g)]
  {
    RangeOfTwo();
    TwoKeys(byIndex, f, g);
  }

  lemma OverlapOfTwo(f: Receipt, g: Receipt, overlaps: seq<Overlap>)
    requires IndexIs(f, 0) && IndexIs(g, 1) && OverlapListOf(overlaps, [f, g])
    ensures overlaps == [OverlapOf(0, 1, f, g)]
  {
    IndexOfTwo(f, g);
    KeysOfTwo(ByIndex([f, g]), f, g);
    OverlapsByRange([f, g], overlaps, 2);
  }

  lemma RangeOfTwo()
    ensures Range(2) == [0, 1]
  {
  }

  lemma TwoKeys(byIndex: map<int, Receipt>, f: Receipt, g: Receipt)
    requires byIndex == map[0 := f, 1 := g]
    ensures OverlapsFrom(byIndex, [0, 1]) == [OverlapOf(0, 1, f, g)]
  {
    assert [0, 1][1..] == [1] && [1][1..] == [];
    assert OverlapsFrom(byIndex, [1]) == [];
  }

  /** The increasing list of the numbers below n. */
  lemma KeysBelowAre(keys: seq<int>, n: nat)
    requires forall i, j :: 0 <= i < j < |keys| ==> keys[i] < keys[j]
    requires forall k :: k in keys <==> 0 <= k < n
    ensures keys == Range(n)
  {
    var range := Range(n);
    forall k ensures k in range <==> k in keys {
      if 0 <= k < n { assert range[k] == k; }
    }
    assert forall i :: 0 <= i < |keys| ==> keys[i] in keys;
    DistinctPermutes(keys, range);
    forall x: int, y: int ensures IntLeq(x, y) || IntLeq(y, x) {}
    OrderedUnique(IntLeq, keys, range);
  }

  lemma OneLongPair(scenario: Scenario, o: Observation)
    requires |scenario.required| == 2 && o.overlaps == [Overlap(0, 1, true, 100.0)]
    ensures ParallelValid(scenario, o)
  {
    assert o.overlaps[0].left == 0 && o.overlaps[0].right == 1;
    assert PairListed(o.overlaps, 0, 1);
  }

  lemma LongTogether(v: Variant, f: Receipt, g: Receipt)
    requires f.fields == Ended(First(v), v.attempt) && g.fields == Ended(Second(v), v.attempt)
    ensures OverlapOf(0, 1, f, g) == Overlap(0, 1, true, 100.0)
  {
    ChildGets(First(v), v.attempt, f.fields);
    ChildGets(Second(v), v.attempt, g.fields);
    EndedGets(First(v), v.attempt);
    EndedGets(Second(v), v.attempt);
  }

  lemma ParallelPasses(v: Variant, scenario: Scenario, o: Observation)
    requires Shows(v, o) && OverlapListOf(o.overlaps, o.finishes) && |scenario.required| == 2
    requires IndexIs(o.finishes[0], 0) && IndexIs(o.finishes[1], 1)
    ensures ParallelValid(scenario, o)
  {
    OverlapOfTwo(o.finishes[0], o.finishes[1], o.overlaps);
    LongTogether(v, o.finishes[0], o.finishes[1]);
    OneLongPair(scenario, o);
  }

  lemma EndPasses(v: Variant, o: Observation)
    requires Runs(v) && Shows(v, o)
    ensures TerminalValid(o, v.attempt) && FinalText(o.texts) == Some(8) && o.terminals[0].ordinal == 9
  {
    ClosedGets(v);
    assert o.texts[..0] == [];
  }

  // ---- Its tool receipts ------------------------------------------------------------------------

  /** The merged state of one or more equal starts of the call. */
  ghost predicate Merged(n: Normal, given: Json) {
    && n.starts.Keys == {CALL} && n.arguments.Keys == {CALL} && n.arguments[CALL] == given && !n.malformed
    && Get(n.starts[CALL], "name") == Str(SPAWN) && Absent(Get(n.starts[CALL], "tool_name"))
    && Get(n.starts[CALL], "arguments") == given
  }

  predicate CallItem(fields: map<string, Json>, given: Json) {
    && given.Obj? && Get(fields, "arguments") == given
    && Get(fields, "tool_call_id") == Str(CALL) && Get(fields, "call_id") == Null && Get(fields, "tool_id") == Null
    && Get(fields, "name") == Str(SPAWN) && Get(fields, "tool_name") == Null
  }

  lemma ItemReads(fields: map<string, Json>)
    requires Get(fields, "tool_call_id") == Str(CALL) && Get(fields, "call_id") == Null
               && Get(fields, "tool_id") == Null
    requires Get(fields, "name") == Str(SPAWN) && Absent(Get(fields, "tool_name"))
    ensures CallId(fields) == CALL && ToolName(fields) == SPAWN
    ensures AliasesConsistent(fields, CALL_KEYS) && AliasesConsistent(fields, NAME_KEYS)
  {
    assert CALL_KEYS[0] == "tool_call_id" && CALL_KEYS[1] == "call_id" && CALL_KEYS[2] == "tool_id";
    assert NAME_KEYS[0] == "name" && NAME_KEYS[1] == "tool_name";
  }

  lemma MergedName(n: Normal, given: Json)
    requires Merged(n, given)
    ensures ToolName(n.starts[CALL]) == SPAWN
  {
    NamesInOrder(n.starts[CALL]);
  }

  lemma MergedStep(loads: string -> Option<Json>, n: Normal, item: Receipt, given: Json)
    requires CallItem(item.fields, given) && (n == NO_STARTS || Merged(n, given))
    ensures Merged(MergeStart(loads, n, item), given)
  {
    ItemReads(item.fields);
    if n != NO_STARTS { MergedName(n, given); }
    assert "name" != "arguments" && "tool_name" != "arguments";
  }

  lemma {:induction false} MergedItems(loads: string -> Option<Json>, items: seq<Receipt>, given: Json)
    requires items != [] && forall k :: 0 <= k < |items| ==> CallItem(items[k].fields, given)
    ensures Merged(MergeStarts(loads, items), given)
  {
    var init := items[..|items| - 1];
    if init != [] { MergedItems(loads, init, given); }
    MergedStep(loads, MergeStarts(loads, init), items[|items| - 1], given);
  }

  lemma CallsMerge(v: Variant, loads: string -> Option<Json>)
    ensures Merged(MergeStarts(loads, Calls(v)), PRESCRIBED)
  {
    CalledGets(v);
    CallsAlike(v);
    MergedItems(loads, Calls(v), PRESCRIBED);
  }

  lemma CallsAlike(v: Variant)
    ensures |Calls(v)| == if v.twice then 2 else 1
    ensures forall k :: 0 <= k < |Calls(v)| ==> Calls(v)[k].fields == Called(v)
  {
  }

  lemma OneSpawnId(n: Normal, given: Json)
    requires Merged(n, given)
    ensures SpawnIds(n.starts) == {CALL} && (forall id :: id in n.starts ==> id == CALL)
  {
    MergedName(n, given);
    assert forall id :: id in n.starts <==> id in n.starts.Keys;
  }

  lemma AnsweredOne(starts: map<string, map<string, Json>>, results: seq<Receipt>)
    requires CALL in starts && forall id :: id in starts ==> id == CALL
    requires results != [] && forall k :: 0 <= k < |results| ==> CallId(results[k].fields) == CALL
    ensures AnsweredExactly(starts, results)
  {
    assert CallId(results[0].fields) == CALL;
    assert Answered(results, CALL);
  }

  lemma OneCallOnly(scenario: Scenario, host: Host, o: Observation, given: Json)
    requires scenario.required != [] && ToolReceiptsSound(host.loads, o)
               && Merged(MergeStarts(host.loads, o.toolStarts), given)
    ensures NoExtraTools(scenario, host.loads, o)
    ensures SpawnArguments(MergeStarts(host.loads, o.toolStarts).starts) == given
    ensures DelegationOk(scenario, host, given) ==>
              DelegationCallValid(scenario, host.loads, ArgumentsCheck(scenario, host), o)
    ensures forall id :: SpawnIds(MergeStarts(host.loads, o.toolStarts).starts) == {id} <==> id == CALL
  {
    var n := MergeStarts(host.loads, o.toolStarts);
    OneSpawnId(n, given);
    MergedName(n, given);
    OneSpawn(n.starts, CALL);
    forall id | SpawnIds(n.starts) == {id} ensures id == CALL { assert id in SpawnIds(n.starts); }
  }

  lemma OrderFromParts(scenario: Scenario, loads: string -> Option<Json>, argumentsOk: Json -> bool, o: Observation,
                       attempt: string)
    requires ProfilesValid(scenario, o, attempt) && TerminalValid(o, attempt)
               && AggregateValid(scenario, loads, argumentsOk, o)
    requires FinalText(o.texts).Some? && FinalText(o.texts).value < o.terminals[0].ordinal
    requires forall id :: SpawnIds(MergeStarts(loads, o.toolStarts).starts) == {id} <==> id == CALL
    requires CompletionInOrder(o, Completions(ResultsOf(o.toolResults, CALL)), FinalText(o.texts).value)
    ensures SynthesisOrder(scenario, loads, argumentsOk, o, attempt)
  {
  }

  /** What the runner sees in a result of the call. */
  ghost predicate ResultSound(r: Receipt) {
    && r.eventType in TOOL_RESULT_EVENTS && CallId(r.fields) == CALL && ToolName(r.fields) == SPAWN
    && AliasesConsistent(r.fields, CALL_KEYS) && AliasesConsistent(r.fields, NAME_KEYS)
    && SpawnResultAcceptable(r)
  }

  lemma ResultPasses(v: Variant, n: nat, success: Json, status: Json)
    requires Lower(v.state) in {"none", "read_only"}
    requires Idle(success, status) || (success, status) == (Bool(true), Null)
    ensures ResultSound(ResultAt(v, n, success, status))
    ensures IsCompletion(ResultAt(v, n, success, status)) <==> !Idle(success, status)
  {
    ReturnedNames(v, success, status);
    ReturnedGets(v, success, status);
    ItemReads(Returned(v, success, status));
    StateText(v.state);
    assert Lower("") == "";
  }

  lemma StateText(state: string)
    ensures StatusText(Str(state)) == state
  {
  }

  lemma ResultsPass(v: Variant)
    requires Runs(v)
    ensures forall k :: 0 <= k < |Results(v)| ==> ResultSound(Results(v)[k])
    ensures Completions(Results(v)) == [Regular(v)]
  {
    ResultPasses(v, 6, Bool(true), Null);
    assert !Idle(Bool(true), Null);
    OneCompletion(Regular(v));
    if v.tail.Further? {
      ResultPasses(v, 7, v.tail.success, v.tail.status);
      IdleAfter(Regular(v), ResultAt(v, 7, v.tail.success, v.tail.status));
    }
  }

  lemma OneCompletion(r: Receipt)
    requires IsCompletion(r)
    ensures Completions([r]) == [r]
  {
    assert [r][..0] == [];
  }

  lemma IdleAfter(r: Receipt, s: Receipt)
    requires Completions([r]) == [r] && !IsCompletion(s)
    ensures Completions([r, s]) == [r]
  {
    assert [r, s][..1] == [r];
  }

  lemma ToolsSound(loads: string -> Option<Json>, o: Observation)
    requires Merged(MergeStarts(loads, o.toolStarts), PRESCRIBED)
    requires o.toolResults != [] && forall k :: 0 <= k < |o.toolResults| ==> ResultSound(o.toolResults[k])
    ensures ToolReceiptsSound(loads, o)
    ensures AnsweredExactly(MergeStarts(loads, o.toolStarts).starts, o.toolResults)
  {
    var n := MergeStarts(loads, o.toolStarts);
    MergedName(n, PRESCRIBED);
    assert CALL in n.starts.Keys;
    forall k | 0 <= k < |o.toolResults| ensures ResultWellFormed(n.starts, o.toolResults[k]) {
      assert ResultSound(o.toolResults[k]);
    }
    OneSpawnId(n, PRESCRIBED);
    AnsweredOne(n.starts, o.toolResults);
  }

  /** The tool receipts of a variant, as the checks on them need them. */
  lemma ToolsPass(v: Variant, host: Host, o: Observation)
    requires host.Standard() && Runs(v) && Shows(v, o)
    ensures ToolReceiptsSound(host.loads, o)
    ensures AnsweredExactly(MergeStarts(host.loads, o.toolStarts).starts, o.toolResults)
    ensures NoExtraTools(ScenarioOf(host), host.loads, o)
    ensures SpawnArguments(MergeStarts(host.loads, o.toolStarts).starts) == PRESCRIBED
    ensures DelegationCallValid(ScenarioOf(host), host.loads, ArgumentsCheck(ScenarioOf(host), host), o)
    ensures forall id :: SpawnIds(MergeStarts(host.loads, o.toolStarts).starts) == {id} <==> id == CALL
  {
    CallsMerge(v, host.loads);
    ResultsPass(v);
    ToolsSound(host.loads, o);
    PrescribedPasses(host);
    OneCallOnly(ScenarioOf(host), host, o, PRESCRIBED);
  }

  lemma OnlyCall(results: seq<Receipt>)
    requires forall k :: 0 <= k < |results| ==> ResultSound(results[k])
    ensures ResultsOf(results, CALL) == results
  {
    forall k | 0 <= k < |results| ensures CallId(results[k].fields) == CALL { assert ResultSound(results[k]); }
    ResultsOfAll(results, CALL);
  }

  lemma AggregateFromParts(scenario: Scenario, loads: string -> Option<Json>, argumentsOk: Json -> bool, o: Observation)
    requires DelegationCallValid(scenario, loads, argumentsOk, o)
    requires forall id :: SpawnIds(MergeStarts(loads, o.toolStarts).starts) == {id} <==> id == CALL
    requires |Completions(o.toolResults)| == 1 && ResultsOf(o.toolResults, CALL) == o.toolResults
    requires forall k :: 0 <= k < |o.toolResults| ==> ResultSound(o.toolResults[k])
    ensures AggregateValid(scenario, loads, argumentsOk, o)
  {
    forall k | 0 <= k < |o.toolResults| ensures SpawnResultAcceptable(o.toolResults[k]) {
      assert ResultSound(o.toolResults[k]);
    }
  }

  lemma AggregatePasses(v: Variant, scenario: Scenario, loads: string -> Option<Json>, argumentsOk: Json -> bool,
                        o: Observation)
    requires Runs(v) && o.toolResults == Results(v) && DelegationCallValid(scenario, loads, argumentsOk, o)
    requires forall id :: SpawnIds(MergeStarts(loads, o.toolStarts).starts) == {id} <==> id == CALL
    ensures AggregateValid(scenario, loads, argumentsOk, o)
    ensures Completions(ResultsOf(o.toolResults, CALL)) == [Regular(v)]
  {
    ResultsPass(v);
    OnlyCall(o.toolResults);
    AggregateFromParts(scenario, loads, argumentsOk, o);
  }

  lemma OrderPasses(v: Variant, scenario: Scenario, loads: string -> Option<Json>, argumentsOk: Json -> bool,
                    o: Observation)
    requires Runs(v) && Shows(v, o) && ProfilesValid(scenario, o, v.attempt)
    requires AggregateValid(scenario, loads, argumentsOk, o)
    requires Completions(ResultsOf(o.toolResults, CALL)) == [Regular(v)]
    requires forall id :: SpawnIds(MergeStarts(loads, o.toolStarts).starts) == {id} <==> id == CALL
    ensures SynthesisOrder(scenario, loads, argumentsOk, o, v.attempt)
  {
    EndPasses(v, o);
    CompletionComes(v, o);
    OrderFromParts(scenario, loads, argumentsOk, o, v.attempt);
  }

  lemma CompletionComes(v: Variant, o: Observation)
    requires Shows(v, o)
    ensures CompletionInOrder(o, [Regular(v)], 8)
  {
  }

  const PASSED := Checks(true, true, true, true, true, true, true, true, true, true, true)

  /** The stream passes every check of the runner. */
  lemma RunnerAccepts(v: Variant, host: Host, o: Observation)
    requires host.Standard() && Runs(v) && Summarises(o, Stream(v))
    ensures ChecksAre(PASSED, ScenarioOf(host), host, Digest(host), o, v.attempt) && AllPass(PASSED)
    ensures Shows(v, o) && ProfilesValid(ScenarioOf(host), o, v.attempt)
  {
    SummaryShows(v, o);
    ProfilesPass(v, ScenarioOf(host), o);
    ParallelPasses(v, ScenarioOf(host), o);
    EndPasses(v, o);
    ToolsPass(v, host, o);
    AggregatePasses(v, ScenarioOf(host), host.loads, ArgumentsCheck(ScenarioOf(host), host), o);
    OrderPasses(v, ScenarioOf(host), host.loads, ArgumentsCheck(ScenarioOf(host), host), o);
    PrescribedPasses(host);
    AllChecks(v, host, o);
  }

  lemma AllChecks(v: Variant, host: Host, o: Observation)
    requires TerminalValid(o, v.attempt) && PromptValid(ScenarioOf(host), host, Digest(host))
    requires ProfilesValid(ScenarioOf(host), o, v.attempt) && ParallelValid(ScenarioOf(host), o)
    requires CanonicalValid(ScenarioOf(host), host, PRESCRIBED) && Parsed(host, PRESCRIBED) == PRESCRIBED
    requires PromptsValid(ScenarioOf(host), host, PRESCRIBED)
    requires ToolReceiptsSound(host.loads, o)
    requires AnsweredExactly(MergeStarts(host.loads, o.toolStarts).starts, o.toolResults)
    requires NoExtraTools(ScenarioOf(host), host.loads, o)
    requires SpawnArguments(MergeStarts(host.loads, o.toolStarts).starts) == PRESCRIBED
    requires DelegationCallValid(ScenarioOf(host), host.loads, ArgumentsCheck(ScenarioOf(host), host), o)
    requires AggregateValid(ScenarioOf(host), host.loads, ArgumentsCheck(ScenarioOf(host), host), o)
    requires SynthesisOrder(ScenarioOf(host), host.loads, ArgumentsCheck(ScenarioOf(host), host), o, v.attempt)
    requires forall id :: SpawnIds(MergeStarts(host.loads, o.toolStarts).starts) == {id} <==> id == CALL
    ensures ChecksAre(PASSED, ScenarioOf(host), host, Digest(host), o, v.attempt)
  {
    assert SpawnIds(MergeStarts(host.loads, o.toolStarts).starts) == {CALL};
  }

  // ---- The runner admits it ---------------------------------------------------------------------

  lemma OnlyAttempt(attempts: set<string>, events: seq<Event>, attempt: string, i: nat)
    requires AttemptsOf(attempts, events, |events|) && attempt != "" && i < |events| && AttemptOf(events[i]) == attempt
    requires forall k :: 0 <= k < |events| ==> AttemptOf(events[k]) in {"", attempt}
    ensures attempts == {attempt}
  {
    assert attempt in attempts;
    forall a | a in attempts ensures a == attempt {
      var k :| 0 <= k < |events| && AttemptOf(events[k]) == a;
    }
  }

  lemma AttemptsOfStream(v: Variant, s: seq<Event>)
    requires Runs(v) && IsStream(v, s)
    ensures AttemptOf(s[2]) == v.attempt && forall k :: 0 <= k < |s| ==> AttemptOf(s[k]) in {"", v.attempt}
  {
    CalledGets(v);
    ReturnedNames(v, Bool(true), Null);
    if v.tail.Further? { ReturnedNames(v, v.tail.success, v.tail.status); }
    ChildAttempts(v);
    assert Get(Closed(v), "attempt_id") == Str(v.attempt);
    forall k | 0 <= k < |s| ensures AttemptOf(s[k]) in {"", v.attempt} {
      assert k == 0 || k == 1 || k == 2 || k == 3 || k == 4 || k == 5 || k == 6 || k == 7 || k == 8 || k == 9;
    }
  }

  lemma ChildAttempts(v: Variant)
    requires v.attempt != ""
    ensures AttemptOf(BeginEvent(First(v), v.attempt)) == v.attempt == AttemptOf(EndEvent(First(v), v.attempt))
    ensures AttemptOf(BeginEvent(Second(v), v.attempt)) == v.attempt == AttemptOf(EndEvent(Second(v), v.attempt))
  {
    ChildGets(First(v), v.attempt, Begun(First(v), v.attempt));
    ChildGets(First(v), v.attempt, Ended(First(v), v.attempt));
    ChildGets(Second(v), v.attempt, Begun(Second(v), v.attempt));
    ChildGets(Second(v), v.attempt, Ended(Second(v), v.attempt));
  }

  lemma ChildReads(c: Child, attempt: string, f: map<string, Json>)
    requires f in {Begun(c, attempt), Ended(c, attempt)}
    ensures c.profile == Null || (c.profile == Str(PLUGIN) && c.definition == Str(LOCAL)) ==>
              ReceiptBound(DEFINITIONS, f)
    ensures TypedAgent(f) <==> Truthy(c.profile) || !Truthy(c.kind) || c.kind.Str?
    ensures TextField(f, "agent_id") == c.agent
    ensures c.profile == Str(PLUGIN) ==> (PluginNamed(f) <==> c.plugin == Str("p"))
    ensures c.profile == Null ==> PluginNamed(f)
  {
    ChildGets(c, attempt, f);
    PluginIsNamed();
  }

  /** What the judge looks for in two children. */
  lemma TwoChildren(o: Observation, typed: bool, named: bool, distinct: bool)
    requires |o.starts| == |o.finishes| == 2
    requires TypedAgent(o.starts[0].fields) && TypedAgent(o.finishes[0].fields)
    requires (TypedAgent(o.starts[1].fields) <==> typed) && (TypedAgent(o.finishes[1].fields) <==> typed)
    requires Agent(o.starts[0]) != Agent(o.starts[1]) <==> distinct
    requires (PluginNamed(o.starts[0].fields) <==> named) && PluginNamed(o.starts[1].fields)
    ensures ChildrenSuit(o) <==> typed && distinct && named
  {
  }

  lemma FirstRead(v: Variant, s: Receipt, f: Receipt)
    requires s.fields == Begun(First(v), v.attempt) && f.fields == Ended(First(v), v.attempt)
    ensures TypedAgent(s.fields) && TypedAgent(f.fields) && Agent(s) == "g"
    ensures PluginNamed(s.fields) <==> v.plugin == "p"
    ensures ReceiptBound(DEFINITIONS, s.fields) && ReceiptBound(DEFINITIONS, f.fields)
  {
    ChildReads(First(v), v.attempt, s.fields);
    ChildReads(First(v), v.attempt, f.fields);
  }

  lemma SecondRead(v: Variant, s: Receipt, f: Receipt)
    requires s.fields == Begun(Second(v), v.attempt) && f.fields == Ended(Second(v), v.attempt)
    ensures v.kind in {Str("5"), Int(5)} ==>
              (TypedAgent(s.fields) <==> v.kind.Str?) && (TypedAgent(f.fields) <==> v.kind.Str?)
    ensures Agent(s) == v.agent && PluginNamed(s.fields)
    ensures ReceiptBound(DEFINITIONS, s.fields) && ReceiptBound(DEFINITIONS, f.fields)
  {
    ChildReads(Second(v), v.attempt, s.fields);
    ChildReads(Second(v), v.attempt, f.fields);
  }

  lemma ChildrenAt(v: Variant)
    ensures |Starts(v)| == |Finishes(v)| == 2
    ensures Starts(v)[0].fields == Begun(First(v), v.attempt) && Starts(v)[1].fields == Begun(Second(v), v.attempt)
    ensures Finishes(v)[0].fields == Ended(First(v), v.attempt) && Finishes(v)[1].fields == Ended(Second(v), v.attempt)
  {
  }

  ghost predicate ChildFields(v: Variant, o: Observation) {
    && |o.starts| == |o.finishes| == 2
    && o.starts[0].fields == Begun(First(v), v.attempt) && o.starts[1].fields == Begun(Second(v), v.attempt)
    && o.finishes[0].fields == Ended(First(v), v.attempt) && o.finishes[1].fields == Ended(Second(v), v.attempt)
  }

  lemma ChildrenRead(v: Variant, o: Observation)
    requires v.kind in {Str("5"), Int(5)} && ChildFields(v, o)
    ensures ChildrenSuit(o) <==> v.kind.Str? && v.agent != "g" && v.plugin == "p"
  {
    FirstRead(v, o.starts[0], o.finishes[0]);
    SecondRead(v, o.starts[1], o.finishes[1]);
    TwoChildren(o, v.kind.Str?, v.plugin == "p", v.agent != "g");
  }

  lemma ChildrenBound(v: Variant, o: Observation)
    requires ChildFields(v, o)
    ensures forall k :: 0 <= k < |o.starts| ==> ReceiptBound(DEFINITIONS, o.starts[k].fields)
    ensures forall k :: 0 <= k < |o.finishes| ==> ReceiptBound(DEFINITIONS, o.finishes[k].fields)
  {
    FirstRead(v, o.starts[0], o.finishes[0]);
    SecondRead(v, o.starts[1], o.finishes[1]);
    TwoBound(o.starts);
    TwoBound(o.finishes);
  }

  lemma TwoBound(receipts: seq<Receipt>)
    requires |receipts| == 2
    requires ReceiptBound(DEFINITIONS, receipts[0].fields) && ReceiptBound(DEFINITIONS, receipts[1].fields)
    ensures forall k :: 0 <= k < |receipts| ==> ReceiptBound(DEFINITIONS, receipts[k].fields)
  {
  }

  lemma OneAttemptOnly(v: Variant, o: Observation)
    requires Runs(v) && Summarises(o, Stream(v))
    ensures o.attemptIds == {v.attempt}
  {
    StreamEvents(v);
    AttemptsOfStream(v, Stream(v));
    OnlyAttempt(o.attemptIds, Stream(v), v.attempt, 2);
  }

  lemma RunnerAdmits(v: Variant, o: Observation)
    requires o.starts == Starts(v) && o.finishes == Finishes(v) && o.attemptIds == {v.attempt}
    ensures Admitted(DEFINITIONS, o)
  {
    ChildrenAt(v);
    ChildrenBound(v, o);
  }

  // ---- The judge's conditions on it -------------------------------------------------------------

  /** The judge's conditions beyond the runner's checks. */
  datatype Reason =
    | AttemptId | TerminalEnvelope | TypedNames | DistinctIds | NamedPlugin | TextLength
    | OneCall | CurrentTools | CallFirst | KnownSuccess | KnownFailure | PlainState

  predicate EnvelopeMet(v: Variant) {
    && v.metadata.Obj? && Get(v.metadata.fields, "terminal_envelope").Obj?
    && var fields := Whitelist(Get(v.metadata.fields, "terminal_envelope"), ENVELOPE_FIELDS);
    && Get(fields, "attempt_id") == Str(v.attempt) && Get(fields, "run_id") == Str("r")
    && Get(fields, "status") == Str("succeeded")
    && Get(fields, "tenant_id").Str? && Get(fields, "tenant_id").s != ""
  }

  predicate Met(v: Variant, reason: Reason) {
    match reason
    case AttemptId => IsIdentifier(v.attempt)
    case TerminalEnvelope => EnvelopeMet(v)
    case TypedNames => v.kind.Str?
    case DistinctIds => v.agent != "g"
    case NamedPlugin => v.plugin == "p"
    case TextLength => |v.text| <= MAX_TEXT_CHARS
    case OneCall => !v.twice
    case CurrentTools => v.toolAttempt == Str(v.attempt)
    case CallFirst => !v.tail.LateCall?
    case KnownSuccess => v.tail.Further? ==> v.tail.success != Bool(true)
    case KnownFailure => v.tail.Further? ==> Lower(StatusText(v.tail.status)) !in {"timeout", "side_effect_unknown"}
    case PlainState => v.state in {"none", "read_only"}
  }

  lemma EnvelopeExact(v: Variant, o: Observation)
    requires o.terminals == [EndAt(v, 9)]
    ensures JudgeEnvelope(o, v.attempt) <==> EnvelopeMet(v)
  {
    ClosedGets(v);
  }

  lemma CallsRead(v: Variant, o: Observation)
    requires o.toolStarts == Calls(v) && o.toolResults == Results(v)
    ensures |o.toolStarts| == 1 <==> !v.twice
    ensures OfAttempt(o.toolStarts, v.attempt) <==> v.toolAttempt == Str(v.attempt)
    ensures ResultsAfterStarts(o) <==> !v.tail.LateCall?
  {
    CalledGets(v);
    CallsAlike(v);
    assert o.toolStarts[0].fields == Called(v);
    if v.tail.LateCall? { LateComes(v, o); } else { EarlyComes(v, o); }
  }

  lemma LateComes(v: Variant, o: Observation)
    requires o.toolStarts == Calls(v) && o.toolResults == Results(v) && v.tail.LateCall?
    ensures !ResultsAfterStarts(o)
  {
    var k := |o.toolStarts| - 1;
    assert o.toolStarts[k].ordinal == 7 && o.toolResults[0].ordinal == 6;
  }

  lemma EarlyComes(v: Variant, o: Observation)
    requires o.toolStarts == Calls(v) && o.toolResults == Results(v) && !v.tail.LateCall?
    ensures ResultsAfterStarts(o)
  {
    assert forall k :: 0 <= k < |o.toolStarts| ==> o.toolStarts[k].ordinal <= 1;
    assert forall k :: 0 <= k < |o.toolResults| ==> o.toolResults[k].ordinal >= 6;
  }

  /** What the judge sees in one result. */
  lemma ResultReads(v: Variant, n: nat, success: Json, status: Json)
    ensures var r := ResultAt(v, n, success, status);
            && Get(r.fields, "attempt_id") == v.toolAttempt
            && (ExactState(r.fields) <==> v.state in {"none", "read_only"})
            && (OddSuccess(r) <==> success == Bool(true) && !Recognised(status))
            && (QuietFailure(r) <==> Lower(StatusText(status)) in {"timeout", "side_effect_unknown"})
  {
    ReturnedNames(v, success, status);
    ReturnedGets(v, success, status);
  }

  lemma OneResult(o: Observation, a: Receipt, attempt: string)
    requires o.toolResults == [a]
    ensures OfAttempt(o.toolResults, attempt) <==> Get(a.fields, "attempt_id") == Str(attempt)
    ensures AnyOddSuccess(o.toolResults) <==> OddSuccess(a)
    ensures ResultsReleasable(o) <==> !QuietFailure(a) && ExactState(a.fields)
  {
    assert o.toolResults[0] == a;
  }

  lemma TwoResults(o: Observation, a: Receipt, b: Receipt, attempt: string)
    requires o.toolResults == [a, b]
    ensures OfAttempt(o.toolResults, attempt) <==>
              Get(a.fields, "attempt_id") == Str(attempt) == Get(b.fields, "attempt_id")
    ensures AnyOddSuccess(o.toolResults) <==> OddSuccess(a) || OddSuccess(b)
    ensures ResultsReleasable(o) <==>
              !QuietFailure(a) && ExactState(a.fields) && !QuietFailure(b) && ExactState(b.fields)
  {
    assert o.toolResults[0] == a && o.toolResults[1] == b;
  }

  lemma RegularReads(v: Variant)
    ensures Get(Regular(v).fields, "attempt_id") == v.toolAttempt
    ensures !OddSuccess(Regular(v)) && !QuietFailure(Regular(v))
    ensures ExactState(Regular(v).fields) <==> v.state in {"none", "read_only"}
  {
    ResultReads(v, 6, Bool(true), Null);
    assert Lower("") == "";
  }

  lemma FurtherRead(v: Variant, o: Observation)
    requires o.toolResults == Results(v) && v.tail.Further?
    ensures OfAttempt(o.toolResults, v.attempt) <==> v.toolAttempt == Str(v.attempt)
    ensures AnyOddSuccess(o.toolResults) <==> v.tail.success == Bool(true) && !Recognised(v.tail.status)
    ensures ResultsReleasable(o) <==>
              Lower(StatusText(v.tail.status)) !in {"timeout", "side_effect_unknown"}
                  && v.state in {"none", "read_only"}
  {
    var further := ResultAt(v, 7, v.tail.success, v.tail.status);
    RegularReads(v);
    ResultReads(v, 7, v.tail.success, v.tail.status);
    TwoResults(o, Regular(v), further, v.attempt);
  }

  lemma RegularRead(v: Variant, o: Observation)
    requires o.toolResults == Results(v) && !v.tail.Further?
    ensures OfAttempt(o.toolResults, v.attempt) <==> v.toolAttempt == Str(v.attempt)
    ensures !AnyOddSuccess(o.toolResults) && (ResultsReleasable(o) <==> v.state in {"none", "read_only"})
  {
    RegularReads(v);
    OneResult(o, Regular(v), v.attempt);
  }

  lemma ResultsRead(v: Variant, o: Observation)
    requires o.toolResults == Results(v)
    ensures OfAttempt(o.toolResults, v.attempt) <==> Met(v, CurrentTools)
    ensures AnyOddSuccess(o.toolResults) <==>
              v.tail.Further? && v.tail.success == Bool(true) && !Recognised(v.tail.status)
    ensures ResultsReleasable(o) <==> Met(v, KnownFailure) && Met(v, PlainState)
  {
    if v.tail.Further? { FurtherRead(v, o); } else { RegularRead(v, o); }
  }

  lemma ToolsRead(v: Variant, scenario: Scenario, o: Observation)
    requires Runs(v) && o.toolStarts == Calls(v) && o.toolResults == Results(v) && scenario.required != []
    ensures ToolsReleasable(scenario, o, v.attempt) <==> ToolsMet(v)
  {
    CallsRead(v, o);
    ResultsRead(v, o);
    ToolsConjoined(v, scenario, o);
  }

  lemma ToolsConjoined(v: Variant, scenario: Scenario, o: Observation)
    requires v.tail.Further? ==> Idle(v.tail.success, v.tail.status)
    requires scenario.required != [] && (|o.toolStarts| == 1 <==> !v.twice)
    requires OfAttempt(o.toolStarts, v.attempt) <==> v.toolAttempt == Str(v.attempt)
    requires OfAttempt(o.toolResults, v.attempt) <==> Met(v, CurrentTools)
    requires ResultsAfterStarts(o) <==> !v.tail.LateCall?
    requires AnyOddSuccess(o.toolResults) <==>
               v.tail.Further? && v.tail.success == Bool(true) && !Recognised(v.tail.status)
    requires ResultsReleasable(o) <==> Met(v, KnownFailure) && Met(v, PlainState)
    ensures ToolsReleasable(scenario, o, v.attempt) <==> ToolsMet(v)
  {
  }

  predicate ToolsMet(v: Variant) {
    && Met(v, OneCall) && Met(v, CurrentTools) && Met(v, CallFirst)
    && Met(v, KnownSuccess) && Met(v, KnownFailure) && Met(v, PlainState)
  }

  /** All twelve. */
  predicate AllMet(v: Variant) {
    && Met(v, AttemptId) && Met(v, TerminalEnvelope) && Met(v, TextLength)
    && Met(v, TypedNames) && Met(v, DistinctIds) && Met(v, NamedPlugin) && ToolsMet(v)
  }

  lemma AllReasons(v: Variant)
    ensures AllMet(v) <==> forall reason :: Met(v, reason)
  {
  }

  lemma TextRead(v: Variant, o: Observation)
    requires o.texts == [TextReceipt(8, TextDelta, v.text)]
    ensures ShortTexts(o) <==> Met(v, TextLength)
  {
    assert ShortTexts(o) <==> |o.texts[0].text| <= MAX_TEXT_CHARS;
  }

  lemma ConditionsExact(v: Variant, scenario: Scenario, o: Observation)
    requires Runs(v) && Shows(v, o) && scenario.required != []
    ensures AllMet(v) <==>
              && IsIdentifier(v.attempt) && JudgeEnvelope(o, v.attempt) && ChildrenSuit(o) && ShortTexts(o)
              && ToolsReleasable(scenario, o, v.attempt)
  {
    EnvelopeExact(v, o);
    ChildrenAt(v);
    ChildrenRead(v, o);
    ToolsRead(v, scenario, o);
    TextRead(v, o);
    Conjoined(v, o, ChildrenSuit(o), ToolsReleasable(scenario, o, v.attempt));
  }

  lemma Conjoined(v: Variant, o: Observation, children: bool, tools: bool)
    requires JudgeEnvelope(o, v.attempt) <==> EnvelopeMet(v)
    requires children <==> Met(v, TypedNames) && Met(v, DistinctIds) && Met(v, NamedPlugin)
    requires ShortTexts(o) <==> Met(v, TextLength)
    requires tools <==> ToolsMet(v)
    ensures AllMet(v) <==> IsIdentifier(v.attempt) && JudgeEnvelope(o, v.attempt) && children && ShortTexts(o) && tools
  {
  }

  /** Every variant is a stream of the validated scenario that the runner admits and passes; the judge takes it exactly
      if all twelve conditions are met. */
  lemma VariantExact(v: Variant, host: Host, o: Observation)
    requires host.Standard() && Runs(v) && Summarises(o, Stream(v))
    ensures Validated(ScenarioOf(host), host, DEFINITIONS) && Admitted(DEFINITIONS, o) && o.attemptIds == {v.attempt}
    ensures ChecksAre(PASSED, ScenarioOf(host), host, Digest(host), o, v.attempt) && AllPass(PASSED)
    ensures JudgeAccepts(ScenarioOf(host), DEFINITIONS, o) <==> forall reason :: Met(v, reason)
  {
    ScenarioValidated(host);
    RunnerAccepts(v, host, o);
    OneAttemptOnly(v, o);
    RunnerAdmits(v, o);
    AcceptedStreamExact(ScenarioOf(host), host, Digest(host), DEFINITIONS, Stream(v), o, v.attempt, PASSED);
    ConditionsExact(v, ScenarioOf(host), o);
    AllReasons(v);
  }

  // ---- One stream the judge takes, and twelve it refuses ----------------------------------------

  function EnvelopeField(attempt: string, k: string): Json {
    if k == "attempt_id" then Str(attempt)
    else if k == "run_id" then Str("r")
    else if k == "status" then Str("succeeded")
    else Str("tenant")
  }

  function Metadata(attempt: string): Json {
    Obj(map["terminal_envelope" := Obj(map k | k in ENVELOPE_FIELDS :: EnvelopeField(attempt, k))])
  }

  function Plain(attempt: string): Variant {
    Variant(attempt, "p", Str("5"), "h", Str(attempt), "none", Metadata(attempt), "answer", false, Nothing)
  }

  /** The stream that fails one condition. */
  function Lacking(reason: Reason): Variant {
    var v := Plain("t");
    match reason
    case AttemptId => Plain("a b")
    case TerminalEnvelope => v.(metadata := Null)
    case TypedNames => v.(kind := Int(5))
    case DistinctIds => v.(agent := "g")
    case NamedPlugin => v.(plugin := "q")
    case TextLength => v.(text := Repeat('x', MAX_TEXT_CHARS + 1))
    case OneCall => v.(twice := true)
    case CurrentTools => v.(toolAttempt := Null)
    case CallFirst => v.(tail := LateCall)
    case KnownSuccess => v.(tail := Further(Bool(true), Str("done")))
    case KnownFailure => v.(tail := Further(Null, Str("timeout")))
    case PlainState => v.(state := "NONE")
  }

  lemma EnvelopeIsMet(v: Variant)
    requires v.metadata == Metadata(v.attempt)
    ensures EnvelopeMet(v)
  {
    var envelope: map<string, Json> := map k | k in ENVELOPE_FIELDS :: EnvelopeField(v.attempt, k);
    assert Get(v.metadata.fields, "terminal_envelope") == Obj(envelope);
    Kept(envelope, ENVELOPE_FIELDS);
    assert Get(envelope, "tenant_id") == Str("tenant");
  }

  lemma Words()
    ensures Lower("none") == "none" && Lower("NONE") == "none" && Lower("done") == "done"
              && Lower("timeout") == "timeout" && Lower("") == ""
    ensures IsIdentifier("t") && !IsIdentifier("a b")
  {
    assert "a b"[1] == ' ';
  }

  lemma LackingRuns(reason: Reason)
    ensures Runs(Plain("t")) && Runs(Plain("a b")) && Runs(Lacking(reason))
  {
    Words();
    assert "answer" != "";
  }

  lemma PlainMeets(reason: Reason)
    ensures Met(Plain("t"), reason)
  {
    Words();
    EnvelopeIsMet(Plain("t"));
  }

  lemma LackingIs(reason: Reason)
    ensures var v := Lacking(reason);
            && v.attempt == (if reason.AttemptId? then "a b" else "t")
            && v.metadata == (if reason.TerminalEnvelope? then Null else Metadata(v.attempt))
            && v.kind == (if reason.TypedNames? then Int(5) else Str("5"))
            && v.agent == (if reason.DistinctIds? then "g" else "h")
            && v.plugin == (if reason.NamedPlugin? then "q" else "p")
            && v.text == (if reason.TextLength? then Repeat('x', MAX_TEXT_CHARS + 1) else "answer")
            && (v.twice <==> reason.OneCall?)
            && v.toolAttempt == (if reason.CurrentTools? then Null else Str(v.attempt))
            && v.state == (if reason.PlainState? then "NONE" else "none")
            && v.tail == (if reason.CallFirst? then LateCall
                          else if reason.KnownSuccess? then Further(Bool(true), Str("done"))
                          else if reason.KnownFailure? then Further(Null, Str("timeout"))
                          else Nothing)
  {
  }

  /** Each stream lacks its one condition and no other. */
  lemma LacksOnly(reason: Reason, other: Reason)
    ensures Met(Lacking(reason), other) <==> other != reason
  {
    LackingIs(reason);
    var v := Lacking(reason);
    match other
    case AttemptId => Words();
    case TerminalEnvelope => if !reason.TerminalEnvelope? { EnvelopeIsMet(v); }
    case KnownFailure => Words();
    case _ =>
  }

  /** There is a stream of a validated scenario that passes all the runner's checks and that the judge takes: a plugin
      child and a builtin one, running at once. */
  lemma AcceptedByBoth(host: Host) returns (o: Observation)
    requires host.Standard()
    ensures Validated(ScenarioOf(host), host, DEFINITIONS) && Admitted(DEFINITIONS, o) && o.attemptIds == {"t"}
    ensures Summarises(o, Stream(Plain("t")))
    ensures ChecksAre(PASSED, ScenarioOf(host), host, Digest(host), o, "t") && AllPass(PASSED)
    ensures JudgeAccepts(ScenarioOf(host), DEFINITIONS, o)
  {
    var v := Plain("t");
    o := SummaryOf(Stream(v));
    LackingRuns(AttemptId);
    VariantExact(v, host, o);
    forall reason ensures Met(v, reason) { PlainMeets(reason); }
  }

  lemma RefusedVariant(v: Variant, reason: Reason, host: Host) returns (o: Observation)
    requires host.Standard() && Runs(v) && forall other :: Met(v, other) <==> other != reason
    ensures Validated(ScenarioOf(host), host, DEFINITIONS) && Admitted(DEFINITIONS, o) && o.attemptIds == {v.attempt}
    ensures Summarises(o, Stream(v))
    ensures ChecksAre(PASSED, ScenarioOf(host), host, Digest(host), o, v.attempt) && AllPass(PASSED)
    ensures !JudgeAccepts(ScenarioOf(host), DEFINITIONS, o)
  {
    o := SummaryOf(Stream(v));
    VariantExact(v, host, o);
    Refusal(v, reason, JudgeAccepts(ScenarioOf(host), DEFINITIONS, o));
  }

  lemma Refusal(v: Variant, reason: Reason, accepted: bool)
    requires !Met(v, reason) && (accepted <==> forall other :: Met(v, other))
    ensures !accepted
  {
  }

  /** No condition is superfluous: for each there is a stream of a validated scenario that the runner admits and passes,
      that meets the other eleven, and that the judge refuses. */
  lemma RefusedForOneReason(reason: Reason, host: Host) returns (v: Variant, o: Observation)
    requires host.Standard()
    ensures forall other :: Met(v, other) <==> other != reason
    ensures Validated(ScenarioOf(host), host, DEFINITIONS) && Admitted(DEFINITIONS, o) && o.attemptIds == {v.attempt}
    ensures Summarises(o, Stream(v))
    ensures ChecksAre(PASSED, ScenarioOf(host), host, Digest(host), o, v.attempt) && AllPass(PASSED)
    ensures !JudgeAccepts(ScenarioOf(host), DEFINITIONS, o)
  {
    v := Variation(reason);
    o := RefusedVariant(v, reason, host);
  }

  lemma Variation(reason: Reason) returns (v: Variant)
    ensures Runs(v) && forall other :: Met(v, other) <==> other != reason
  {
    v := Lacking(reason);
    LackingRuns(reason);
    forall other ensures Met(v, other) <==> other != reason { LacksOnly(reason, other); }
  }

  /** There are such hosts. */
  lemma StandardHost()
    ensures Host((s: string) => None, (j: Json) => LOCAL, (s: string) => LOCAL, (s: string) => s,
                 (s: string, j: Option<Json>) => s).Standard()
  {
    assert IsShaText(LOCAL);
  }
}
