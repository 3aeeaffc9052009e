/** The runner's execution checks on an observation (scripts/real_agent_scenario_runner.py:1289-1677), as conditions.
    Those on the delegation object itself are in Delegation; most conditions here take them as one predicate. */
module Lifecycle {
  import opened Prelude
  import opened Strings
  import opened Json
  import opened Summaries
  import opened Delegation

  /** The eleven checks. */
  datatype Checks = Checks(terminal: bool, prompt: bool, profiles: bool, parallel: bool, canonical: bool,
      taskPrompts: bool,
                           paired: bool, delegationCall: bool, aggregate: bool, noExtraTools: bool,
                           synthesisOrder: bool)

  const MIN_PARALLEL_OVERLAP_MS: real := 25.0
  const SPAWN := "spawn_subagent"

  // ---- Reading receipts -------------------------------------------------------------------------

  /** `value in (None, "")`. */
  predicate Absent(j: Json) {
    j == Null || j == Str("")
  }

  /** `str(item.get(a) or item.get(b) or ... or "")`. */
  function FirstText(fields: map<string, Json>, keys: seq<string>): string {
    if keys == [] then ""
    else if Truthy(Get(fields, keys[0])) then Printed(Get(fields, keys[0]))
    else FirstText(fields, keys[1..])
  }

  const CALL_KEYS: seq<string> := ["tool_call_id", "call_id", "tool_id"]
  const NAME_KEYS: seq<string> := ["name", "tool_name"]

  function CallId(fields: map<string, Json>): string { FirstText(fields, CALL_KEYS) }
  function ToolName(fields: map<string, Json>): string { FirstText(fields, NAME_KEYS) }

  /** At least one alias is given, and all given ones print alike. */
  predicate AliasesConsistent(fields: map<string, Json>, keys: seq<string>) {
    && (exists i :: 0 <= i < |keys| && !Absent(Get(fields, keys[i])))
    && (forall i, j :: 0 <= i < |keys| && 0 <= j < |keys| ==>
          (!Absent(Get(fields, keys[i])) && !Absent(Get(fields, keys[j])) ==>
             Printed(Get(fields, keys[i])) == Printed(Get(fields, keys[j]))))
  }

  function AgentIdentity(fields: map<string, Json>): string {
    var profile := TextField(fields, "profile_id");
    var agentType := TextField(fields, "agent_type");
    if profile != "" then profile else if agentType != "" then BUILTIN + agentType else ""
  }

  predicate IsSha(j: Json) { j.Str? && IsShaText(j.s) }

  /** Lower case, and case folding, as far as comparing with the words of this contract goes: besides the ASCII capitals
      only the Kelvin sign turns into a letter of them. */
  function LowerChar(c: char): char {
    if 'A' <= c <= 'Z' then c - 'A' + 'a' else if c == '\U{212A}' then 'k' else c
  }

  function Lower(s: string): (r: string)
    ensures |r| == |s| && forall i :: 0 <= i < |r| ==> r[i] == LowerChar(s[i])
  {
    seq(|s|, i requires 0 <= i < |s| => LowerChar(s[i]))
  }

  // ---- The checks, as conditions ----------------------------------------------------------------

  predicate TerminalValid(o: Observation, attempt: string) {
    && |o.terminals| == 1
    && var t := o.terminals[0];
    && t.eventType == RunFinished
    && Get(t.fields, "attempt_id") == Str(attempt)
    && Get(t.fields, "status") !in {Str("error"), Str("failed"), Str("cancelled"), Str("blocked")}
    && !Truthy(Get(t.fields, "error"))
  }

  /** The receipts carry the dispatch indexes 0..n-1, each exactly once. */
  predicate Indexed(receipts: seq<Receipt>, n: nat) {
    && |receipts| == n
    && (forall i :: 0 <= i < n ==> Get(receipts[i].fields, "dispatch_index").Int?)
    && (forall i, j :: 0 <= i < j < n ==>
          Get(receipts[i].fields, "dispatch_index") != Get(receipts[j].fields, "dispatch_index"))
    && (forall i :: 0 <= i < n ==> 0 <= Get(receipts[i].fields, "dispatch_index").n < n)
  }

  predicate PluginReceiptValid(expected: string, s: map<string, Json>, f: map<string, Json>) {
    if IsBuiltin(expected) then !Truthy(Get(s, "definition_sha256")) && !Truthy(Get(f, "definition_sha256"))
    else
      && IsSha(Get(s, "definition_sha256")) && Get(s, "definition_sha256") == Get(f, "definition_sha256")
      && Truthy(Get(s, "source_plugin")) && Get(s, "source_plugin") == Get(f, "source_plugin")
  }

  predicate TimingValid(s: Receipt, f: Receipt) {
    var startedAt, echoed, finishedAt := Get(s.fields, "started_monotonic_ms"), Get(f.fields, "started_monotonic_ms"),
                                         Get(f.fields, "finished_monotonic_ms");
    && Numeric(startedAt) && Numeric(echoed) && Numeric(finishedAt)
    && Number(startedAt) == Number(echoed)
    && Number(startedAt) <= Number(finishedAt)
    && s.ordinal < f.ordinal
  }

  predicate PairValid(expected: string, s: Receipt, f: Receipt, attempt: string) {
    && AgentIdentity(s.fields) == expected
    && AgentIdentity(f.fields) == expected
    && TextField(s.fields, "agent_id") != ""
    && Get(s.fields, "agent_id") == Get(f.fields, "agent_id")
    && Get(s.fields, "attempt_id") == Str(attempt)
    && Get(f.fields, "attempt_id") == Str(attempt)
    && Get(f.fields, "status") == Str("completed")
    && !Truthy(Get(f.fields, "error"))
    && PluginReceiptValid(expected, s.fields, f.fields)
    && TimingValid(s, f)
  }

  predicate IndexIs(r: Receipt, i: int) {
    Get(r.fields, "dispatch_index") == Int(i)
  }

  /** Each required profile has a matching start and finish under its dispatch index. */
  predicate ProfilesValid(scenario: Scenario, o: Observation, attempt: string) {
    var n := |scenario.required|;
    && attempt != ""
    && Indexed(o.starts, n) && Indexed(o.finishes, n)
    && (forall a, b :: 0 <= a < n && 0 <= b < n ==>
          var d := Get(o.starts[a].fields, "dispatch_index");
          d == Get(o.finishes[b].fields, "dispatch_index") ==>
            PairValid(scenario.required[d.n], o.starts[a], o.finishes[b], attempt))
  }

  predicate DistinctPairs(overlaps: seq<Overlap>) {
    && (forall k :: 0 <= k < |overlaps| ==> overlaps[k].left < overlaps[k].right)
    && (forall i, j :: 0 <= i < j < |overlaps| ==>
          overlaps[i].left != overlaps[j].left || overlaps[i].right != overlaps[j].right)
  }

  ghost predicate PairListed(overlaps: seq<Overlap>, l: int, r: int) {
    exists k :: 0 <= k < |overlaps| && overlaps[k].left == l && overlaps[k].right == r
  }

  /** Exactly the pairs of required children, each observed to overlap long enough. */
  ghost predicate ParallelValid(scenario: Scenario, o: Observation) {
    && DistinctPairs(o.overlaps)
    && (scenario.requireParallel ==>
          && (forall k :: 0 <= k < |o.overlaps| ==>
                && 0 <= o.overlaps[k].left && o.overlaps[k].right < |scenario.required|
                && o.overlaps[k].observed && o.overlaps[k].ms >= MIN_PARALLEL_OVERLAP_MS)
          && (forall l: int, r: int :: 0 <= l < r < |scenario.required| ==> PairListed(o.overlaps, l, r)))
  }

  // ---- Tool receipts ----------------------------------------------------------------------------

  /** Tool starts merged by call id: fields, parsed arguments, least ordinal and last type, and whether anything was
      malformed. */
  datatype Normal = Normal(starts: map<string, map<string, Json>>, arguments: map<string, Json>,
      marks: map<string, Mark>,
                           malformed: bool)

  const NO_STARTS := Normal(map[], map[], map[], false)

  function MergeMark(marks: map<string, Mark>, id: string, item: Receipt): Mark {
    Mark(if id in marks && marks[id].ordinal < item.ordinal then marks[id].ordinal else item.ordinal, item.eventType)
  }

  /** Take one start receipt in: later non-empty values replace earlier ones; names and arguments must agree. */
  function MergeStart(loads: string -> Option<Json>, s: Normal, item: Receipt): Normal {
    var fields := item.fields;
    var bad := s.malformed || !AliasesConsistent(fields, CALL_KEYS) || !AliasesConsistent(fields, NAME_KEYS);
    var id := CallId(fields);
    if id == "" then s.(malformed := true)
    else
      var merged := if id in s.starts then s.starts[id] else map[];
      var clash := ToolName(merged) != "" && ToolName(fields) != "" && ToolName(merged) != ToolName(fields);
      var plain := merged + (map k | k in fields && k != "arguments" && !Absent(fields[k]) :: fields[k]);
      var marks := s.marks[id := MergeMark(s.marks, id, item)];
      var given := Get(fields, "arguments");
      if Absent(given) then Normal(s.starts[id := plain], s.arguments, marks, bad || clash)
      else
        var parsed := if given.Str? then loads(given.s) else Some(given);
        if parsed.None? || (id in s.arguments && s.arguments[id] != parsed.value) then
          Normal(s.starts[id := plain], s.arguments, marks, true)
        else
          Normal(s.starts[id := plain["arguments" := parsed.value]], s.arguments[id := parsed.value], marks, bad
              || clash)
  }

  function MergeStarts(loads: string -> Option<Json>, items: seq<Receipt>): Normal {
    if items == [] then NO_STARTS
    else MergeStart(loads, MergeStarts(loads, items[..|items| - 1]), items[|items| - 1])
  }

  /** A result receipt names a started call and its tool. */
  predicate ResultWellFormed(starts: map<string, map<string, Json>>, item: Receipt) {
    && AliasesConsistent(item.fields, CALL_KEYS) && AliasesConsistent(item.fields, NAME_KEYS)
    && CallId(item.fields) != "" && CallId(item.fields) in starts
    && ToolName(item.fields) != "" && ToolName(item.fields) == ToolName(starts[CallId(item.fields)])
  }

  predicate ResultsWellFormed(starts: map<string, map<string, Json>>, results: seq<Receipt>) {
    forall k :: 0 <= k < |results| ==> ResultWellFormed(starts, results[k])
  }

  /** The results of one call, in order. */
  function ResultsOf(results: seq<Receipt>, id: string): seq<Receipt> {
    if results == [] then []
    else
      var last := results[|results| - 1];
      ResultsOf(results[..|results| - 1], id) + if CallId(last.fields) == id then [last] else []
  }

  ghost predicate ToolReceiptsSound(loads: string -> Option<Json>, o: Observation) {
    var n := MergeStarts(loads, o.toolStarts);
    !n.malformed && ResultsWellFormed(n.starts, o.toolResults)
  }

  /** The call ids of the results that have one. */
  ghost predicate AnsweredExactly(starts: map<string, map<string, Json>>, results: seq<Receipt>) {
    forall id :: id in starts <==> id != "" && Answered(results, id)
  }

  ghost predicate Answered(results: seq<Receipt>, id: string) {
    exists k :: 0 <= k < |results| && CallId(results[k].fields) == id
  }

  function SpawnIds(starts: map<string, map<string, Json>>): set<string> {
    set id | id in starts && ToolName(starts[id]) == SPAWN
  }

  predicate NoError(fields: map<string, Json>) {
    !Truthy(Get(fields, "error")) && Absent(Get(fields, "error_code"))
  }

  predicate SideEffectFree(fields: map<string, Json>) {
    Lower(TextField(fields, "side_effect_state")) in {"none", "read_only"}
  }

  predicate RecognisedStatus(fields: map<string, Json>) {
    Get(fields, "status") in {Null, Str(""), Str("completed"), Str("succeeded"), Str("success")}
  }

  /** A result that counts as the aggregate's completion. */
  predicate IsCompletion(item: Receipt) {
    && item.eventType in TOOL_RESULT_EVENTS
    && ToolName(item.fields) == SPAWN
    && Get(item.fields, "success") == Bool(true)
    && RecognisedStatus(item.fields)
    && NoError(item.fields)
    && SideEffectFree(item.fields)
  }

  predicate SpawnResultAcceptable(item: Receipt) {
    && Get(item.fields, "success") != Bool(false)
    && Lower(TextField(item.fields, "status")) !in {"error", "failed", "cancelled", "blocked", "unknown"}
    && NoError(item.fields)
    && SideEffectFree(item.fields)
  }

  function Completions(results: seq<Receipt>): seq<Receipt> {
    if results == [] then []
    else
      var last := results[|results| - 1];
      Completions(results[..|results| - 1]) + if IsCompletion(last) then [last] else []
  }

  ghost predicate DelegationCallValid(scenario: Scenario, loads: string -> Option<Json>, argumentsOk: Json -> bool,
                                      o: Observation)
  {
    var n := MergeStarts(loads, o.toolStarts);
    if scenario.required == [] then SpawnIds(n.starts) == {}
    else
      && ToolReceiptsSound(loads, o)
      && exists id :: SpawnIds(n.starts) == {id} && argumentsOk(Get(n.starts[id], "arguments"))
  }

  ghost predicate AggregateValid(scenario: Scenario, loads: string -> Option<Json>, argumentsOk: Json -> bool,
                                 o: Observation)
  {
    scenario.required != [] ==>
      && DelegationCallValid(scenario, loads, argumentsOk, o)
      && forall id :: SpawnIds(MergeStarts(loads, o.toolStarts).starts) == {id} ==>
           var mine := ResultsOf(o.toolResults, id);
           |Completions(mine)| == 1 && forall k :: 0 <= k < |mine| ==> SpawnResultAcceptable(mine[k])
  }

  /** The only parent tool call is the one delegation call, or there is none. */
  ghost predicate NoExtraTools(scenario: Scenario, loads: string -> Option<Json>, o: Observation) {
    var n := MergeStarts(loads, o.toolStarts);
    && ToolReceiptsSound(loads, o)
    && (forall id :: id in n.starts ==> ToolName(n.starts[id]) == SPAWN)
    && (if scenario.required == [] then n.starts.Keys == {}
        else exists id :: SpawnIds(n.starts) == {id} && n.starts.Keys == {id})
  }

  predicate HasText(t: TextReceipt) { |t.text| > 0 }

  /** The ordinal of the last text event with characters, if there is one. */
  function FinalText(texts: seq<TextReceipt>): Option<nat> {
    if texts == [] then None
    else
      var last := texts[|texts| - 1];
      var earlier := FinalText(texts[..|texts| - 1]);
      if !HasText(last) then earlier
      else if earlier.Some? && earlier.value >= last.ordinal then earlier
      else Some(last.ordinal)
  }

  /** One completion, after every child finish and before the last text. */
  predicate CompletionInOrder(o: Observation, done: seq<Receipt>, text: nat) {
    && |done| == 1
    && (forall k :: 0 <= k < |o.finishes| ==> o.finishes[k].ordinal < done[0].ordinal)
    && done[0].ordinal < text
  }

  ghost predicate SynthesisOrder(scenario: Scenario, loads: string -> Option<Json>, argumentsOk: Json -> bool,
                                 o: Observation,
                                 attempt: string)
  {
    && TerminalValid(o, attempt)
    && FinalText(o.texts).Some?
    && FinalText(o.texts).value < o.terminals[0].ordinal
    && (scenario.required != [] ==>
          && ProfilesValid(scenario, o, attempt)
          && AggregateValid(scenario, loads, argumentsOk, o)
          && forall id :: SpawnIds(MergeStarts(loads, o.toolStarts).starts) == {id} ==>
               CompletionInOrder(o, Completions(ResultsOf(o.toolResults, id)), FinalText(o.texts).value))
  }

  /** The arguments of the one delegation call, if there is one. */
  ghost function SpawnArguments(starts: map<string, map<string, Json>>): Json {
    if id :| SpawnIds(starts) == {id} then (assert id in SpawnIds(starts); Get(starts[id], "arguments")) else Null
  }

  /** What the delegation object has to meet, as the predicate the conditions above take. */
  function ArgumentsCheck(scenario: Scenario, host: Host): Json -> bool {
    arguments => DelegationOk(scenario, host, arguments)
  }

  ghost predicate TaskPromptsValid(scenario: Scenario, host: Host, o: Observation) {
    scenario.required != [] ==>
      && ToolReceiptsSound(host.loads, o)
      && (exists id :: SpawnIds(MergeStarts(host.loads, o.toolStarts).starts) == {id})
      && PromptsValid(scenario, host, Parsed(host, SpawnArguments(MergeStarts(host.loads, o.toolStarts).starts)))
  }

  /** The value of every check. */
  ghost predicate ChecksAre(c: Checks, scenario: Scenario, host: Host, promptDigest: string, o: Observation,
                            attempt: string)
  {
    var n, ok := MergeStarts(host.loads, o.toolStarts), ArgumentsCheck(scenario, host);
    && c.terminal == TerminalValid(o, attempt)
    && c.prompt == PromptValid(scenario, host, promptDigest)
    && c.profiles == ProfilesValid(scenario, o, attempt)
    && c.parallel == ParallelValid(scenario, o)
    && c.canonical == CanonicalValid(scenario, host, Parsed(host, SpawnArguments(n.starts)))
    && c.taskPrompts == TaskPromptsValid(scenario, host, o)
    && c.paired == (ToolReceiptsSound(host.loads, o) && AnsweredExactly(n.starts, o.toolResults))
    && c.delegationCall == DelegationCallValid(scenario, host.loads, ok, o)
    && c.aggregate == AggregateValid(scenario, host.loads, ok, o)
    && c.noExtraTools == NoExtraTools(scenario, host.loads, o)
    && c.synthesisOrder == SynthesisOrder(scenario, host.loads, ok, o, attempt)
  }

  predicate AllPass(c: Checks) {
    && c.terminal && c.prompt && c.profiles && c.parallel && c.canonical && c.taskPrompts && c.paired
         && c.delegationCall
    && c.aggregate && c.noExtraTools && c.synthesisOrder
  }
}
