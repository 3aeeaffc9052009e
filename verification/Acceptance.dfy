/** A stream that passes every execution check of the runner, seen by the judge: which of the judge's lifecycle
    obligations (scripts/judge_real_agent_receipts.py:703-1019) it then meets, and exactly when it meets the others.
    The obligations are stated group by group as the judge tests them, each group is shown to come down to what the
    runner does not check already, and `AcceptedStreamExact` puts the groups together. */
module Acceptance {
  import opened Prelude
  import opened Sorting
  import opened Strings
  import opened Json
  import opened Summaries
  import opened Delegation
  import opened Lifecycle
  import opened Agreement
  import opened Checking

  // ---- Event counts -----------------------------------------------------------------------------

  function TerminalCount(events: seq<Event>, n: nat): nat
    requires n <= |events|
  {
    CountOf(events, n, RunFinished) + CountOf(events, n, RunError) + CountOf(events, n, RunCancelled)
        + CountOf(events, n, RunBlocked)
  }

  /** The type of every receipt was counted. */
  ghost predicate TypesCounted(receipts: seq<Receipt>, events: seq<Event>, n: nat)
    requires n <= |events|
  {
    forall k :: 0 <= k < |receipts| ==> CountOf(events, n, receipts[k].eventType) > 0
  }

  lemma TerminalStep(events: seq<Event>, n: nat)
    requires 0 < n <= |events|
    ensures TerminalCount(events, n) ==
              TerminalCount(events, n - 1) + if KindOf(events[n - 1].eventType) == TerminalKind then 1 else 0
  {
  }

  lemma TypesStep(receipts: seq<Receipt>, events: seq<Event>, n: nat)
    requires 0 < n <= |events| && TypesCounted(receipts, events, n - 1)
    ensures TypesCounted(receipts, events, n)
  {
    forall k | 0 <= k < |receipts| ensures CountOf(events, n, receipts[k].eventType) > 0 {
      assert CountOf(events, n - 1, receipts[k].eventType) > 0;
    }
  }

  lemma TypesAppend(receipts: seq<Receipt>, more: seq<Receipt>, events: seq<Event>, n: nat)
    requires n <= |events| && TypesCounted(receipts, events, n) && TypesCounted(more, events, n)
    ensures TypesCounted(receipts + more, events, n)
  {
  }

  lemma {:induction false} TerminalTotals(events: seq<Event>, n: nat)
    requires n <= |events|
    ensures |ReceiptsOf(events, n, TerminalKind)| == TerminalCount(events, n)
  {
    if n != 0 {
      TerminalTotals(events, n - 1);
      TerminalStep(events, n);
    }
  }

  lemma {:induction false} TerminalTypes(events: seq<Event>, n: nat)
    requires n <= |events|
    ensures TypesCounted(ReceiptsOf(events, n, TerminalKind), events, n)
  {
    if n != 0 {
      var e := events[n - 1];
      TerminalTypes(events, n - 1);
      TypesStep(ReceiptsOf(events, n - 1, TerminalKind), events, n);
      var last := if KindOf(e.eventType) == TerminalKind
        then [Receipt(n - 1, e.eventType, FieldsOf(TerminalKind, e.data))] else [];
      LastTypes(last, events, n);
      TypesAppend(ReceiptsOf(events, n - 1, TerminalKind), last, events, n);
    }
  }

  lemma LastTypes(last: seq<Receipt>, events: seq<Event>, n: nat)
    requires 0 < n <= |events| && forall k :: 0 <= k < |last| ==> last[k].eventType == events[n - 1].eventType
    ensures TypesCounted(last, events, n)
  {
  }

  /** `event_counts`: one run_finished and no other terminal event. */
  predicate JudgeEventCounts(o: Observation) {
    && RunFinished in o.eventCounts && o.eventCounts[RunFinished] == 1
    && forall t :: t in TERMINAL_EVENTS - {RunFinished} && t in o.eventCounts ==> o.eventCounts[t] == 0
  }

  lemma OneTerminal(o: Observation, events: seq<Event>, n: nat)
    requires n <= |events| && CountsOf(o.eventCounts, events, n)
    requires TerminalCount(events, n) == 1 && CountOf(events, n, RunFinished) > 0
    ensures JudgeEventCounts(o)
  {
    assert CountOf(events, n, RunFinished) == 1;
    assert CountOf(events, n, RunError) == 0 && CountOf(events, n, RunCancelled) == 0
             && CountOf(events, n, RunBlocked) == 0;
  }

  /** A single successful terminal receipt settles the judge's counts, which the summariser keeps separately. */
  lemma CountsFollow(o: Observation, events: seq<Event>, attempt: string)
    requires Summarises(o, events) && TerminalValid(o, attempt)
    ensures JudgeEventCounts(o)
  {
    TerminalTotals(events, |events|);
    TerminalTypes(events, |events|);
    assert CountOf(events, |events|, o.terminals[0].eventType) > 0;
    OneTerminal(o, events, |events|);
  }

  lemma {:induction false} ResultTypes(events: seq<Event>, n: nat)
    requires n <= |events|
    ensures forall k :: 0 <= k < |ReceiptsOf(events, n, ToolResultKind)| ==>
              ReceiptsOf(events, n, ToolResultKind)[k].eventType in TOOL_RESULT_EVENTS
  {
    if n != 0 { ResultTypes(events, n - 1); }
  }

  // ---- Children ---------------------------------------------------------------------------------

  /** Every child receipt is of this attempt and every finish a clean completion. */
  predicate JudgeChildStates(o: Observation, attempt: string) {
    && (forall k :: 0 <= k < |o.starts| ==> Get(o.starts[k].fields, "attempt_id") == Str(attempt))
    && (forall k :: 0 <= k < |o.finishes| ==>
          && Get(o.finishes[k].fields, "attempt_id") == Str(attempt)
          && Lower(TextField(o.finishes[k].fields, "status")) == "completed"
          && !Truthy(Get(o.finishes[k].fields, "error")))
  }

  /** The judge zips starts and finishes by position and compares those that name the same agent. */
  predicate JudgeZipOrder(o: Observation) {
    forall k :: 0 <= k < |o.starts| && k < |o.finishes| ==>
      (Get(o.starts[k].fields, "agent_id") == Get(o.finishes[k].fields, "agent_id") ==>
         o.starts[k].ordinal < o.finishes[k].ordinal)
  }

  lemma LowerCompleted()
    ensures Lower("completed") == "completed"
  {
  }

  lemma FinishState(scenario: Scenario, o: Observation, attempt: string, k: nat)
    requires ProfilesValid(scenario, o, attempt) && k < |o.finishes|
    ensures Get(o.finishes[k].fields, "attempt_id") == Str(attempt)
    ensures Get(o.finishes[k].fields, "status") == Str("completed")
    ensures !Truthy(Get(o.finishes[k].fields, "error"))
  {
    var a := StartOfFinish(scenario, o, attempt, k);
  }

  lemma ChildStates(scenario: Scenario, o: Observation, attempt: string)
    requires ProfilesValid(scenario, o, attempt)
    ensures JudgeChildStates(o, attempt)
  {
    forall k | 0 <= k < |o.starts| ensures Get(o.starts[k].fields, "attempt_id") == Str(attempt) {
      var b := PartnerOf(scenario, o, attempt, k);
    }
    forall k | 0 <= k < |o.finishes|
      ensures Get(o.finishes[k].fields, "attempt_id") == Str(attempt)
      ensures Lower(TextField(o.finishes[k].fields, "status")) == "completed"
      ensures !Truthy(Get(o.finishes[k].fields, "error"))
    {
      FinishState(scenario, o, attempt, k);
      LowerCompleted();
    }
  }

  /** With unrepeated agents, equal agents at one position have one dispatch index, so the pair is in order. */
  lemma ZipOrder(scenario: Scenario, o: Observation, attempt: string)
    requires ProfilesValid(scenario, o, attempt) && DistinctAgents(o.starts)
    ensures JudgeZipOrder(o)
  {
    forall k | 0 <= k < |o.starts| && k < |o.finishes|
        && Get(o.starts[k].fields, "agent_id") == Get(o.finishes[k].fields, "agent_id")
      ensures o.starts[k].ordinal < o.finishes[k].ordinal
    {
      var a := StartOfFinish(scenario, o, attempt, k);
      AgentsAgree(scenario, o, attempt, a, k);
      assert Agent(o.starts[a]) == Agent(o.starts[k]);
      assert a == k;
    }
  }

  // ---- The one delegation call ------------------------------------------------------------------

  ghost predicate JudgeToolPairing(o: Observation) {
    && (forall k :: 0 <= k < |o.toolStarts| ==> CallId(o.toolStarts[k].fields) != "")
    && (forall k :: 0 <= k < |o.toolResults| ==> CallId(o.toolResults[k].fields) != "")
    && (forall i, j :: 0 <= i < j < |o.toolStarts| ==> CallId(o.toolStarts[i].fields) != CallId(o.toolStarts[j].fields))
    && (forall id :: Answered(o.toolStarts, id) <==> Answered(o.toolResults, id))
  }

  predicate JudgeSingleSpawn(o: Observation) {
    |o.toolStarts| == 1 && JudgeToolName(o.toolStarts[0].fields) == SPAWN
  }

  /** One delegation call if children are required, no call at all otherwise. */
  predicate JudgeToolUse(scenario: Scenario, o: Observation) {
    if scenario.required != [] then JudgeSingleSpawn(o) else o.toolStarts == []
  }

  ghost predicate CallsOf(items: seq<Receipt>, ids: set<string>) {
    && (forall k :: 0 <= k < |items| ==> CallId(items[k].fields) in ids && CallId(items[k].fields) != "")
    && (forall k :: 0 <= k < |items| ==> AliasesConsistent(items[k].fields, NAME_KEYS))
    && (forall id :: id in ids ==> Answered(items, id))
  }

  lemma {:induction false} MergedCalls(loads: string -> Option<Json>, items: seq<Receipt>)
    requires !MergeStarts(loads, items).malformed
    ensures CallsOf(items, MergeStarts(loads, items).starts.Keys)
  {
    if items != [] {
      LastStart(loads, items);
      MergedCalls(loads, items[..|items| - 1]);
      CallsGrow(items, MergeStarts(loads, items[..|items| - 1]).starts.Keys, MergeStarts(loads, items).starts.Keys);
    }
  }

  lemma CallsGrow(items: seq<Receipt>, ids: set<string>, ids': set<string>)
    requires items != [] && CallsOf(items[..|items| - 1], ids) && ids' == ids + {CallId(items[|items| - 1].fields)}
    requires AliasesConsistent(items[|items| - 1].fields, NAME_KEYS) && CallId(items[|items| - 1].fields) != ""
    ensures CallsOf(items, ids')
  {
    CallsStep(items[..|items| - 1], items[|items| - 1], ids);
    assert items == items[..|items| - 1] + [items[|items| - 1]];
  }

  /** What the last of some well-formed starts adds. */
  lemma LastStart(loads: string -> Option<Json>, items: seq<Receipt>)
    requires items != [] && !MergeStarts(loads, items).malformed
    ensures var init, last := items[..|items| - 1], items[|items| - 1];
            && !MergeStarts(loads, init).malformed
            && AliasesConsistent(last.fields, NAME_KEYS) && CallId(last.fields) != ""
            && MergeStarts(loads, items).starts.Keys == MergeStarts(loads, init).starts.Keys + {CallId(last.fields)}
  {
    MergeStartStep(loads, MergeStarts(loads, items[..|items| - 1]), items[|items| - 1]);
  }

  lemma CallsStep(items: seq<Receipt>, item: Receipt, ids: set<string>)
    requires CallsOf(items, ids) && AliasesConsistent(item.fields, NAME_KEYS) && CallId(item.fields) != ""
    ensures CallsOf(items + [item], ids + {CallId(item.fields)})
  {
    var all := items + [item];
    forall k | 0 <= k < |all|
      ensures CallId(all[k].fields) in ids + {CallId(item.fields)} && CallId(all[k].fields) != ""
      ensures AliasesConsistent(all[k].fields, NAME_KEYS)
    {
      assert all[k] == if k < |items| then items[k] else item;
    }
    forall id | id in ids + {CallId(item.fields)} ensures Answered(all, id) { AnsweredMore(items, item, id); }
  }

  lemma AnsweredMore(items: seq<Receipt>, item: Receipt, id: string)
    requires Answered(items, id) || id == CallId(item.fields)
    ensures Answered(items + [item], id)
  {
    var all := items + [item];
    if Answered(items, id) {
      var k :| 0 <= k < |items| && CallId(items[k].fields) == id;
      assert all[k] == items[k];
    } else {
      assert all[|items|] == item;
    }
  }

  lemma MergeStartStep(loads: string -> Option<Json>, s: Normal, item: Receipt)
    requires !MergeStart(loads, s, item).malformed
    ensures !s.malformed && AliasesConsistent(item.fields, NAME_KEYS) && CallId(item.fields) != ""
    ensures MergeStart(loads, s, item).starts.Keys == s.starts.Keys + {CallId(item.fields)}
  {
  }

  /** A first start keeps every non-empty field but the arguments as it is. */
  lemma FirstStartFields(loads: string -> Option<Json>, item: Receipt, key: string)
    requires CallId(item.fields) != "" && key != "arguments"
    ensures var n := MergeStart(loads, NO_STARTS, item);
            && CallId(item.fields) in n.starts
            && Get(n.starts[CallId(item.fields)], key) == if Absent(Get(item.fields, key)) then Null
                 else Get(item.fields, key)
  {
  }

  lemma OneStartName(loads: string -> Option<Json>, item: Receipt)
    requires CallId(item.fields) != ""
    ensures var n := MergeStarts(loads, [item]);
            CallId(item.fields) in n.starts && ToolName(n.starts[CallId(item.fields)]) == ToolName(item.fields)
  {
    assert [item][..0] == [];
    assert MergeStarts(loads, [item]) == MergeStart(loads, NO_STARTS, item);
    assert |"name"| == 4 && |"tool_name"| == 9 && |"arguments"| == 9 && "tool_name"[0] != "arguments"[0];
    FirstStartFields(loads, item, "name");
    FirstStartFields(loads, item, "tool_name");
    NamesInOrder(item.fields);
    NamesInOrder(MergeStarts(loads, [item]).starts[CallId(item.fields)]);
  }

  /** The runner merges repeated starts of one call, the judge refuses them: of the delegating runs the runner accepts,
      the judge takes the calls of those, and only those, with a single start receipt. */
  lemma DelegationStartExact(scenario: Scenario, loads: string -> Option<Json>, o: Observation)
    requires scenario.required != [] && NoExtraTools(scenario, loads, o)
    requires AnsweredExactly(MergeStarts(loads, o.toolStarts).starts, o.toolResults)
    ensures JudgeToolPairing(o) && JudgeToolUse(scenario, o) <==> |o.toolStarts| == 1
  {
    if |o.toolStarts| == 1 { SingleStartAccepted(scenario, loads, o); }
  }

  lemma SingleStartAccepted(scenario: Scenario, loads: string -> Option<Json>, o: Observation)
    requires scenario.required != [] && NoExtraTools(scenario, loads, o) && |o.toolStarts| == 1
    requires AnsweredExactly(MergeStarts(loads, o.toolStarts).starts, o.toolResults)
    ensures JudgeToolPairing(o) && JudgeSingleSpawn(o)
  {
    var id := OneCall(scenario, loads, o);
    MergedCalls(loads, o.toolStarts);
    NoEmptyCall(loads, o.toolStarts);
    SingleStart(loads, o, id);
    SingleName(loads, o, id);
  }

  lemma OneCall(scenario: Scenario, loads: string -> Option<Json>, o: Observation) returns (id: string)
    requires scenario.required != [] && NoExtraTools(scenario, loads, o)
    ensures MergeStarts(loads, o.toolStarts).starts.Keys == {id}
              && ToolName(MergeStarts(loads, o.toolStarts).starts[id]) == SPAWN
    ensures !MergeStarts(loads, o.toolStarts).malformed
    ensures forall k :: 0 <= k < |o.toolResults| ==> CallId(o.toolResults[k].fields) != ""
  {
    var n := MergeStarts(loads, o.toolStarts);
    id :| SpawnIds(n.starts) == {id} && n.starts.Keys == {id};
    assert id in n.starts.Keys;
    forall k | 0 <= k < |o.toolResults|
      ensures CallId(o.toolResults[k].fields) != ""
    {
      assert ResultWellFormed(n.starts, o.toolResults[k]);
    }
  }

  lemma SingleName(loads: string -> Option<Json>, o: Observation, id: string)
    requires |o.toolStarts| == 1 && CallsOf(o.toolStarts, {id})
    requires id in MergeStarts(loads, o.toolStarts).starts
               && ToolName(MergeStarts(loads, o.toolStarts).starts[id]) == SPAWN
    ensures JudgeSingleSpawn(o)
  {
    var item := o.toolStarts[0];
    assert o.toolStarts == [item] && CallId(item.fields) == id;
    OneStartName(loads, item);
    ToolNamesAgree(item.fields);
  }

  lemma SingleStart(loads: string -> Option<Json>, o: Observation, id: string)
    requires |o.toolStarts| == 1 && id != "" && CallId(o.toolStarts[0].fields) != ""
    requires MergeStarts(loads, o.toolStarts).starts.Keys == {id}
               && CallId(o.toolStarts[0].fields) in MergeStarts(loads, o.toolStarts).starts
    requires AnsweredExactly(MergeStarts(loads, o.toolStarts).starts, o.toolResults)
    requires forall k :: 0 <= k < |o.toolResults| ==> CallId(o.toolResults[k].fields) != ""
    ensures JudgeToolPairing(o)
  {
    assert CallId(o.toolStarts[0].fields) in MergeStarts(loads, o.toolStarts).starts.Keys;
    assert o.toolStarts == [o.toolStarts[0]];
    SameCalls(MergeStarts(loads, o.toolStarts).starts, o.toolStarts[0], o.toolResults, id);
  }

  lemma SameCalls(starts: map<string, map<string, Json>>, item: Receipt, results: seq<Receipt>, id: string)
    requires starts.Keys == {id} && id == CallId(item.fields) != "" && AnsweredExactly(starts, results)
    requires forall k :: 0 <= k < |results| ==> CallId(results[k].fields) != ""
    ensures forall x :: Answered([item], x) <==> Answered(results, x)
  {
    forall x ensures Answered([item], x) <==> Answered(results, x) {
      assert [item][0] == item;
      assert x in starts <==> x in starts.Keys;
    }
  }

  // ---- The judge's other obligations ------------------------------------------------------------

  const FAILED_TOOL_STATUSES: set<string> :=
      {"failed", "error", "cancelled", "blocked", "timeout", "side_effect_unknown"}
  const MAX_TEXT_CHARS := 100_000

  predicate JudgeEnvelope(o: Observation, attempt: string) {
    && |o.terminals| == 1
    && var terminal := o.terminals[0].fields;
    && var envelope := Get(terminal, "terminal_envelope");
    && envelope.Obj?
    && Get(envelope.fields, "attempt_id") == Str(attempt)
    && Get(envelope.fields, "run_id") == Get(terminal, "run_id")
    && Get(envelope.fields, "status") == Str("succeeded")
    && Get(envelope.fields, "tenant_id").Str? && Get(envelope.fields, "tenant_id").s != ""
  }

  /** `profile.split(":", 1)[0]`. */
  function PluginOf(profile: string): string {
    if profile == "" || profile[0] == ':' then "" else [profile[0]] + PluginOf(profile[1..])
  }

  /** `str(item.get("definition_sha256") or "")` and the digest of the profile, as the runner compares them before it
      looks at any check. */
  predicate ReceiptBound(definitions: map<string, string>, fields: map<string, Json>) {
    var profile := TextField(fields, "profile_id");
    profile != "" ==> profile in definitions && TextField(fields, "definition_sha256") == definitions[profile]
  }

  /** `_verify_observations`, on the summary of one trial: a single attempt, and only bound profiles. */
  ghost predicate Admitted(definitions: map<string, string>, o: Observation) {
    && |o.attemptIds| == 1
    && (forall k :: 0 <= k < |o.starts| ==> ReceiptBound(definitions, o.starts[k].fields))
    && forall k :: 0 <= k < |o.finishes| ==> ReceiptBound(definitions, o.finishes[k].fields)
  }

  /** A plugin child names its plugin. */
  predicate PluginNamed(fields: map<string, Json>) {
    var profile := Get(fields, "profile_id");
    profile.Str? && profile.s != "" ==> Get(fields, "source_plugin") == Str(PluginOf(profile.s))
  }

  predicate PluginsNamed(receipts: seq<Receipt>) {
    forall k :: 0 <= k < |receipts| ==> PluginNamed(receipts[k].fields)
  }

  /** A receipt of a plugin profile carries the digest of the local definition and the plugin of its name. */
  predicate DefinitionMatches(definitions: map<string, string>, fields: map<string, Json>) {
    var profile := Get(fields, "profile_id");
    profile.Str? && profile.s != "" && !IsBuiltin(profile.s) ==>
      && IsSha(Get(fields, "definition_sha256"))
      && Get(fields, "definition_sha256") == Str(if profile.s in definitions then definitions[profile.s] else "")
      && Get(fields, "source_plugin") == Str(PluginOf(profile.s))
  }

  predicate DefinitionsMatch(definitions: map<string, string>, receipts: seq<Receipt>) {
    forall k :: 0 <= k < |receipts| ==> DefinitionMatches(definitions, receipts[k].fields)
  }

  /** The judge looks only at the profiles the scenario requires. */
  predicate JudgeDefinitions(scenario: Scenario, definitions: map<string, string>, receipts: seq<Receipt>) {
    forall k :: 0 <= k < |receipts| ==>
      var profile := Get(receipts[k].fields, "profile_id");
      profile.Str? && profile.s in Map(Qualified, scenario.required) ==>
          DefinitionMatches(definitions, receipts[k].fields)
  }

  predicate ShortTexts(o: Observation) {
    forall k :: 0 <= k < |o.texts| ==> |o.texts[k].text| <= MAX_TEXT_CHARS
  }

  predicate OfAttempt(receipts: seq<Receipt>, attempt: string) {
    forall k :: 0 <= k < |receipts| ==> Get(receipts[k].fields, "attempt_id") == Str(attempt)
  }

  /** Start and results of one call name the one allowed tool, and every result comes later. */
  predicate JudgeCalls(o: Observation) {
    forall i, j :: 0 <= i < |o.toolStarts| && 0 <= j < |o.toolResults| ==>
      (CallId(o.toolStarts[i].fields) == CallId(o.toolResults[j].fields) != "" ==>
        && JudgeToolName(o.toolStarts[i].fields) == SPAWN && JudgeToolName(o.toolResults[j].fields) == SPAWN
        && o.toolStarts[i].ordinal < o.toolResults[j].ordinal)
  }

  predicate FailedResult(fields: map<string, Json>) {
    Get(fields, "success") == Bool(false) || Lower(TextField(fields, "status")) in FAILED_TOOL_STATUSES
  }

  /** The side-effect state as the judge spells it. A known write would need receipts no summary carries. */
  predicate ExactState(fields: map<string, Json>) {
    Get(fields, "side_effect_state") in {Str("none"), Str("read_only")}
  }

  predicate JudgeResults(o: Observation) {
    forall k :: 0 <= k < |o.toolResults| ==>
        !FailedResult(o.toolResults[k].fields) && ExactState(o.toolResults[k].fields)
  }

  // ---- The whole stream -------------------------------------------------------------------------

  /** The obligations on the child receipts. */
  ghost predicate JudgeChildren(scenario: Scenario, definitions: map<string, string>, o: Observation, attempt: string) {
    && JudgePairing(o) && JudgeChildStates(o, attempt) && JudgeIdentitiesMatch(scenario, o) && JudgeZipOrder(o)
    && JudgeDefinitions(scenario, definitions, o.starts) && JudgeDefinitions(scenario, definitions, o.finishes)
    && JudgeOverlap(scenario, o)
  }

  /** The obligations on the tool receipts, and the order of finishes, completion and text. */
  ghost predicate JudgeTools(scenario: Scenario, o: Observation, attempt: string) {
    && JudgeToolPairing(o) && OfAttempt(o.toolStarts, attempt) && OfAttempt(o.toolResults, attempt)
    && JudgeCalls(o) && JudgeToolUse(scenario, o) && JudgeResults(o) && JudgeDelegationOrder(scenario, o)
  }

  /** `_validate_lifecycle` on a summary, for the parent attempt it works with. */
  ghost predicate JudgeObligations(scenario: Scenario, definitions: map<string, string>, o: Observation,
                                   attempt: string)
  {
    && JudgeEventCounts(o) && JudgeTerminalCount(o, attempt) && JudgeEnvelope(o, attempt)
    && JudgeChildren(scenario, definitions, o, attempt)
    && SequenceAccepted(o) && ShortTexts(o) && JudgeTextOrder(o)
    && JudgeTools(scenario, o, attempt)
  }

  /** There is one attempt id, it is an identifier up to surrounding white space, and what is left of it is the attempt
      all obligations are met for. */
  ghost predicate JudgeAccepts(scenario: Scenario, definitions: map<string, string>, o: Observation) {
    exists id :: o.attemptIds == {id} && IsIdentifier(Strip(id))
        && JudgeObligations(scenario, definitions, o, Strip(id))
  }

  predicate ResultsAfterStarts(o: Observation) {
    forall i, j :: 0 <= i < |o.toolStarts| && 0 <= j < |o.toolResults| ==>
        o.toolStarts[i].ordinal < o.toolResults[j].ordinal
  }

  /** A failure the runner has no word for. */
  predicate QuietFailure(item: Receipt) {
    Lower(TextField(item.fields, "status")) in {"timeout", "side_effect_unknown"}
  }

  /** No result fails quietly or spells its state in another case. */
  ghost predicate ResultsReleasable(o: Observation) {
    forall k :: 0 <= k < |o.toolResults| ==> !QuietFailure(o.toolResults[k]) && ExactState(o.toolResults[k].fields)
  }

  /** What the judge asks of the children beyond the runner's checks. */
  ghost predicate ChildrenReleasable(scenario: Scenario, definitions: map<string, string>, o: Observation) {
    && AllQualified(scenario) && TypedAgents(o.starts) && TypedAgents(o.finishes)
    && DistinctAgents(o.starts)
    && DefinitionsMatch(definitions, o.starts)
    && (scenario.requireParallel ==> |scenario.required| >= 2)
  }

  /** What it asks of the tool receipts beyond them. */
  ghost predicate ToolsReleasable(scenario: Scenario, o: Observation, attempt: string) {
    && (scenario.required != [] ==> |o.toolStarts| == 1)
    && OfAttempt(o.toolStarts, attempt) && OfAttempt(o.toolResults, attempt)
    && ResultsAfterStarts(o)
    && !AnyOddSuccess(o.toolResults)
    && ResultsReleasable(o)
  }

  // ---- Definitions ------------------------------------------------------------------------------

  lemma RequiredProfile(scenario: Scenario, definitions: map<string, string>, receipts: seq<Receipt>)
    requires Placed(scenario, receipts) && AllQualified(scenario)
    ensures JudgeDefinitions(scenario, definitions, receipts) <==> DefinitionsMatch(definitions, receipts)
  {
    assert Map(Qualified, scenario.required) == scenario.required;
    forall k | 0 <= k < |receipts| && Get(receipts[k].fields, "profile_id").Str?
        && Get(receipts[k].fields, "profile_id").s != ""
      ensures Get(receipts[k].fields, "profile_id").s in scenario.required
    {
      assert AgentIdentity(receipts[k].fields) == Get(receipts[k].fields, "profile_id").s;
    }
  }

  /** A finish repeats the definition receipt of its start. */
  lemma FinishDefinition(definitions: map<string, string>, expected: string, s: Receipt, f: Receipt, attempt: string)
    requires PairValid(expected, s, f, attempt) && DefinitionMatches(definitions, s.fields)
    requires Truthy(Get(s.fields, "profile_id")) ==> Get(s.fields, "profile_id").Str?
    ensures DefinitionMatches(definitions, f.fields)
  {
    var profile := Get(f.fields, "profile_id");
    if profile.Str? && profile.s != "" && !IsBuiltin(profile.s) {
      assert profile.s == expected;
      BuiltinPrefix(TextField(s.fields, "agent_type"));
      assert BUILTIN != "";
    }
  }

  lemma BuiltinPrefix(agentType: string)
    ensures IsBuiltin(BUILTIN + agentType)
  {
  }

  /** The definition obligation follows for the finishes once it holds for the starts. */
  lemma DefinitionsExact(scenario: Scenario, definitions: map<string, string>, o: Observation, attempt: string)
    requires ProfilesValid(scenario, o, attempt) && AllQualified(scenario) && StringProfiles(o.starts)
    ensures JudgeDefinitions(scenario, definitions, o.starts)
              && JudgeDefinitions(scenario, definitions, o.finishes) <==>
              DefinitionsMatch(definitions, o.starts)
  {
    BothPlaced(scenario, o, attempt);
    RequiredProfile(scenario, definitions, o.starts);
    RequiredProfile(scenario, definitions, o.finishes);
    if DefinitionsMatch(definitions, o.starts) {
      forall k | 0 <= k < |o.finishes| ensures DefinitionMatches(definitions, o.finishes[k].fields) {
        var a := StartOfFinish(scenario, o, attempt, k);
        FinishDefinition(definitions, scenario.required[IndexOf(o.starts[a])], o.starts[a], o.finishes[k], attempt);
      }
    }
  }

  // ---- Tools ------------------------------------------------------------------------------------

  lemma ResultsCalled(starts: map<string, map<string, Json>>, results: seq<Receipt>)
    requires ResultsWellFormed(starts, results)
    ensures results != [] ==> starts.Keys != {}
  {
    if results != [] {
      assert ResultWellFormed(starts, results[0]);
      assert CallId(results[0].fields) in starts.Keys;
    }
  }

  lemma ItemsCalled(items: seq<Receipt>, ids: set<string>)
    requires CallsOf(items, ids)
    ensures items != [] ==> ids != {}
  {
    if items != [] { assert CallId(items[0].fields) in ids; }
  }

  /** Without required children an accepted run has no tool receipts at all. */
  lemma NoTools(scenario: Scenario, loads: string -> Option<Json>, o: Observation)
    requires scenario.required == [] && NoExtraTools(scenario, loads, o)
    ensures o.toolStarts == [] && o.toolResults == []
  {
    MergedCalls(loads, o.toolStarts);
    ItemsCalled(o.toolStarts, MergeStarts(loads, o.toolStarts).starts.Keys);
    ResultsCalled(MergeStarts(loads, o.toolStarts).starts, o.toolResults);
  }

  /** Every receipt carries the id of the one call and names the tool. */
  ghost predicate CallReceipts(receipts: seq<Receipt>, id: string) {
    forall k :: 0 <= k < |receipts| ==> CallId(receipts[k].fields) == id && JudgeToolName(receipts[k].fields) == SPAWN
  }

  lemma ReceiptsOfCall(scenario: Scenario, loads: string -> Option<Json>, o: Observation) returns (id: string)
    requires scenario.required != [] && NoExtraTools(scenario, loads, o) && JudgeSingleSpawn(o)
    ensures id != "" && CallReceipts(o.toolStarts, id) && CallReceipts(o.toolResults, id)
  {
    id := OneCall(scenario, loads, o);
    MergedCalls(loads, o.toolStarts);
    StartOfCall(o, id);
    SpawnIsOnly(MergeStarts(loads, o.toolStarts).starts, id);
    ResultsOfCall(scenario, loads, o, id);
  }

  lemma StartOfCall(o: Observation, id: string)
    requires JudgeSingleSpawn(o) && CallsOf(o.toolStarts, {id})
    ensures id != "" && CallReceipts(o.toolStarts, id)
  {
    assert CallId(o.toolStarts[0].fields) == id;
  }

  lemma ResultsOfCall(scenario: Scenario, loads: string -> Option<Json>, o: Observation, id: string)
    requires scenario.required != [] && NoExtraTools(scenario, loads, o)
    requires SpawnIds(MergeStarts(loads, o.toolStarts).starts) == {id}
    ensures CallReceipts(o.toolResults, id)
  {
    OnlySpawnResults(scenario, loads, o, id);
  }

  lemma SpawnIsOnly(starts: map<string, map<string, Json>>, id: string)
    requires starts.Keys == {id} && ToolName(starts[id]) == SPAWN
    ensures SpawnIds(starts) == {id}
  {
    assert forall x :: x in starts <==> x in starts.Keys;
  }

  /** Among receipts of one call that name the tool the judge only compares ordinals. */
  lemma CallsAreOrder(o: Observation, id: string)
    requires id != "" && CallReceipts(o.toolStarts, id) && CallReceipts(o.toolResults, id)
    ensures JudgeCalls(o) <==> ResultsAfterStarts(o)
  {
  }

  /** A result the runner accepts is a failure for the judge only quietly. */
  lemma ResultsExact(o: Observation)
    requires forall k :: 0 <= k < |o.toolResults| ==> SpawnResultAcceptable(o.toolResults[k])
    ensures JudgeResults(o) <==> ResultsReleasable(o)
  {
    forall k | 0 <= k < |o.toolResults|
      ensures FailedResult(o.toolResults[k].fields) <==> QuietFailure(o.toolResults[k])
    {
      assert SpawnResultAcceptable(o.toolResults[k]);
    }
  }

  /** The judge's tool obligations, exactly. */
  lemma ToolObligationsExact(scenario: Scenario, loads: string -> Option<Json>, argumentsOk: Json -> bool,
                             o: Observation, attempt: string)
    requires SynthesisOrder(scenario, loads, argumentsOk, o, attempt) && NoExtraTools(scenario, loads, o)
    requires AnsweredExactly(MergeStarts(loads, o.toolStarts).starts, o.toolResults)
    requires forall k :: 0 <= k < |o.toolResults| ==> o.toolResults[k].eventType in TOOL_RESULT_EVENTS
    ensures JudgeTools(scenario, o, attempt) <==> ToolsReleasable(scenario, o, attempt)
  {
    if scenario.required == [] {
      NoTools(scenario, loads, o);
    } else {
      DelegationStartExact(scenario, loads, o);
      if JudgeSingleSpawn(o) { CallsExact(scenario, loads, o); }
      RunnerResultsAcceptable(scenario, loads, argumentsOk, o, attempt);
      ResultsExact(o);
      DelegationOrderExact(scenario, loads, argumentsOk, o, attempt);
      Together(scenario, o, attempt);
    }
  }

  lemma CallsExact(scenario: Scenario, loads: string -> Option<Json>, o: Observation)
    requires scenario.required != [] && NoExtraTools(scenario, loads, o) && JudgeSingleSpawn(o)
    ensures JudgeCalls(o) <==> ResultsAfterStarts(o)
  {
    var id := ReceiptsOfCall(scenario, loads, o);
    CallsAreOrder(o, id);
  }

  lemma Together(scenario: Scenario, o: Observation, attempt: string)
    requires scenario.required != []
    requires JudgeToolPairing(o) && JudgeToolUse(scenario, o) <==> |o.toolStarts| == 1
    requires JudgeSingleSpawn(o) ==> (JudgeCalls(o) <==> ResultsAfterStarts(o))
    requires JudgeResults(o) <==> ResultsReleasable(o)
    requires JudgeDelegationOrder(scenario, o) <==> !AnyOddSuccess(o.toolResults)
    ensures JudgeTools(scenario, o, attempt) <==> ToolsReleasable(scenario, o, attempt)
  {
  }

  lemma RunnerResultsAcceptable(scenario: Scenario, loads: string -> Option<Json>, argumentsOk: Json -> bool,
                                o: Observation, attempt: string)
    requires scenario.required != []
    requires SynthesisOrder(scenario, loads, argumentsOk, o, attempt) && NoExtraTools(scenario, loads, o)
    ensures forall k :: 0 <= k < |o.toolResults| ==> SpawnResultAcceptable(o.toolResults[k])
  {
    RunnerOrder(scenario, loads, argumentsOk, o, attempt);
  }

  // ---- The theorem ------------------------------------------------------------------------------

  lemma ChildObligationsExact(scenario: Scenario, definitions: map<string, string>, o: Observation, attempt: string)
    requires ProfilesValid(scenario, o, attempt) && ParallelValid(scenario, o)
    requires StringProfiles(o.starts) && StringProfiles(o.finishes)
    ensures JudgeChildren(scenario, definitions, o, attempt) <==> ChildrenReleasable(scenario, definitions, o)
  {
    ChildStates(scenario, o, attempt);
    PairingExact(scenario, o, attempt);
    IdentityObligationExact(scenario, o, attempt);
    if DistinctAgents(o.starts) { ZipOrder(scenario, o, attempt); }
    if AllQualified(scenario) { DefinitionsExact(scenario, definitions, o, attempt); }
    if scenario.requireParallel { OverlapObligationExact(scenario, o); }
  }

  lemma IdentifierStripped(id: string)
    requires IsIdentifier(id)
    ensures Strip(id) == id
  {
    StripFixed(id);
  }

  lemma ObligationsExact(scenario: Scenario, loads: string -> Option<Json>, argumentsOk: Json -> bool,
                         definitions: map<string, string>, events: seq<Event>, o: Observation, attempt: string)
    requires Summarises(o, events) && TerminalValid(o, attempt)
    requires ProfilesValid(scenario, o, attempt) && ParallelValid(scenario, o)
    requires SynthesisOrder(scenario, loads, argumentsOk, o, attempt) && NoExtraTools(scenario, loads, o)
    requires AnsweredExactly(MergeStarts(loads, o.toolStarts).starts, o.toolResults)
    requires StringProfiles(o.starts) && StringProfiles(o.finishes)
    ensures JudgeObligations(scenario, definitions, o, attempt) <==>
              && JudgeEnvelope(o, attempt)
              && ChildrenReleasable(scenario, definitions, o)
              && ShortTexts(o)
              && ToolsReleasable(scenario, o, attempt)
  {
    ReconstructionAccepts(o, events);
    CountsFollow(o, events, attempt);
    RunnerImpliesJudge(scenario, loads, argumentsOk, o, attempt);
    ChildObligationsExact(scenario, definitions, o, attempt);
    StreamResultTypes(o, events);
    ToolObligationsExact(scenario, loads, argumentsOk, o, attempt);
  }

  lemma StreamResultTypes(o: Observation, events: seq<Event>)
    requires Summarises(o, events)
    ensures forall k :: 0 <= k < |o.toolResults| ==> o.toolResults[k].eventType in TOOL_RESULT_EVENTS
  {
    ResultTypes(events, |events|);
  }

  /** The same for any scenario, validated or not. */
  lemma StreamExact(scenario: Scenario, host: Host, promptDigest: string, definitions: map<string, string>,
                    events: seq<Event>, o: Observation, attempt: string, c: Checks)
    requires Summarises(o, events) && IsCurrentAttempt(o, attempt)
    requires ChecksAre(c, scenario, host, promptDigest, o, attempt) && AllPass(c)
    requires StringProfiles(o.starts) && StringProfiles(o.finishes)
    ensures JudgeAccepts(scenario, definitions, o) <==>
              && IsIdentifier(attempt) && JudgeEnvelope(o, attempt)
              && ChildrenReleasable(scenario, definitions, o)
              && ShortTexts(o)
              && ToolsReleasable(scenario, o, attempt)
  {
    PassedChecks(c, scenario, host, promptDigest, o, attempt);
    ObligationsExact(scenario, host.loads, ArgumentsCheck(scenario, host), definitions, events, o, attempt);
    AttemptDecides(scenario, definitions, o, attempt);
  }

  /** What the judge asks of the children beyond the runner, if the scenario is validated and the summary admitted. */
  ghost predicate ChildrenSuit(o: Observation) {
    TypedAgents(o.starts) && TypedAgents(o.finishes) && DistinctAgents(o.starts) && PluginsNamed(o.starts)
  }

  /** A bound receipt of a plugin child has the local definition, and a builtin child has no profile id. */
  lemma BoundDefinition(scenario: Scenario, definitions: map<string, string>, fields: map<string, Json>)
    requires DefinitionTable(scenario, definitions) && ReceiptBound(definitions, fields)
    requires !IsBuiltin(TextField(fields, "profile_id")) && TextField(fields, "profile_id") != "" ==>
               IsSha(Get(fields, "definition_sha256"))
    ensures DefinitionMatches(definitions, fields) <==> PluginNamed(fields)
  {
  }

  lemma BoundDefinitions(scenario: Scenario, definitions: map<string, string>, o: Observation, attempt: string)
    requires ProfilesValid(scenario, o, attempt) && DefinitionTable(scenario, definitions)
    requires Admitted(definitions, o)
    ensures DefinitionsMatch(definitions, o.starts) <==> PluginsNamed(o.starts)
  {
    forall k | 0 <= k < |o.starts|
      ensures DefinitionMatches(definitions, o.starts[k].fields) <==> PluginNamed(o.starts[k].fields)
    {
      var b := PartnerOf(scenario, o, attempt, k);
      BoundDefinition(scenario, definitions, o.starts[k].fields);
    }
  }

  lemma ChildrenSuitExactly(scenario: Scenario, host: Host, definitions: map<string, string>, o: Observation,
                            attempt: string)
    requires Validated(scenario, host, definitions) && Admitted(definitions, o)
    requires ProfilesValid(scenario, o, attempt) && ParallelValid(scenario, o)
    ensures StringProfiles(o.starts) && StringProfiles(o.finishes)
    ensures ChildrenReleasable(scenario, definitions, o) <==> ChildrenSuit(o)
  {
    ValidatedObligations(scenario, host, definitions, o, attempt);
    BoundDefinitions(scenario, definitions, o, attempt);
  }

  /** A stream of a validated scenario whose summary the runner admits and passes is taken by the judge exactly when,
      besides,
      - its attempt id is an identifier and its terminal envelope names the attempt, the run, a tenant and success;
      - children are named by strings, no agent id is repeated, and plugin children name their plugin;
      - no text event is longer than the limit;
      - the delegation call was announced once, before its results, all tool receipts are of the attempt, and no result
        succeeded under a status the runner does not know, failed in a way it does not know, or spells its side-effect
        state in another case. */
  lemma AcceptedStreamExact(scenario: Scenario, host: Host, promptDigest: string, definitions: map<string, string>,
                            events: seq<Event>, o: Observation, attempt: string, c: Checks)
    requires Validated(scenario, host, definitions) && Admitted(definitions, o)
    requires Summarises(o, events) && o.attemptIds == {attempt}
    requires ChecksAre(c, scenario, host, promptDigest, o, attempt) && AllPass(c)
    ensures JudgeAccepts(scenario, definitions, o) <==>
              && IsIdentifier(attempt) && JudgeEnvelope(o, attempt)
              && ChildrenSuit(o)
              && ShortTexts(o)
              && ToolsReleasable(scenario, o, attempt)
  {
    PassedChecks(c, scenario, host, promptDigest, o, attempt);
    ChildrenSuitExactly(scenario, host, definitions, o, attempt);
    StreamExact(scenario, host, promptDigest, definitions, events, o, attempt, c);
  }

  lemma PassedChecks(c: Checks, scenario: Scenario, host: Host, promptDigest: string, o: Observation, attempt: string)
    requires ChecksAre(c, scenario, host, promptDigest, o, attempt) && AllPass(c)
    ensures TerminalValid(o, attempt) && ProfilesValid(scenario, o, attempt) && ParallelValid(scenario, o)
    ensures SynthesisOrder(scenario, host.loads, ArgumentsCheck(scenario, host), o, attempt)
    ensures NoExtraTools(scenario, host.loads, o)
    ensures AnsweredExactly(MergeStarts(host.loads, o.toolStarts).starts, o.toolResults)
  {
  }

  lemma AttemptDecides(scenario: Scenario, definitions: map<string, string>, o: Observation, attempt: string)
    requires IsCurrentAttempt(o, attempt) && TerminalValid(o, attempt)
    ensures JudgeAccepts(scenario, definitions, o) <==>
              IsIdentifier(attempt) && JudgeObligations(scenario, definitions, o, attempt)
  {
    OneAttempt(o, attempt);
    if IsIdentifier(attempt) { IdentifierStripped(attempt); }
    if JudgeAccepts(scenario, definitions, o) { StrippedAttempt(scenario, definitions, o, attempt); }
  }

  /** The terminal receipt names the attempt, so no white space was stripped from it. */
  lemma StrippedAttempt(scenario: Scenario, definitions: map<string, string>, o: Observation, attempt: string)
    requires TerminalValid(o, attempt) && JudgeObligations(scenario, definitions, o, Strip(attempt))
    ensures Strip(attempt) == attempt
  {
  }

  lemma OneAttempt(o: Observation, attempt: string)
    requires IsCurrentAttempt(o, attempt)
    ensures forall id :: o.attemptIds == {id} ==> id == attempt
    ensures attempt != "" ==> o.attemptIds == {attempt}
  {
    forall id | o.attemptIds == {id} ensures id == attempt { assert id in o.attemptIds && |o.attemptIds| == 1; }
  }
}
