/** What the runner's checks buy: all required children ran at once, and the judge's own obligations
    (scripts/judge_real_agent_receipts.py:639-662, 725-797, 820-824, 966-1021) hold or fail for stated reasons. */
module Agreement {
  import opened Prelude
  import opened Sorting
  import opened Json
  import opened Summaries
  import opened Delegation
  import opened Lifecycle

  // ---- Dispatch indexes -------------------------------------------------------------------------

  function IndexOf(r: Receipt): int {
    var j := Get(r.fields, "dispatch_index");
    if j.Int? then j.n else -1
  }

  function IndexesOf(receipts: seq<Receipt>): (r: seq<int>)
    ensures |r| == |receipts| && forall i :: 0 <= i < |r| ==> r[i] == IndexOf(receipts[i])
  {
    Map(IndexOf, receipts)
  }

  function Range(n: nat): (r: seq<int>)
    ensures |r| == n && forall i :: 0 <= i < n ==> r[i] == i
  {
    seq(n, i => i)
  }

  lemma {:induction false} DistinctSize(s: seq<int>)
    requires Distinct(s)
    ensures |set x | x in s| == |s|
  {
    if s != [] {
      var init, last := s[..|s| - 1], s[|s| - 1];
      DistinctSize(init);
      assert s == init + [last];
      assert (set x | x in s) == (set x | x in init) + {last};
      assert last !in init;
    }
  }

  function Below(n: nat): (r: set<int>)
    ensures |r| == n && forall x :: x in r <==> 0 <= x < n
  {
    if n == 0 then {} else Below(n - 1) + {n - 1}
  }

  ghost predicate HasIndex(receipts: seq<Receipt>, d: int) {
    exists a :: 0 <= a < |receipts| && IndexOf(receipts[a]) == d
  }

  /** n different numbers below n are all the numbers below n. */
  lemma DistinctBelow(s: seq<int>, n: nat)
    requires Distinct(s) && |s| == n && forall x :: x in s ==> 0 <= x < n
    ensures forall x :: 0 <= x < n ==> x in s
  {
    var members := set x | x in s;
    DistinctSize(s);
    assert members <= Below(n);
    assert |Below(n) - members| == |Below(n)| - |members|;
    forall x | 0 <= x < n ensures x in s { assert x !in Below(n) - members; }
  }

  lemma IndexesPermute(receipts: seq<Receipt>, n: nat)
    requires Indexed(receipts, n)
    ensures multiset(IndexesOf(receipts)) == multiset(Range(n))
    ensures forall d :: 0 <= d < n ==> HasIndex(receipts, d)
  {
    var s := IndexesOf(receipts);
    DistinctBelow(s, n);
    assert forall x :: x in Range(n) <==> 0 <= x < n by {
      forall x | 0 <= x < n ensures x in Range(n) { assert Range(n)[x] == x; }
    }
    DistinctPermutes(s, Range(n));
    forall d | 0 <= d < n ensures HasIndex(receipts, d) {
      assert d in s;
      var a :| 0 <= a < |s| && s[a] == d;
      assert IndexOf(receipts[a]) == d;
    }
  }

  /** Every start has its finish, and the pair is valid. */
  lemma PartnerOf(scenario: Scenario, o: Observation, attempt: string, a: nat) returns (b: nat)
    requires ProfilesValid(scenario, o, attempt) && a < |o.starts|
    ensures b < |o.finishes| && IndexOf(o.finishes[b]) == IndexOf(o.starts[a])
    ensures 0 <= IndexOf(o.starts[a]) < |scenario.required|
    ensures PairValid(scenario.required[IndexOf(o.starts[a])], o.starts[a], o.finishes[b], attempt)
  {
    IndexesPermute(o.finishes, |scenario.required|);
    assert HasIndex(o.finishes, IndexOf(o.starts[a]));
    b :| b < |o.finishes| && IndexOf(o.finishes[b]) == IndexOf(o.starts[a]);
  }

  lemma StartOfFinish(scenario: Scenario, o: Observation, attempt: string, b: nat) returns (a: nat)
    requires ProfilesValid(scenario, o, attempt) && b < |o.finishes|
    ensures a < |o.starts| && IndexOf(o.finishes[b]) == IndexOf(o.starts[a])
    ensures 0 <= IndexOf(o.starts[a]) < |scenario.required|
    ensures PairValid(scenario.required[IndexOf(o.starts[a])], o.starts[a], o.finishes[b], attempt)
  {
    IndexesPermute(o.starts, |scenario.required|);
    assert HasIndex(o.starts, IndexOf(o.finishes[b]));
    a :| a < |o.starts| && IndexOf(o.starts[a]) == IndexOf(o.finishes[b]);
  }

  /** A receipt whose index no other carries is the one found under it. */
  lemma {:induction false} FoundUnderIndex(finishes: seq<Receipt>, a: nat)
    requires a < |finishes| && Get(finishes[a].fields, "dispatch_index").Int?
    requires forall b :: 0 <= b < |finishes| && b != a ==> !IndexIs(finishes[b], IndexOf(finishes[a]))
    ensures IndexOf(finishes[a]) in ByIndex(finishes) && ByIndex(finishes)[IndexOf(finishes[a])] == finishes[a]
  {
    if a < |finishes| - 1 {
      FoundUnderIndex(finishes[..|finishes| - 1], a);
      assert !IndexIs(finishes[|finishes| - 1], IndexOf(finishes[a]));
    }
  }

  // ---- All children at once ---------------------------------------------------------------------

  function StartMs(r: Receipt): real {
    var j := Get(r.fields, "started_monotonic_ms");
    if Numeric(j) then Number(j) else 0.0
  }

  function FinishMs(r: Receipt): real {
    var j := Get(r.fields, "finished_monotonic_ms");
    if Numeric(j) then Number(j) else 0.0
  }

  /** The latest start lies at least `MIN_PARALLEL_OVERLAP_MS` before the earliest finish. */
  ghost predicate AllAtOnce(finishes: seq<Receipt>) {
    forall a, b :: 0 <= a < |finishes| && 0 <= b < |finishes| ==>
        StartMs(finishes[a]) + MIN_PARALLEL_OVERLAP_MS <= FinishMs(finishes[b])
  }

  lemma {:induction false} OverlapEntry(byIndex: map<int, Receipt>, keys: seq<int>, k: nat)
    requires forall x :: x in keys ==> x in byIndex
    requires k < |OverlapsFrom(byIndex, keys)|
    ensures var v := OverlapsFrom(byIndex, keys)[k];
            v.left in byIndex && v.right in byIndex
                && v == OverlapOf(v.left, v.right, byIndex[v.left], byIndex[v.right])
  {
    if keys != [] {
      var row := OverlapRow(byIndex, keys[0], keys[1..]);
      if k >= |row| { OverlapEntry(byIndex, keys[1..], k - |row|); }
    }
  }

  lemma ListedOverlap(o: Observation, k: nat)
    requires OverlapListOf(o.overlaps, o.finishes) && k < |o.overlaps|
    ensures var byIndex, v := ByIndex(o.finishes), o.overlaps[k];
            v.left in byIndex && v.right in byIndex
                && v == OverlapOf(v.left, v.right, byIndex[v.left], byIndex[v.right])
  {
    var keys: seq<int> :|
      && (forall i, j :: 0 <= i < j < |keys| ==> keys[i] < keys[j])
      && (forall x :: x in keys <==> x in ByIndex(o.finishes))
      && o.overlaps == OverlapsFrom(ByIndex(o.finishes), keys);
    OverlapEntry(ByIndex(o.finishes), keys, k);
  }

  /** An overlap of at least 25 ms between two timed receipts. */
  lemma LongOverlap(left: int, right: int, l: Receipt, r: Receipt)
    requires OverlapOf(left, right, l, r).observed && OverlapOf(left, right, l, r).ms >= MIN_PARALLEL_OVERLAP_MS
    ensures Max(StartMs(l), StartMs(r)) + MIN_PARALLEL_OVERLAP_MS <= Min(FinishMs(l), FinishMs(r))
  {
  }

  /** A listed pair of children really overlaps that long. */
  lemma ListedPairOverlaps(scenario: Scenario, o: Observation, a: nat, b: nat)
    requires OverlapListOf(o.overlaps, o.finishes) && Indexed(o.finishes, |scenario.required|)
    requires ParallelValid(scenario, o) && scenario.requireParallel
    requires a < |o.finishes| && b < |o.finishes| && IndexOf(o.finishes[a]) < IndexOf(o.finishes[b])
    ensures Max(StartMs(o.finishes[a]), StartMs(o.finishes[b])) + MIN_PARALLEL_OVERLAP_MS
         <= Min(FinishMs(o.finishes[a]), FinishMs(o.finishes[b]))
  {
    var l, r := IndexOf(o.finishes[a]), IndexOf(o.finishes[b]);
    assert PairListed(o.overlaps, l, r);
    var k :| 0 <= k < |o.overlaps| && o.overlaps[k].left == l && o.overlaps[k].right == r;
    ListedOverlap(o, k);
    FoundUnderIndex(o.finishes, a);
    FoundUnderIndex(o.finishes, b);
    LongOverlap(l, r, o.finishes[a], o.finishes[b]);
  }

  /** Pairwise overlap is overlap of all (Helly in one dimension). */
  lemma PairsAtOnce(scenario: Scenario, o: Observation, attempt: string)
    requires OverlapListOf(o.overlaps, o.finishes)
    requires ProfilesValid(scenario, o, attempt) && ParallelValid(scenario, o) && scenario.requireParallel
    requires |scenario.required| != 1
    ensures AllAtOnce(o.finishes)
  {
    forall a, b | 0 <= a < |o.finishes| && 0 <= b < |o.finishes|
      ensures StartMs(o.finishes[a]) + MIN_PARALLEL_OVERLAP_MS <= FinishMs(o.finishes[b])
    {
      var c := if a != b then b else if a == 0 then 1 else 0;
      if IndexOf(o.finishes[a]) < IndexOf(o.finishes[c]) {
        ListedPairOverlaps(scenario, o, a, c);
      } else {
        ListedPairOverlaps(scenario, o, c, a);
      }
    }
  }

  /** For every scenario the loader accepts, the checks give a window of 25 ms in which all required children were
      running. */
  lemma ChildrenRanAtOnce(scenario: Scenario, host: Host, o: Observation, attempt: string)
    requires ContractValid(scenario, host)
    requires OverlapListOf(o.overlaps, o.finishes)
    requires ProfilesValid(scenario, o, attempt) && ParallelValid(scenario, o) && scenario.requireParallel
    ensures AllAtOnce(o.finishes)
  {
    PairsAtOnce(scenario, o, attempt);
  }

  /** The loader's rule of two agents carries that guarantee: on a scenario it refuses, with a single parallel child,
      the overlap check alone would pass a child of one millisecond. */
  lemma SingleChildIsNotChecked(scenario: Scenario)
    requires |scenario.required| == 1 && scenario.requireParallel
    ensures forall host :: !ContractValid(scenario, host)
    ensures var f :=
              Receipt(1, SubagentFinished,
                  map["dispatch_index" := Int(0), "started_monotonic_ms" := Int(0), "finished_monotonic_ms" := Int(1)]);
            var o := Observation([], [f], [], [], [], [], [], [], {}, map[]);
            && OverlapListOf(o.overlaps, o.finishes)
            && ParallelValid(scenario, o)
            && !AllAtOnce(o.finishes)
  {
    var f := Receipt(1, SubagentFinished,
        map["dispatch_index" := Int(0), "started_monotonic_ms" := Int(0), "finished_monotonic_ms" := Int(1)]);
    assert [f][..0] == [];
    assert ByIndex([f]) == map[0 := f];
    var keys := [0];
    assert keys[1..] == [];
    assert OverlapsFrom(ByIndex([f]), keys) == [];
    assert StartMs([f][0]) + MIN_PARALLEL_OVERLAP_MS > FinishMs([f][0]);
  }

  // ---- The judge --------------------------------------------------------------------------------

  function JudgeIdentity(fields: map<string, Json>): string {
    var profile, agentType := Get(fields, "profile_id"), Get(fields, "agent_type");
    if profile.Str? && profile.s != "" then profile.s
    else if agentType.Str? && agentType.s != "" then BUILTIN + agentType.s
    else ""
  }

  function JudgeToolName(fields: map<string, Json>): string {
    var a, b := Get(fields, "name"), Get(fields, "tool_name");
    var hasA, hasB := a.Str? && a.s != "", b.Str? && b.s != "";
    if hasA && hasB then (if a.s == b.s then a.s else "")
    else if hasA then a.s
    else if hasB then b.s
    else ""
  }

  /** An unqualified required agent is a builtin one. */
  function Qualified(id: string): string {
    if ':' in id then id else BUILTIN + id
  }

  function JudgeIdentities(receipts: seq<Receipt>): (r: seq<string>)
    ensures |r| == |receipts| && forall i :: 0 <= i < |r| ==> r[i] == JudgeIdentity(receipts[i].fields)
  {
    seq(|receipts|, i requires 0 <= i < |receipts| => JudgeIdentity(receipts[i].fields))
  }

  predicate JudgeTerminalCount(o: Observation, attempt: string) {
    |o.terminals| == 1 && o.terminals[0].eventType == RunFinished
        && Get(o.terminals[0].fields, "attempt_id") == Str(attempt)
  }

  /** `sorted(observed) == sorted(required)` for starts and finishes. */
  predicate JudgeIdentitiesMatch(scenario: Scenario, o: Observation) {
    var required := Map(Qualified, scenario.required);
    multiset(JudgeIdentities(o.starts)) == multiset(required)
        && multiset(JudgeIdentities(o.finishes)) == multiset(required)
  }

  predicate JudgeOverlap(scenario: Scenario, o: Observation) {
    scenario.requireParallel ==> exists k :: 0 <= k < |o.overlaps| && o.overlaps[k].observed
  }

  /** The last text with characters comes before the single terminal event. */
  predicate JudgeTextOrder(o: Observation) {
    && (exists k :: 0 <= k < |o.texts| && HasText(o.texts[k]))
    && |o.terminals| == 1
    && forall k :: 0 <= k < |o.texts| && HasText(o.texts[k]) ==> o.texts[k].ordinal < o.terminals[0].ordinal
  }

  predicate JudgeSpawnDone(item: Receipt) {
    && JudgeToolName(item.fields) == SPAWN
    && item.eventType in TOOL_RESULT_EVENTS
    && Get(item.fields, "success") == Bool(true)
  }

  function JudgeSpawns(results: seq<Receipt>): seq<Receipt> {
    if results == [] then []
    else
      var last := results[|results| - 1];
      JudgeSpawns(results[..|results| - 1]) + if JudgeSpawnDone(last) then [last] else []
  }

  /** All finishes, then the one spawn completion, then some text with characters. */
  predicate JudgeDelegationOrder(scenario: Scenario, o: Observation) {
    scenario.required != [] ==>
      && |o.finishes| == |scenario.required|
      && |JudgeSpawns(o.toolResults)| == 1
      && (forall k :: 0 <= k < |o.finishes| ==> o.finishes[k].ordinal < JudgeSpawns(o.toolResults)[0].ordinal)
      && exists k :: 0 <= k < |o.texts| && HasText(o.texts[k])
           && JudgeSpawns(o.toolResults)[0].ordinal < o.texts[k].ordinal
  }

  /** Agent ids of starts and finishes are non-empty, unrepeated, and the same set. */
  ghost predicate JudgePairing(o: Observation) {
    && (forall i :: 0 <= i < |o.starts| ==> Agent(o.starts[i]) != "")
    && (forall i :: 0 <= i < |o.finishes| ==> Agent(o.finishes[i]) != "")
    && DistinctAgents(o.starts) && DistinctAgents(o.finishes)
    && (forall i :: 0 <= i < |o.starts| ==> Names(o.finishes, Agent(o.starts[i])))
    && (forall i :: 0 <= i < |o.finishes| ==> Names(o.starts, Agent(o.finishes[i])))
  }

  ghost predicate DistinctAgents(receipts: seq<Receipt>) {
    forall i, j :: 0 <= i < j < |receipts| ==> Agent(receipts[i]) != Agent(receipts[j])
  }

  /** A profile id, where one is given, is a string, as the gateway writes it. */
  ghost predicate StringProfiles(receipts: seq<Receipt>) {
    forall i :: 0 <= i < |receipts| && Truthy(Get(receipts[i].fields, "profile_id")) ==>
        Get(receipts[i].fields, "profile_id").Str?
  }

  /** A child named by its type alone is named by a string. */
  predicate TypedAgent(fields: map<string, Json>) {
    Truthy(Get(fields, "profile_id")) || !Truthy(Get(fields, "agent_type")) || Get(fields, "agent_type").Str?
  }

  predicate TypedAgents(receipts: seq<Receipt>) {
    forall i :: 0 <= i < |receipts| ==> TypedAgent(receipts[i].fields)
  }

  predicate AllQualified(scenario: Scenario) {
    forall k :: 0 <= k < |scenario.required| ==> ':' in scenario.required[k]
  }

  /** Each receipt carries the identity required at its dispatch index. */
  ghost predicate Placed(scenario: Scenario, receipts: seq<Receipt>) {
    && Indexed(receipts, |scenario.required|)
    && forall a :: 0 <= a < |receipts| ==>
         0 <= IndexOf(receipts[a]) < |scenario.required|
             && AgentIdentity(receipts[a].fields) == scenario.required[IndexOf(receipts[a])]
  }

  lemma QualifiedColon(id: string)
    ensures ':' in Qualified(id)
  {
    assert BUILTIN[7] == ':';
    if ':' !in id { assert Qualified(id)[7] == ':'; }
  }

  /** What the judge reads is what the runner reads, or nothing. */
  lemma IdentityRead(fields: map<string, Json>)
    requires Truthy(Get(fields, "profile_id")) ==> Get(fields, "profile_id").Str?
    ensures JudgeIdentity(fields) == if TypedAgent(fields) then AgentIdentity(fields) else ""
  {
  }

  lemma IdentitiesMatch(scenario: Scenario, receipts: seq<Receipt>)
    requires Placed(scenario, receipts) && StringProfiles(receipts) && TypedAgents(receipts) && AllQualified(scenario)
    ensures multiset(JudgeIdentities(receipts)) == multiset(Map(Qualified, scenario.required))
  {
    var n := |scenario.required|;
    IndexesPermute(receipts, n);
    forall a | 0 <= a < |receipts|
      ensures JudgeIdentity(receipts[a].fields) == scenario.required[IndexOf(receipts[a])]
    {
      IdentityRead(receipts[a].fields);
    }
    var f := (d: int) => if 0 <= d < n then scenario.required[d] else "";
    MapPermutes(f, IndexesOf(receipts), Range(n));
    assert Map(f, Range(n)) == scenario.required;
    assert Map(Qualified, scenario.required) == scenario.required;
    assert Map(f, IndexesOf(receipts)) == JudgeIdentities(receipts);
  }

  lemma MatchedIdentity(scenario: Scenario, receipts: seq<Receipt>, a: nat)
    requires StringProfiles(receipts) && a < |receipts|
    requires multiset(JudgeIdentities(receipts)) == multiset(Map(Qualified, scenario.required))
    ensures TypedAgent(receipts[a].fields) && ':' in AgentIdentity(receipts[a].fields)
  {
    var all := Map(Qualified, scenario.required);
    SameElements(JudgeIdentities(receipts), all);
    assert JudgeIdentities(receipts)[a] in all;
    var k :| 0 <= k < |all| && all[k] == JudgeIdentities(receipts)[a];
    QualifiedColon(scenario.required[k]);
    IdentityRead(receipts[a].fields);
  }

  /** The judge's identity test on one list: it holds exactly if all required ids are qualified and no child is named by
      a type that is not a string. */
  lemma IdentitiesExact(scenario: Scenario, receipts: seq<Receipt>)
    requires Placed(scenario, receipts) && StringProfiles(receipts)
    ensures multiset(JudgeIdentities(receipts)) == multiset(Map(Qualified, scenario.required)) <==>
              AllQualified(scenario) && TypedAgents(receipts)
  {
    if AllQualified(scenario) && TypedAgents(receipts) { IdentitiesMatch(scenario, receipts); }
    if multiset(JudgeIdentities(receipts)) == multiset(Map(Qualified, scenario.required)) {
      forall a | 0 <= a < |receipts| ensures TypedAgent(receipts[a].fields) { MatchedIdentity(scenario, receipts, a); }
      forall d | 0 <= d < |scenario.required| ensures ':' in scenario.required[d] {
        IndexesPermute(receipts, |scenario.required|);
        assert HasIndex(receipts, d);
        var a :| 0 <= a < |receipts| && IndexOf(receipts[a]) == d;
        MatchedIdentity(scenario, receipts, a);
      }
    }
  }

  /** Nothing but a string prints to a qualified id. */
  lemma PrintedColon(j: Json)
    requires ':' in Printed(j)
    ensures j.Str?
  {
  }

  /** Where all required ids are qualified every profile id is a string. */
  lemma QualifiedProfiles(scenario: Scenario, receipts: seq<Receipt>)
    requires Placed(scenario, receipts) && AllQualified(scenario)
    ensures StringProfiles(receipts)
  {
    forall i | 0 <= i < |receipts| && Truthy(Get(receipts[i].fields, "profile_id"))
      ensures Get(receipts[i].fields, "profile_id").Str?
    {
      assert ':' in AgentIdentity(receipts[i].fields);
      PrintedNotEmpty(Get(receipts[i].fields, "profile_id"));
      PrintedColon(Get(receipts[i].fields, "profile_id"));
    }
  }

  lemma PrintedNotEmpty(j: Json)
    requires Truthy(j)
    ensures Printed(j) != ""
  {
  }

  lemma BothPlaced(scenario: Scenario, o: Observation, attempt: string)
    requires ProfilesValid(scenario, o, attempt)
    ensures Placed(scenario, o.starts) && Placed(scenario, o.finishes)
  {
    forall a | 0 <= a < |o.starts|
      ensures 0 <= IndexOf(o.starts[a]) < |scenario.required|
      ensures AgentIdentity(o.starts[a].fields) == scenario.required[IndexOf(o.starts[a])]
    {
      var b := PartnerOf(scenario, o, attempt, a);
    }
    forall b | 0 <= b < |o.finishes|
      ensures 0 <= IndexOf(o.finishes[b]) < |scenario.required|
      ensures AgentIdentity(o.finishes[b].fields) == scenario.required[IndexOf(o.finishes[b])]
    {
      var a := StartOfFinish(scenario, o, attempt, b);
    }
  }

  /** The judge's identity obligation, exactly. */
  lemma IdentityObligationExact(scenario: Scenario, o: Observation, attempt: string)
    requires ProfilesValid(scenario, o, attempt) && StringProfiles(o.starts) && StringProfiles(o.finishes)
    ensures JudgeIdentitiesMatch(scenario, o) <==>
              AllQualified(scenario) && TypedAgents(o.starts) && TypedAgents(o.finishes)
  {
    BothPlaced(scenario, o, attempt);
    IdentitiesExact(scenario, o.starts);
    IdentitiesExact(scenario, o.finishes);
  }

  /** Terminal count and text order follow from the runner's order check. */
  lemma RunnerImpliesJudge(scenario: Scenario, loads: string -> Option<Json>, argumentsOk: Json -> bool, o: Observation,
                           attempt: string)
    requires SynthesisOrder(scenario, loads, argumentsOk, o, attempt)
    ensures JudgeTerminalCount(o, attempt)
    ensures JudgeTextOrder(o)
  {
    FinalTextIsLast(o.texts);
  }

  /** `FinalText` is the largest ordinal of a text with characters. */
  lemma {:induction false} FinalTextIsLast(texts: seq<TextReceipt>)
    ensures FinalText(texts).Some? <==> exists k :: 0 <= k < |texts| && HasText(texts[k])
    ensures FinalText(texts).Some? ==>
              exists k :: 0 <= k < |texts| && HasText(texts[k]) && texts[k].ordinal == FinalText(texts).value
    ensures FinalText(texts).Some? ==> forall k :: 0 <= k < |texts| && HasText(texts[k]) ==>
              texts[k].ordinal <= FinalText(texts).value
  {
    if texts != [] {
      FinalTextIsLast(texts[..|texts| - 1]);
    }
  }

  /** The overlap obligation follows exactly when at least two children are required, as they are for every parallel
      scenario the loader accepts. */
  lemma OverlapObligationExact(scenario: Scenario, o: Observation)
    requires ParallelValid(scenario, o) && scenario.requireParallel
    ensures JudgeOverlap(scenario, o) <==> |scenario.required| >= 2
  {
    if |scenario.required| >= 2 { assert PairListed(o.overlaps, 0, 1); }
    assert forall k :: 0 <= k < |o.overlaps| ==> 0 <= o.overlaps[k].left < o.overlaps[k].right < |scenario.required|;
  }

  /** For a validated scenario the overlap obligation follows, and the identity obligation comes down to the types. */
  lemma ValidatedObligations(scenario: Scenario, host: Host, definitions: map<string, string>, o: Observation,
                             attempt: string)
    requires Validated(scenario, host, definitions)
    requires ProfilesValid(scenario, o, attempt) && ParallelValid(scenario, o)
    ensures JudgeOverlap(scenario, o)
    ensures JudgeIdentitiesMatch(scenario, o) <==> TypedAgents(o.starts) && TypedAgents(o.finishes)
    ensures StringProfiles(o.starts) && StringProfiles(o.finishes) && AllQualified(scenario)
  {
    if scenario.requireParallel { OverlapObligationExact(scenario, o); }
    QualifiedIds(scenario, definitions);
    BothPlaced(scenario, o, attempt);
    QualifiedProfiles(scenario, o.starts);
    QualifiedProfiles(scenario, o.finishes);
    IdentityObligationExact(scenario, o, attempt);
  }

  function Agent(r: Receipt): string { TextField(r.fields, "agent_id") }

  ghost predicate Names(receipts: seq<Receipt>, agent: string) {
    exists i :: 0 <= i < |receipts| && Agent(receipts[i]) == agent
  }

  /** Receipts with the same dispatch index name the same agent. */
  lemma AgentsAgree(scenario: Scenario, o: Observation, attempt: string, a: nat, b: nat)
    requires ProfilesValid(scenario, o, attempt)
    requires a < |o.starts| && b < |o.finishes| && IndexOf(o.starts[a]) == IndexOf(o.finishes[b])
    ensures Agent(o.starts[a]) == Agent(o.finishes[b]) != ""
  {
    assert PairValid(scenario.required[IndexOf(o.starts[a])], o.starts[a], o.finishes[b], attempt);
  }

  lemma SameAgents(scenario: Scenario, o: Observation, attempt: string)
    requires ProfilesValid(scenario, o, attempt)
    ensures forall i :: 0 <= i < |o.starts| ==> Agent(o.starts[i]) != "" && Names(o.finishes, Agent(o.starts[i]))
    ensures forall i :: 0 <= i < |o.finishes| ==> Agent(o.finishes[i]) != "" && Names(o.starts, Agent(o.finishes[i]))
  {
    forall a | 0 <= a < |o.starts| ensures Agent(o.starts[a]) != "" && Names(o.finishes, Agent(o.starts[a])) {
      var b := PartnerOf(scenario, o, attempt, a);
      AgentsAgree(scenario, o, attempt, a, b);
    }
    forall b | 0 <= b < |o.finishes| ensures Agent(o.finishes[b]) != "" && Names(o.starts, Agent(o.finishes[b])) {
      var a := StartOfFinish(scenario, o, attempt, b);
      AgentsAgree(scenario, o, attempt, a, b);
    }
  }

  lemma DistinctFinishes(scenario: Scenario, o: Observation, attempt: string, i: nat, j: nat)
    requires ProfilesValid(scenario, o, attempt) && DistinctAgents(o.starts)
    requires i < j < |o.finishes|
    ensures Agent(o.finishes[i]) != Agent(o.finishes[j])
  {
    var a := StartOfFinish(scenario, o, attempt, i);
    var b := StartOfFinish(scenario, o, attempt, j);
    AgentsAgree(scenario, o, attempt, a, i);
    AgentsAgree(scenario, o, attempt, b, j);
    assert IndexOf(o.finishes[i]) != IndexOf(o.finishes[j]);
  }

  /** Agent ids pair up for the judge exactly when the starts do not repeat one: the runner does not look. */
  lemma PairingExact(scenario: Scenario, o: Observation, attempt: string)
    requires ProfilesValid(scenario, o, attempt)
    ensures JudgePairing(o) <==> DistinctAgents(o.starts)
  {
    SameAgents(scenario, o, attempt);
    if DistinctAgents(o.starts) {
      forall i, j | 0 <= i < j < |o.finishes| ensures Agent(o.finishes[i]) != Agent(o.finishes[j]) {
        DistinctFinishes(scenario, o, attempt, i, j);
      }
    }
  }

  // ---- Delegation order -------------------------------------------------------------------------

  /** The runner's tool name is the judge's, for well-formed receipts of the delegation tool. */
  lemma ToolNamesAgree(fields: map<string, Json>)
    requires AliasesConsistent(fields, NAME_KEYS) && ToolName(fields) == SPAWN
    ensures JudgeToolName(fields) == SPAWN
  {
    var a, b := Get(fields, "name"), Get(fields, "tool_name");
    NamesInOrder(fields);
    PrintedSpawn(a);
    PrintedSpawn(b);
  }

  lemma NamesInOrder(fields: map<string, Json>)
    ensures ToolName(fields) ==
              if Truthy(Get(fields, "name")) then Printed(Get(fields, "name"))
              else if Truthy(Get(fields, "tool_name")) then Printed(Get(fields, "tool_name"))
              else ""
    ensures AliasesConsistent(fields, NAME_KEYS) && !Absent(Get(fields, "name"))
              && !Absent(Get(fields, "tool_name")) ==>
              Printed(Get(fields, "name")) == Printed(Get(fields, "tool_name"))
  {
    assert NAME_KEYS[0] == "name" && NAME_KEYS[1] == "tool_name";
    var rest := NAME_KEYS[1..];
    assert rest[0] == "tool_name" && rest[1..] == [];
    assert FirstText(fields, rest[1..]) == "";
    assert FirstText(fields, rest) == if Truthy(Get(fields, "tool_name")) then Printed(Get(fields, "tool_name"))
             else "";
  }

  /** Only the string itself prints as the tool's name. */
  lemma PrintedSpawn(j: Json)
    ensures Printed(j) == SPAWN ==> j == Str(SPAWN)
    ensures !Truthy(j) && !Absent(j) ==> Printed(j) != SPAWN
  {
    assert SPAWN[0] == 's';
  }

  /** All tool results belong to the one delegation call. */
  lemma OnlySpawnResults(scenario: Scenario, loads: string -> Option<Json>, o: Observation, id: string)
    requires scenario.required != [] && NoExtraTools(scenario, loads, o)
    requires SpawnIds(MergeStarts(loads, o.toolStarts).starts) == {id}
    ensures forall k :: 0 <= k < |o.toolResults| ==>
              CallId(o.toolResults[k].fields) == id && JudgeToolName(o.toolResults[k].fields) == SPAWN
                  && ToolName(o.toolResults[k].fields) == SPAWN
  {
    var n := MergeStarts(loads, o.toolStarts);
    forall k | 0 <= k < |o.toolResults|
      ensures CallId(o.toolResults[k].fields) == id && JudgeToolName(o.toolResults[k].fields) == SPAWN
                && ToolName(o.toolResults[k].fields) == SPAWN
    {
      assert ResultWellFormed(n.starts, o.toolResults[k]);
      assert CallId(o.toolResults[k].fields) in n.starts.Keys;
      ToolNamesAgree(o.toolResults[k].fields);
    }
  }

  lemma {:induction false} ResultsOfAll(results: seq<Receipt>, id: string)
    requires forall k :: 0 <= k < |results| ==> CallId(results[k].fields) == id
    ensures ResultsOf(results, id) == results
  {
    if results != [] { ResultsOfAll(results[..|results| - 1], id); }
  }

  /** A successful spawn result the runner does not recognise as a completion. */
  predicate OddSuccess(item: Receipt) {
    Get(item.fields, "success") == Bool(true) && !RecognisedStatus(item.fields)
  }

  ghost predicate AnyOddSuccess(results: seq<Receipt>) {
    exists k :: 0 <= k < |results| && OddSuccess(results[k])
  }

  lemma {:induction false} SpawnCounts(results: seq<Receipt>)
    requires forall k :: 0 <= k < |results| ==>
               && JudgeToolName(results[k].fields) == SPAWN && ToolName(results[k].fields) == SPAWN
               && results[k].eventType in TOOL_RESULT_EVENTS && SpawnResultAcceptable(results[k])
    ensures |Completions(results)| <= |JudgeSpawns(results)|
    ensures !AnyOddSuccess(results) ==> JudgeSpawns(results) == Completions(results)
    ensures AnyOddSuccess(results) ==> |Completions(results)| < |JudgeSpawns(results)|
  {
    if results != [] {
      var init, last := results[..|results| - 1], results[|results| - 1];
      forall k | 0 <= k < |init|
        ensures JudgeToolName(init[k].fields) == SPAWN && ToolName(init[k].fields) == SPAWN
        ensures init[k].eventType in TOOL_RESULT_EVENTS && SpawnResultAcceptable(init[k])
      {
        assert init[k] == results[k];
      }
      SpawnCounts(init);
      DoneEither(last);
      AnyOddStep(results);
    }
  }

  /** A success the judge counts is a completion or an odd one, not both. */
  lemma DoneEither(item: Receipt)
    requires JudgeToolName(item.fields) == SPAWN && ToolName(item.fields) == SPAWN
    requires item.eventType in TOOL_RESULT_EVENTS && SpawnResultAcceptable(item)
    ensures JudgeSpawnDone(item) <==> IsCompletion(item) || OddSuccess(item)
    ensures !(IsCompletion(item) && OddSuccess(item))
  {
  }

  lemma AnyOddStep(results: seq<Receipt>)
    requires results != []
    ensures AnyOddSuccess(results) <==> AnyOddSuccess(results[..|results| - 1]) || OddSuccess(results[|results| - 1])
  {
    var init := results[..|results| - 1];
    if AnyOddSuccess(init) {
      var k :| 0 <= k < |init| && OddSuccess(init[k]);
      assert results[k] == init[k];
    }
    if AnyOddSuccess(results) {
      var k :| 0 <= k < |results| && OddSuccess(results[k]);
      assert k < |init| ==> init[k] == results[k];
    }
  }

  /** What the runner's order check says once all tool results belong to the one call. */
  lemma RunnerOrder(scenario: Scenario, loads: string -> Option<Json>, argumentsOk: Json -> bool, o: Observation,
                    attempt: string)
    requires scenario.required != []
    requires SynthesisOrder(scenario, loads, argumentsOk, o, attempt) && NoExtraTools(scenario, loads, o)
    ensures forall k :: 0 <= k < |o.toolResults| ==>
              && JudgeToolName(o.toolResults[k].fields) == SPAWN && ToolName(o.toolResults[k].fields) == SPAWN
              && SpawnResultAcceptable(o.toolResults[k])
    ensures var done := Completions(o.toolResults);
            && |done| == 1 && done[0].ordinal < FinalText(o.texts).value
            && forall k :: 0 <= k < |o.finishes| ==> o.finishes[k].ordinal < done[0].ordinal
  {
    var id :| SpawnIds(MergeStarts(loads, o.toolStarts).starts) == {id};
    OnlySpawnResults(scenario, loads, o, id);
    ResultsOfAll(o.toolResults, id);
  }

  /** The judge accepts the delegation order exactly when no spawn result says it succeeded under a status
      the runner does not recognise: the runner skips such a result, the judge counts it. */
  lemma DelegationOrderExact(scenario: Scenario, loads: string -> Option<Json>, argumentsOk: Json -> bool,
                             o: Observation, attempt: string)
    requires scenario.required != []
    requires SynthesisOrder(scenario, loads, argumentsOk, o, attempt) && NoExtraTools(scenario, loads, o)
    requires forall k :: 0 <= k < |o.toolResults| ==> o.toolResults[k].eventType in TOOL_RESULT_EVENTS
    ensures JudgeDelegationOrder(scenario, o) <==> !AnyOddSuccess(o.toolResults)
  {
    RunnerOrder(scenario, loads, argumentsOk, o, attempt);
    assert |o.finishes| == |scenario.required|;
    OrderFromCounts(scenario, o);
  }

  lemma OrderFromCounts(scenario: Scenario, o: Observation)
    requires scenario.required != [] && |o.finishes| == |scenario.required|
    requires forall k :: 0 <= k < |o.toolResults| ==>
               && JudgeToolName(o.toolResults[k].fields) == SPAWN && ToolName(o.toolResults[k].fields) == SPAWN
               && o.toolResults[k].eventType in TOOL_RESULT_EVENTS && SpawnResultAcceptable(o.toolResults[k])
    requires FinalText(o.texts).Some?
    requires var done := Completions(o.toolResults);
             && |done| == 1 && done[0].ordinal < FinalText(o.texts).value
             && forall k :: 0 <= k < |o.finishes| ==> o.finishes[k].ordinal < done[0].ordinal
    ensures JudgeDelegationOrder(scenario, o) <==> !AnyOddSuccess(o.toolResults)
  {
    SpawnCounts(o.toolResults);
    FinalTextIsLast(o.texts);
  }

  /** Order of a whole accepted run: each child starts before it finishes, all finishes come before the one
      completion of the delegation call, that before the last text, that before the one terminal event. */
  lemma AcceptedRunOrder(scenario: Scenario, loads: string -> Option<Json>, argumentsOk: Json -> bool, o: Observation,
                         attempt: string)
    requires scenario.required != []
    requires SynthesisOrder(scenario, loads, argumentsOk, o, attempt)
    ensures forall a, b :: 0 <= a < |o.starts| && 0 <= b < |o.finishes| ==>
              (IndexOf(o.starts[a]) == IndexOf(o.finishes[b]) ==> o.starts[a].ordinal < o.finishes[b].ordinal)
    ensures exists done :: done in o.toolResults && IsCompletion(done)
              && (forall b :: 0 <= b < |o.finishes| ==> o.finishes[b].ordinal < done.ordinal)
              && done.ordinal < FinalText(o.texts).value < o.terminals[0].ordinal
  {
    StartsBeforeFinishes(scenario, o, attempt);
    CompletionExists(scenario, loads, argumentsOk, o, attempt);
  }

  lemma StartsBeforeFinishes(scenario: Scenario, o: Observation, attempt: string)
    requires ProfilesValid(scenario, o, attempt)
    ensures forall a, b :: 0 <= a < |o.starts| && 0 <= b < |o.finishes| ==>
              (IndexOf(o.starts[a]) == IndexOf(o.finishes[b]) ==> o.starts[a].ordinal < o.finishes[b].ordinal)
  {
    forall a, b | 0 <= a < |o.starts| && 0 <= b < |o.finishes| && IndexOf(o.starts[a]) == IndexOf(o.finishes[b])
      ensures o.starts[a].ordinal < o.finishes[b].ordinal
    {
      assert PairValid(scenario.required[IndexOf(o.starts[a])], o.starts[a], o.finishes[b], attempt);
    }
  }

  lemma CompletionExists(scenario: Scenario, loads: string -> Option<Json>, argumentsOk: Json -> bool, o: Observation,
                         attempt: string)
    requires scenario.required != [] && SynthesisOrder(scenario, loads, argumentsOk, o, attempt)
    ensures exists done :: done in o.toolResults && IsCompletion(done)
              && (forall b :: 0 <= b < |o.finishes| ==> o.finishes[b].ordinal < done.ordinal)
              && done.ordinal < FinalText(o.texts).value < o.terminals[0].ordinal
  {
    var id :| SpawnIds(MergeStarts(loads, o.toolStarts).starts) == {id};
    var mine := ResultsOf(o.toolResults, id);
    var done := Completions(mine)[0];
    CompletionsAreResults(mine);
    ResultsOfMembers(o.toolResults, id);
    assert done in Completions(mine);
  }

  lemma {:induction false} CompletionsAreResults(results: seq<Receipt>)
    ensures forall x :: x in Completions(results) ==> x in results && IsCompletion(x)
  {
    if results != [] {
      CompletionsAreResults(results[..|results| - 1]);
    }
  }

  lemma {:induction false} ResultsOfMembers(results: seq<Receipt>, id: string)
    ensures forall x :: x in ResultsOf(results, id) ==> x in results
  {
    if results != [] {
      ResultsOfMembers(results[..|results| - 1], id);
    }
  }
}
