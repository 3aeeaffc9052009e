/** The pinned release manifest (scripts/judge_real_agent_receipts.py:1070-1246) and what a passing report means once
    the inputs have been held against it. */
module Manifests {
  import opened Prelude
  import opened Sorting
  import opened Release

  datatype Scenario = Scenario(id: string, domainKey: string, domain: string, repetitions: int)

  /** What a suite with coding tasks demands of its host-test evidence; `validator` holds the rest of the policy. */
  datatype Policy = Policy(evidenceSchema: string, receiptSchema: string, validator: map<string, string>,
      requiredTrials: nat)
  datatype Evidence = Evidence(schema: string, receiptSchema: string, validator: map<string, string>,
      trials: seq<string>)

  datatype Suite = Suite(id: string, contract: string, scenarios: seq<Scenario>, policy: Option<Policy>)
  datatype Input = Input(suite: string, contract: string, trials: seq<Trial>, evidence: Option<Evidence>)

  datatype Refusal = NoInputs | DuplicateSuite | SuiteSetMismatch | ContractMismatch | CrossSuiteTrial | DuplicateTrial
                   | TrialSetMismatch | DomainMismatch | EvidenceMismatch | DomainsNotUnique | DuplicateIdentity

  const DOMAIN_KEYS: set<string> := {"coding", "research", "legal", "finance"}

  function AllScenarios(suites: seq<Suite>): seq<Scenario> {
    if suites == [] then [] else AllScenarios(suites[..|suites| - 1]) + suites[|suites| - 1].scenarios
  }

  /** What `_load_release_manifest` insists on: unrepeated suites and scenarios, three trials each, and one scenario
      for each of the four domains. */
  ghost predicate ManifestValid(suites: seq<Suite>) {
    var all := AllScenarios(suites);
    && (forall i, j :: 0 <= i < j < |suites| ==> suites[i].id != suites[j].id)
    && DistinctIds(all)
    && (forall i :: 0 <= i < |all| ==> all[i].repetitions == 3)
    && (set i | 0 <= i < |all| :: all[i].domainKey) == DOMAIN_KEYS
    && |all| == 4
  }

  type Identity = (string, int)

  function IdentityOf(t: Trial): Identity { (t.scenario, t.number) }

  ghost predicate Expected(scenarios: seq<Scenario>, id: Identity) {
    exists j :: 0 <= j < |scenarios| && scenarios[j].id == id.0 && 1 <= id.1 <= scenarios[j].repetitions
  }

  ghost predicate Supplies(trials: seq<Trial>, id: Identity) {
    exists k :: 0 <= k < |trials| && IdentityOf(trials[k]) == id
  }

  ghost predicate DistinctTrials(trials: seq<Trial>) {
    forall i, j :: 0 <= i < j < |trials| ==> IdentityOf(trials[i]) != IdentityOf(trials[j])
  }

  ghost predicate DomainsAgree(suite: Suite, trials: seq<Trial>) {
    forall j, k :: 0 <= j < |suite.scenarios| && 0 <= k < |trials| && suite.scenarios[j].id == trials[k].scenario ==>
      trials[k].domain == suite.scenarios[j].domain
  }

  ghost predicate SuppliesExpected(suite: Suite, trials: seq<Trial>) {
    forall id: Identity :: Supplies(trials, id) <==> Expected(suite.scenarios, id)
  }

  /** Evidence comes exactly where a policy asks for it, and meets it. */
  predicate EvidenceMatches(suite: Suite, input: Input) {
    if suite.policy.None? then input.evidence.None?
    else
      && input.evidence.Some?
      && var policy, evidence := suite.policy.value, input.evidence.value;
      && evidence.schema == policy.evidenceSchema && evidence.receiptSchema == policy.receiptSchema
      && evidence.validator == policy.validator && |evidence.trials| == policy.requiredTrials
  }

  /** The trials are of the suite, unrepeated, exactly the expected ones, and each of its scenario's domain. */
  ghost predicate TrialsMatch(suite: Suite, trials: seq<Trial>) {
    && (forall k :: 0 <= k < |trials| ==> trials[k].suite == suite.id)
    && DistinctTrials(trials)
    && SuppliesExpected(suite, trials)
    && DomainsAgree(suite, trials)
  }

  /** An input meets its suite: same contract, exactly the expected trials, each once and in its domain, and the
      host-test evidence the suite asks for. */
  ghost predicate SuiteMatches(suite: Suite, input: Input) {
    && input.contract == suite.contract
    && TrialsMatch(suite, input.trials)
    && EvidenceMatches(suite, input)
  }

  ghost predicate Provided(inputs: seq<Input>, suite: string) {
    exists k :: 0 <= k < |inputs| && inputs[k].suite == suite
  }

  ghost predicate InputsMatch(suites: seq<Suite>, inputs: seq<Input>) {
    && (forall i, j :: 0 <= i < j < |inputs| ==> inputs[i].suite != inputs[j].suite)
    && (forall name :: Provided(inputs, name) <==> Named(suites, name))
    && SuitesMatch(suites, inputs)
    && DistinctDomains(AllScenarios(suites))
  }

  function AllTrials(inputs: seq<Input>): seq<Trial> {
    if inputs == [] then [] else AllTrials(inputs[..|inputs| - 1]) + inputs[|inputs| - 1].trials
  }

  lemma {:induction false} TrialsOfInputs(inputs: seq<Input>)
    ensures forall t :: t in AllTrials(inputs) <==> exists k :: 0 <= k < |inputs| && t in inputs[k].trials
  {
    if inputs != [] {
      var init := inputs[..|inputs| - 1];
      TrialsOfInputs(init);
      forall t ensures t in AllTrials(inputs) <==> exists k :: 0 <= k < |inputs| && t in inputs[k].trials {
        if t in AllTrials(init) {
          var k :| 0 <= k < |init| && t in init[k].trials;
          assert inputs[k] == init[k];
        }
        if k :| 0 <= k < |inputs| && t in inputs[k].trials {
          assert k == |inputs| - 1 || init[k] == inputs[k];
        }
      }
    }
  }

  ghost predicate DistinctIds(scenarios: seq<Scenario>) {
    forall i, j :: 0 <= i < j < |scenarios| ==> scenarios[i].id != scenarios[j].id
  }

  lemma DistinctParts(a: seq<Scenario>, b: seq<Scenario>)
    requires DistinctIds(a + b)
    ensures DistinctIds(a) && DistinctIds(b)
  {
    assert forall i :: 0 <= i < |a| ==> a[i] == (a + b)[i];
    assert forall i :: 0 <= i < |b| ==> b[i] == (a + b)[|a| + i];
  }

  /** Scenario ids are unique within a suite too, and its scenarios are among all scenarios. */
  lemma {:induction false} SuiteScenarios(suites: seq<Suite>, i: nat)
    requires i < |suites|
    ensures DistinctIds(AllScenarios(suites)) ==> DistinctIds(suites[i].scenarios)
    ensures forall s :: s in suites[i].scenarios ==> s in AllScenarios(suites)
  {
    var init := suites[..|suites| - 1];
    if DistinctIds(AllScenarios(suites)) { DistinctParts(AllScenarios(init), suites[|suites| - 1].scenarios); }
    if i < |init| { SuiteScenarios(init, i); }
  }

  // ---- The validation ---------------------------------------------------------------------------

  /** `actual_suites`. */
  method IndexInputs(inputs: seq<Input>) returns (r: Result<map<string, Input>, Refusal>)
    ensures r.Ok? <==> forall i, j :: 0 <= i < j < |inputs| ==> inputs[i].suite != inputs[j].suite
    ensures r.Ok? ==> forall name :: name in r.value <==> Provided(inputs, name)
    ensures r.Ok? ==> forall k :: 0 <= k < |inputs| ==>
              inputs[k].suite in r.value && r.value[inputs[k].suite] == inputs[k]
  {
    var byName: map<string, Input> := map[];
    var i := 0;
    while i < |inputs|
      invariant 0 <= i <= |inputs|
      invariant forall a, b :: 0 <= a < b < i ==> inputs[a].suite != inputs[b].suite
      invariant forall name :: name in byName <==> exists k :: 0 <= k < i && inputs[k].suite == name
      invariant forall k :: 0 <= k < i ==> byName[inputs[k].suite] == inputs[k]
    {
      if inputs[i].suite in byName { return Err(DuplicateSuite); }
      byName := byName[inputs[i].suite := inputs[i]];
      i := i + 1;
    }
    r := Ok(byName);
  }

  /** Exactly the expected identities, each with its scenario's domain. */
  ghost predicate ExpectedMap(m: map<Identity, string>, scenarios: seq<Scenario>) {
    && (forall id :: id in m <==> Expected(scenarios, id))
    && (forall j, id :: 0 <= j < |scenarios| && id in m && id.0 == scenarios[j].id ==> m[id] == scenarios[j].domain)
  }

  /** `expected_trials`: the trial numbers of every scenario, with the scenario's domain. */
  method ExpectedTrials(scenarios: seq<Scenario>) returns (m: map<Identity, string>)
    requires DistinctIds(scenarios)
    requires forall a :: 0 <= a < |scenarios| ==> scenarios[a].repetitions == 3
    ensures ExpectedMap(m, scenarios)
    ensures |m| == 3 * |scenarios|
  {
    m := map[];
    var j := 0;
    NothingExpected(scenarios);
    while j < |scenarios|
      invariant 0 <= j <= |scenarios| && ExpectedSoFar(m, scenarios, j)
    {
      m := AddNext(m, scenarios, j);
      j := j + 1;
    }
    AllExpected(m, scenarios);
  }

  lemma NothingExpected(scenarios: seq<Scenario>)
    ensures ExpectedSoFar(map[], scenarios, 0)
  {
  }

  lemma AllExpected(m: map<Identity, string>, scenarios: seq<Scenario>)
    requires ExpectedSoFar(m, scenarios, |scenarios|)
    ensures ExpectedMap(m, scenarios) && |m| == 3 * |scenarios|
  {
    assert scenarios[..|scenarios|] == scenarios;
  }

  ghost predicate ExpectedSoFar(m: map<Identity, string>, scenarios: seq<Scenario>, j: nat)
    requires j <= |scenarios|
  {
    ExpectedMap(m, scenarios[..j]) && |m| == 3 * j
  }

  method AddNext(m: map<Identity, string>, scenarios: seq<Scenario>, j: nat) returns (r: map<Identity, string>)
    requires j < |scenarios| && DistinctIds(scenarios) && scenarios[j].repetitions == 3
    requires ExpectedSoFar(m, scenarios, j)
    ensures ExpectedSoFar(r, scenarios, j + 1)
  {
    FreshScenario(m, scenarios, j);
    r := AddScenario(m, scenarios[..j], scenarios[j]);
    OneMore(scenarios, j);
  }

  lemma OneMore<T>(s: seq<T>, j: nat)
    requires j < |s|
    ensures s[..j + 1] == s[..j] + [s[j]]
  {
  }

  method AddScenario(m: map<Identity, string>, ghost init: seq<Scenario>, s: Scenario)
    returns (r: map<Identity, string>)
    requires s.repetitions == 3 && ExpectedMap(m, init)
    requires forall id :: id in m ==> id.0 != s.id
    requires forall k :: 0 <= k < |init| ==> init[k].id != s.id
    ensures ExpectedMap(r, init + [s]) && |r| == |m| + 3
  {
    r := AddRepetitions(m, s);
    ExpectedMapStep(m, r, init, s);
  }

  lemma FreshScenario(m: map<Identity, string>, scenarios: seq<Scenario>, j: nat)
    requires j < |scenarios| && DistinctIds(scenarios) && ExpectedMap(m, scenarios[..j])
    ensures forall id :: id in m ==> id.0 != scenarios[j].id
    ensures forall k :: 0 <= k < j ==> scenarios[..j][k].id != scenarios[j].id
  {
    forall id | id in m ensures id.0 != scenarios[j].id { assert Expected(scenarios[..j], id); }
  }

  lemma ExpectedMapStep(m: map<Identity, string>, r: map<Identity, string>, init: seq<Scenario>, s: Scenario)
    requires ExpectedMap(m, init)
    requires forall k :: 0 <= k < |init| ==> init[k].id != s.id
    requires forall id :: id in m ==> id.0 != s.id
    requires forall id :: id in r <==> id in m || (id.0 == s.id && 1 <= id.1 <= s.repetitions)
    requires forall id :: id in r ==> r[id] == if id in m then m[id] else s.domain
    ensures ExpectedMap(r, init + [s])
  {
    var all := init + [s];
    forall id ensures id in r <==> Expected(all, id) {
      if Expected(init, id) {
        var k :| 0 <= k < |init| && init[k].id == id.0 && 1 <= id.1 <= init[k].repetitions;
        assert all[k] == init[k];
      }
      assert all[|init|] == s;
    }
  }

  method AddRepetitions(m: map<Identity, string>, s: Scenario) returns (r: map<Identity, string>)
    requires s.repetitions == 3 && forall id :: id in m ==> id.0 != s.id
    ensures forall id :: id in r <==> id in m || (id.0 == s.id && 1 <= id.1 <= s.repetitions)
    ensures forall id :: id in r ==> r[id] == if id in m then m[id] else s.domain
    ensures |r| == |m| + 3
  {
    r := m;
    var n := 1;
    while n <= s.repetitions
      invariant 1 <= n <= s.repetitions + 1
      invariant forall id :: id in r <==> id in m || (id.0 == s.id && 1 <= id.1 < n)
      invariant forall id :: id in r ==> r[id] == if id in m then m[id] else s.domain
      invariant |r| == |m| + n - 1
    {
      r := r[(s.id, n) := s.domain];
      n := n + 1;
    }
  }

  ghost predicate TrialMap(m: map<Identity, Trial>, trials: seq<Trial>) {
    && (forall id :: id in m <==> Supplies(trials, id))
    && (forall k :: 0 <= k < |trials| ==> IdentityOf(trials[k]) in m && m[IdentityOf(trials[k])] == trials[k])
  }

  /** `actual_trials`. */
  method IndexTrials(suite: string, trials: seq<Trial>) returns (r: Result<map<Identity, Trial>, Refusal>)
    ensures r.Ok? <==> DistinctTrials(trials) && forall k :: 0 <= k < |trials| ==> trials[k].suite == suite
    ensures r.Ok? ==> TrialMap(r.value, trials) && |r.value| == |trials|
  {
    var byId: map<Identity, Trial> := map[];
    var i := 0;
    while i < |trials|
      invariant 0 <= i <= |trials| && Taken(suite, trials, i, byId)
    {
      if trials[i].suite != suite { return Err(CrossSuiteTrial); }
      TakeStep(suite, trials, i, byId);
      if IdentityOf(trials[i]) in byId { return Err(DuplicateTrial); }
      byId := byId[IdentityOf(trials[i]) := trials[i]];
      i := i + 1;
    }
    assert trials[..i] == trials;
    r := Ok(byId);
  }

  /** The first `i` trials are all of the suite, unrepeated, and in the map. */
  ghost predicate Taken(suite: string, trials: seq<Trial>, i: nat, byId: map<Identity, Trial>)
    requires i <= |trials|
  {
    && |byId| == i
    && (forall k :: 0 <= k < i ==> trials[k].suite == suite)
    && DistinctTrials(trials[..i]) && TrialMap(byId, trials[..i])
  }

  lemma TakeStep(suite: string, trials: seq<Trial>, i: nat, byId: map<Identity, Trial>)
    requires i < |trials| && Taken(suite, trials, i, byId) && trials[i].suite == suite
    ensures if IdentityOf(trials[i]) in byId then !DistinctTrials(trials)
            else Taken(suite, trials, i + 1, byId[IdentityOf(trials[i]) := trials[i]])
  {
    OneMore(trials, i);
    TrialMapStep(byId, trials[..i], trials[i]);
    if IdentityOf(trials[i]) in byId { RepeatedTrial(trials, i); }
  }

  lemma TrialMapStep(m: map<Identity, Trial>, init: seq<Trial>, t: Trial)
    requires TrialMap(m, init) && DistinctTrials(init)
    ensures IdentityOf(t) !in m ==> TrialMap(m[IdentityOf(t) := t], init + [t]) && DistinctTrials(init + [t])
    ensures IdentityOf(t) in m ==> Supplies(init, IdentityOf(t))
  {
    var all := init + [t];
    if IdentityOf(t) !in m {
      forall id ensures id in m[IdentityOf(t) := t] <==> Supplies(all, id) {
        if Supplies(init, id) {
          var k :| 0 <= k < |init| && IdentityOf(init[k]) == id;
          assert all[k] == init[k];
        }
        assert all[|init|] == t;
      }
    }
  }

  lemma RepeatedTrial(trials: seq<Trial>, i: nat)
    requires i < |trials| && Supplies(trials[..i], IdentityOf(trials[i]))
    ensures !DistinctTrials(trials)
  {
    var k :| 0 <= k < i && IdentityOf(trials[..i][k]) == IdentityOf(trials[i]);
    assert IdentityOf(trials[k]) == IdentityOf(trials[i]);
  }

  /** The tests on the evidence, in the order of the script. */
  predicate CheckedEvidence(policy: Option<Policy>, evidence: Option<Evidence>) {
    match policy
    case Some(p) =>
      if evidence.None? then false
      else if evidence.value.schema != p.evidenceSchema || evidence.value.receiptSchema != p.receiptSchema then false
      else evidence.value.validator == p.validator && |evidence.value.trials| == p.requiredTrials
    case None => evidence.None?
  }

  /** The trials of one suite against its scenarios; their number. */
  method ValidateTrials(suite: Suite, trials: seq<Trial>) returns (r: Result<nat, Refusal>)
    requires DistinctIds(suite.scenarios)
    requires forall a :: 0 <= a < |suite.scenarios| ==> suite.scenarios[a].repetitions == 3
    ensures r.Ok? <==> TrialsMatch(suite, trials)
    ensures r.Ok? ==> r.value == |trials| == 3 * |suite.scenarios|
  {
    var expected := ExpectedTrials(suite.scenarios);
    var indexed := IndexTrials(suite.id, trials);
    if indexed.Err? { return Err(indexed.error); }
    var problem := CompareTrials(suite, trials, expected, indexed.value);
    if problem.Some? { return Err(problem.value); }
    var count: nat := |expected|;
    r := Ok(count);
  }

  /** One suite against its input; the number of its trials. */
  method ValidateSuite(suite: Suite, input: Input) returns (r: Result<nat, Refusal>)
    requires DistinctIds(suite.scenarios)
    requires forall a :: 0 <= a < |suite.scenarios| ==> suite.scenarios[a].repetitions == 3
    ensures r.Ok? <==> SuiteMatches(suite, input)
    ensures r.Ok? ==> r.value == |input.trials| == 3 * |suite.scenarios|
  {
    if input.contract != suite.contract { return Err(ContractMismatch); }
    var counted := ValidateTrials(suite, input.trials);
    if counted.Err? { return counted; }
    if !CheckedEvidence(suite.policy, input.evidence) { return Err(EvidenceMismatch); }
    r := counted;
  }

  /** The set of trials and their domains against the expected ones. */
  method CompareTrials(suite: Suite, trials: seq<Trial>, expected: map<Identity, string>, actual: map<Identity, Trial>)
    returns (problem: Option<Refusal>)
    requires ExpectedMap(expected, suite.scenarios) && TrialMap(actual, trials)
    ensures problem.None? <==> SuppliesExpected(suite, trials) && DomainsAgree(suite, trials)
    ensures problem.None? ==> |expected| == |actual|
  {
    SameSets(suite, trials, expected, actual);
    if actual.Keys != expected.Keys { return Some(TrialSetMismatch); }
    DomainsDecide(suite, trials, expected, actual);
    if exists id :: id in expected && actual[id].domain != expected[id] { return Some(DomainMismatch); }
    assert |actual.Keys| == |actual| && |expected.Keys| == |expected|;
    problem := None;
  }

  lemma DomainsDecide(suite: Suite, trials: seq<Trial>, expected: map<Identity, string>, actual: map<Identity, Trial>)
    requires ExpectedMap(expected, suite.scenarios)
    requires TrialMap(actual, trials) && actual.Keys == expected.Keys
    ensures forall id :: id in expected ==> id in actual
    ensures DomainsAgree(suite, trials) <==> forall id :: id in expected ==> actual[id].domain == expected[id]
  {
    if forall id :: id in expected ==> actual[id].domain == expected[id] {
      forall j, k | 0 <= j < |suite.scenarios| && 0 <= k < |trials| && suite.scenarios[j].id == trials[k].scenario
        ensures trials[k].domain == suite.scenarios[j].domain
      {
        assert Supplies(trials, IdentityOf(trials[k]));
      }
    }
    forall id | DomainsAgree(suite, trials) && id in expected ensures actual[id].domain == expected[id] {
      var j :| 0 <= j < |suite.scenarios| && suite.scenarios[j].id == id.0
          && 1 <= id.1 <= suite.scenarios[j].repetitions;
      var k :| 0 <= k < |trials| && IdentityOf(trials[k]) == id;
    }
  }

  lemma SameSets(suite: Suite, trials: seq<Trial>, expected: map<Identity, string>, actual: map<Identity, Trial>)
    requires ExpectedMap(expected, suite.scenarios) && TrialMap(actual, trials)
    ensures actual.Keys == expected.Keys <==> SuppliesExpected(suite, trials)
  {
    if actual.Keys == expected.Keys {
      forall id: Identity ensures Supplies(trials, id) <==> Expected(suite.scenarios, id) {
        assert id in actual.Keys <==> id in expected.Keys;
      }
    }
    if SuppliesExpected(suite, trials) {
      assert forall id :: id in actual.Keys <==> id in expected.Keys;
    }
  }

  // ---- All suites -------------------------------------------------------------------------------

  ghost predicate Named(suites: seq<Suite>, name: string) {
    exists i :: 0 <= i < |suites| && suites[i].id == name
  }

  ghost predicate SuitesMatch(suites: seq<Suite>, inputs: seq<Input>) {
    forall i, k :: 0 <= i < |suites| && 0 <= k < |inputs| && inputs[k].suite == suites[i].id ==>
        SuiteMatches(suites[i], inputs[k])
  }

  ghost predicate DistinctDomains(scenarios: seq<Scenario>) {
    forall i, j :: 0 <= i < j < |scenarios| ==> scenarios[i].domain != scenarios[j].domain
  }

  /** The loop over the pinned suites. */
  method ValidateSuites(suites: seq<Suite>, byName: map<string, Input>) returns (r: Result<nat, Refusal>)
    requires ManifestValid(suites)
    requires forall i :: 0 <= i < |suites| ==> suites[i].id in byName
    ensures r.Ok? <==> forall i :: 0 <= i < |suites| ==> SuiteMatches(suites[i], byName[suites[i].id])
    ensures r.Ok? ==> r.value == 12
  {
    var count, i := 0, 0;
    while i < |suites|
      invariant 0 <= i <= |suites|
      invariant forall j :: 0 <= j < i ==> SuiteMatches(suites[j], byName[suites[j].id])
      invariant count == 3 * |AllScenarios(suites[..i])|
    {
      SuiteScenarios(suites, i);
      assert suites[..i + 1][..i] == suites[..i];
      assert forall a :: 0 <= a < |suites[i].scenarios| ==> suites[i].scenarios[a] in suites[i].scenarios;
      var one := ValidateSuite(suites[i], byName[suites[i].id]);
      if one.Err? { return Err(one.error); }
      count := count + one.value;
      i := i + 1;
    }
    assert suites[..i] == suites;
    r := Ok(count);
  }

  /** `_validate_release_manifest_inputs`, with the number of trials. */
  method ValidateInputs(suites: seq<Suite>, inputs: seq<Input>) returns (r: Result<nat, Refusal>)
    requires ManifestValid(suites)
    ensures r.Ok? <==> InputsMatch(suites, inputs)
    ensures r.Ok? ==> r.value == 12
  {
    var indexed := IndexInputs(inputs);
    if indexed.Err? { return Err(indexed.error); }
    var byName := indexed.value;
    SuiteNames(suites, inputs, byName.Keys);
    if byName.Keys != SuiteIds(suites) { return Err(SuiteSetMismatch); }
    var counted := ValidateSuites(suites, byName);
    MatchedByName(suites, inputs, byName);
    if counted.Err? { return counted; }
    var uniqueDomains := CheckDomains(AllScenarios(suites));
    if !uniqueDomains { return Err(DomainsNotUnique); }
    r := counted;
  }

  method CheckDomains(scenarios: seq<Scenario>) returns (ok: bool)
    ensures ok == DistinctDomains(scenarios)
  {
    ok := !exists i, j :: 0 <= i < j < |scenarios| && scenarios[i].domain == scenarios[j].domain;
  }

  function SuiteIds(suites: seq<Suite>): (r: set<string>)
    ensures forall name :: name in r <==> Named(suites, name)
    ensures forall i :: 0 <= i < |suites| ==> suites[i].id in r
  {
    set i | 0 <= i < |suites| :: suites[i].id
  }

  lemma SuiteNames(suites: seq<Suite>, inputs: seq<Input>, actual: set<string>)
    requires forall name :: name in actual <==> Provided(inputs, name)
    ensures actual == SuiteIds(suites) <==> forall name :: Provided(inputs, name) <==> Named(suites, name)
  {
    if actual == SuiteIds(suites) {
      forall name
        ensures Provided(inputs, name) <==> Named(suites, name)
      {
        assert name in actual <==> name in SuiteIds(suites);
      }
    }
  }

  lemma MatchedByName(suites: seq<Suite>, inputs: seq<Input>, byName: map<string, Input>)
    requires forall name :: name in byName <==> Provided(inputs, name)
    requires forall k :: 0 <= k < |inputs| ==> inputs[k].suite in byName && byName[inputs[k].suite] == inputs[k]
    requires forall i :: 0 <= i < |suites| ==> suites[i].id in byName
    ensures SuitesMatch(suites, inputs) <==>
              forall i :: 0 <= i < |suites| ==> SuiteMatches(suites[i], byName[suites[i].id])
  {
    forall i | SuitesMatch(suites, inputs) && 0 <= i < |suites| ensures SuiteMatches(suites[i], byName[suites[i].id]) {
      var k :| 0 <= k < |inputs| && inputs[k].suite == suites[i].id;
    }
  }

  // ---- Trials of a matched release --------------------------------------------------------------

  ghost predicate DistinctAcross(trials: seq<Trial>) {
    forall i, j :: 0 <= i < j < |trials| ==>
        (trials[i].suite, IdentityOf(trials[i])) != (trials[j].suite, IdentityOf(trials[j]))
  }

  lemma InputSuite(suites: seq<Suite>, inputs: seq<Input>, k: nat) returns (i: nat)
    requires InputsMatch(suites, inputs) && k < |inputs|
    ensures i < |suites| && suites[i].id == inputs[k].suite && SuiteMatches(suites[i], inputs[k])
  {
    assert Provided(inputs, inputs[k].suite);
    assert Named(suites, inputs[k].suite);
    i :| 0 <= i < |suites| && suites[i].id == inputs[k].suite;
  }

  /** No identity repeats across matched inputs, so the later duplicate test never fires. */
  lemma {:induction false} MatchedTrialsDistinct(suites: seq<Suite>, inputs: seq<Input>, n: nat)
    requires InputsMatch(suites, inputs) && n <= |inputs|
    ensures DistinctAcross(AllTrials(inputs[..n]))
    ensures forall t :: t in AllTrials(inputs[..n]) ==> exists k :: 0 <= k < n && t.suite == inputs[k].suite
  {
    if n != 0 {
      MatchedTrialsDistinct(suites, inputs, n - 1);
      assert inputs[..n][..n - 1] == inputs[..n - 1];
      var before, here := AllTrials(inputs[..n - 1]), inputs[n - 1].trials;
      var i := InputSuite(suites, inputs, n - 1);
      forall t | t in before ensures t.suite != suites[i].id {
        var k :| 0 <= k < n - 1 && t.suite == inputs[k].suite;
      }
      JoinedDistinct(before, here, suites[i].id);
    }
  }

  lemma JoinedDistinct(before: seq<Trial>, here: seq<Trial>, suite: string)
    requires DistinctAcross(before) && DistinctTrials(here)
    requires forall t :: t in before ==> t.suite != suite
    requires forall k :: 0 <= k < |here| ==> here[k].suite == suite
    ensures DistinctAcross(before + here)
  {
    var all := before + here;
    forall i, j | 0 <= i < j < |all| ensures (all[i].suite, IdentityOf(all[i])) != (all[j].suite, IdentityOf(all[j])) {
      if i < |before| <= j {
        assert all[i] in before;
      }
    }
  }

  /** `evaluate_release`. */
  method EvaluateRelease(suites: seq<Suite>, inputs: seq<Input>, judge: (Trial, Lane) -> Option<Call>)
    returns (r: Result<Report, Refusal>)
    requires ManifestValid(suites)
    ensures r.Ok? <==> inputs != [] && InputsMatch(suites, inputs)
    ensures r.Ok? ==> ReportOf(r.value, judge, AllTrials(inputs))
  {
    if inputs == [] { return Err(NoInputs); }
    var counted := ValidateInputs(suites, inputs);
    if counted.Err? { return Err(counted.error); }
    var trials := AllTrials(inputs);
    MatchedTrialsDistinct(suites, inputs, |inputs|);
    assert inputs[..|inputs|] == inputs;
    if exists i, j :: 0 <= i < j < |trials|
        && (trials[i].suite, IdentityOf(trials[i])) == (trials[j].suite, IdentityOf(trials[j])) {
      return Err(DuplicateIdentity);
    }
    var report := Aggregate(judge, trials);
    r := Ok(report);
  }

  /** A passing report covers the manifest: for every pinned suite, scenario and trial number there is a judged
      trial of that identity and domain, and in each lane the judge alone put it at 92 points or more, above every
      floor, and without defects. */
  lemma PassCoversManifest(suites: seq<Suite>, inputs: seq<Input>, judge: (Trial, Lane) -> Option<Call>, r: Report,
                           i: nat, j: nat, number: int)
    returns (t: Trial)
    requires InputsMatch(suites, inputs) && ReportOf(r, judge, AllTrials(inputs)) && r.passed
    requires i < |suites| && j < |suites[i].scenarios| && 1 <= number <= suites[i].scenarios[j].repetitions
    ensures t in AllTrials(inputs) && t.suite == suites[i].id && IdentityOf(t) == (suites[i].scenarios[j].id, number)
    ensures t.domain == suites[i].scenarios[j].domain
    ensures forall lane :: judge(t, lane).Some? && Clean(judge(t, lane).value)
              && Weighted(judge(t, lane).value.scores) >= PASS_THRESHOLD && AboveFloors(judge(t, lane).value.scores)
  {
    t := SuppliedTrial(suites, inputs, i, j, number);
    var p :| 0 <= p < |AllTrials(inputs)| && AllTrials(inputs)[p] == t;
    forall lane ensures judge(t, lane).Some? && Clean(judge(t, lane).value)
              && Weighted(judge(t, lane).value.scores) >= PASS_THRESHOLD && AboveFloors(judge(t, lane).value.scores)
    {
      PassNeedsEachLane(judge, t, lane);
    }
  }

  /** Matching inputs hold a trial for every repetition of every scenario. */
  lemma SuppliedTrial(suites: seq<Suite>, inputs: seq<Input>, i: nat, j: nat, number: int) returns (t: Trial)
    requires InputsMatch(suites, inputs)
    requires i < |suites| && j < |suites[i].scenarios| && 1 <= number <= suites[i].scenarios[j].repetitions
    ensures t in AllTrials(inputs) && t.suite == suites[i].id && IdentityOf(t) == (suites[i].scenarios[j].id, number)
    ensures t.domain == suites[i].scenarios[j].domain
  {
    var id := (suites[i].scenarios[j].id, number);
    assert Named(suites, suites[i].id);
    var k :| 0 <= k < |inputs| && inputs[k].suite == suites[i].id;
    assert SuiteMatches(suites[i], inputs[k]);
    assert Expected(suites[i].scenarios, id);
    var m :| 0 <= m < |inputs[k].trials| && IdentityOf(inputs[k].trials[m]) == id;
    t := inputs[k].trials[m];
    TrialsOfInputs(inputs);
  }
}
