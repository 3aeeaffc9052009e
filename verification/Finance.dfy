/** The capped finance score (scripts/validate_real_finance_eval.py:121-128, 163-364) in exact arithmetic. */
module Finance {
  import opened Prelude
  import opened Json
  import Summaries
  import Delegation
  import Lifecycle
  import Agreement

  datatype Metric = Metric(id: string, expected: real, tolerance: real, points: int, critical: bool,
      evidence: set<string>)
  datatype Requirement = Requirement(id: string, expected: Json, points: int, hardCap: real)
  datatype Golden = Golden(inputs: Inputs, metrics: seq<Metric>, conclusions: seq<Requirement>, allowed: set<string>,
                           minimum: real, packet: string)

  /** The figures of the quarter and of the fiscal year before it, with those of a year earlier. */
  datatype Inputs = Inputs(q1: Quarter, fy: Year)
  datatype Quarter = Quarter(
    revenue: real, priorRevenue: real, gaap: real, priorGaap: real, nonGaap: real, priorNonGaap: real,
    netIncome: real, cfo: real, priorCfo: real, capex: real, priorCapex: real,
    currentAssets: real, currentLiabilities: real, cash: real, securities: real, receivables: real, debt: real,
    interest: real, workingCapital: seq<real>, addbacks: seq<real>)
  datatype Year = Year(
    cfo: real, priorCfo: real, capex: real, priorCapex: real, netIncome: real, priorNetIncome: real,
    currentLiabilities: real, cash: real, securities: real, receivables: real, debt: real)

  /** A metric entry of a run; a value or list of the wrong type is none. */
  datatype Entry = NotAnObject | Entry(value: Option<real>, evidence: Option<set<string>>)

  datatype Child = NoChild
                 | Child(role: Option<string>, batch: Option<string>, dispatch: Option<int>, terminal: Option<string>,
                     completed: bool,
                                   started: Option<real>, finished: Option<real>, evidence: Option<seq<string>>,
                                   artifact: string, readOnly: bool)

  datatype Run = Run(id: Option<string>, metrics: Option<map<string, Entry>>, conclusions: map<string, Json>,
      children: Option<seq<Child>>,
                     completed: bool, answerHash: bool)

  datatype Failure = MetricsNotAnObject | MetricWrong(id: string) | MetricUngrounded(id: string)
                   | MetricUnapproved(id: string)
                   | ConclusionFailed(id: string) | NotCompleted | NoAnswerHash | Delegation(failure: DelegationFailure)
  datatype DelegationFailure = NotThreeChildren | Roles | Batch | Dispatch | Terminals | ChildIncomplete | ChildTiming
                             | ChildEvidence
                             | ChildUnapproved | ChildArtifact | ChildSideEffects | NoOverlap

  datatype Evaluation = Evaluation(raw: real, cap: real, score: real, passed: bool, failures: seq<Failure>)

  // ---- The fixture ------------------------------------------------------------------------------

  function MetricPoints(metrics: seq<Metric>): int {
    if metrics == [] then 0 else MetricPoints(metrics[..|metrics| - 1]) + metrics[|metrics| - 1].points
  }

  function ConclusionPoints(conclusions: seq<Requirement>): int {
    if conclusions == [] then 0
        else ConclusionPoints(conclusions[..|conclusions| - 1]) + conclusions[|conclusions| - 1].points
  }

  function Sum(s: seq<real>): real {
    if s == [] then 0.0 else Sum(s[..|s| - 1]) + s[|s| - 1]
  }

  function QuarterFcf(q: Quarter): real { q.cfo - q.capex }
  function YearFcf(y: Year): real { y.cfo - y.capex }
  function QuarterLiquid(q: Quarter): real { q.cash + q.securities + q.receivables }
  function YearLiquid(y: Year): real { y.cash + y.securities + y.receivables }
  function QuarterNetCash(q: Quarter): real { q.cash + q.securities - q.debt }

  /** No formula divides by zero. */
  predicate Divisible(i: Inputs) {
    var q, y := i.q1, i.fy;
    && q.revenue != 0.0 && q.priorRevenue != 0.0 && q.gaap != 0.0 && q.priorCfo - q.priorCapex != 0.0
    && q.netIncome != 0.0 && q.cfo - q.netIncome != 0.0 && q.currentLiabilities != 0.0 && q.interest != 0.0
    && y.priorCfo - y.priorCapex != 0.0 && y.netIncome != 0.0 && y.priorNetIncome != 0.0
    && y.currentLiabilities != 0.0
  }

  /** `_golden_calculations`: the figures without a ratio, and those with one. */
  function Amount(i: Inputs, id: string): Option<real> {
    var q, y := i.q1, i.fy;
    if id == "q1_fcf_usd_m" then Some(QuarterFcf(q))
    else if id == "fy25_fcf_usd_m" then Some(YearFcf(y))
    else if id == "q1_non_gaap_addbacks_usd_m" then Some(Sum(q.addbacks))
    else if id == "q1_disclosed_working_capital_cash_benefit_usd_m" then Some(Sum(q.workingCapital))
    else if id == "q1_net_cash_including_marketable_usd_m" then Some(QuarterNetCash(q))
    else if id == "q1_cash_only_minus_debt_usd_m" then Some(q.cash - q.debt)
    else if id == "mechanical_q1_annualized_fcf_usd_m" then Some(QuarterFcf(q) * 4.0)
    else if id == "q1_net_cash_increase_from_fy25_usd_m" then
      Some(QuarterNetCash(q) - (y.cash + y.securities - y.debt))
    else None
  }

  function MarginRatio(q: Quarter, id: string): Option<real>
    requires q.revenue != 0.0 && q.priorRevenue != 0.0 && q.gaap != 0.0
  {
    if id == "q1_revenue_growth_pct" then Some((q.revenue / q.priorRevenue - 1.0) * 100.0)
    else if id == "q1_gaap_operating_margin_pct" then Some(q.gaap / q.revenue * 100.0)
    else if id == "q1_prior_gaap_operating_margin_pct" then Some(q.priorGaap / q.priorRevenue * 100.0)
    else if id == "q1_gaap_margin_expansion_bps" then
      Some((q.gaap / q.revenue - q.priorGaap / q.priorRevenue) * 10000.0)
    else if id == "q1_non_gaap_operating_margin_pct" then Some(q.nonGaap / q.revenue * 100.0)
    else if id == "q1_non_gaap_margin_expansion_bps" then
      Some((q.nonGaap / q.revenue - q.priorNonGaap / q.priorRevenue) * 10000.0)
    else if id == "q1_addbacks_pct_gaap_operating_income" then Some(Sum(q.addbacks) / q.gaap * 100.0)
    else None
  }

  function CashRatio(i: Inputs, id: string): Option<real>
    requires Divisible(i)
  {
    var q, y := i.q1, i.fy;
    if id == "q1_fcf_growth_pct" then Some((QuarterFcf(q) / (q.priorCfo - q.priorCapex) - 1.0) * 100.0)
    else if id == "q1_cfo_to_net_income_x" then Some(q.cfo / q.netIncome)
    else if id == "q1_working_capital_share_of_cfo_net_income_gap_pct" then
      Some(Sum(q.workingCapital) / (q.cfo - q.netIncome) * 100.0)
    else if id == "q1_current_ratio_x" then Some(q.currentAssets / q.currentLiabilities)
    else if id == "q1_quick_ratio_x" then Some(QuarterLiquid(q) / q.currentLiabilities)
    else if id == "q1_interest_coverage_x" then Some(q.gaap / q.interest)
    else if id == "fy25_fcf_growth_pct" then Some((YearFcf(y) / (y.priorCfo - y.priorCapex) - 1.0) * 100.0)
    else if id == "fy25_cfo_to_net_income_x" then Some(y.cfo / y.netIncome)
    else if id == "fy24_cfo_to_net_income_x" then Some(y.priorCfo / y.priorNetIncome)
    else if id == "q1_quick_ratio_change_from_fy25_x" then
      Some(QuarterLiquid(q) / q.currentLiabilities - YearLiquid(y) / y.currentLiabilities)
    else None
  }

  function Calculated(i: Inputs, id: string): Option<real>
    requires Divisible(i)
  {
    if Amount(i, id).Some? then Amount(i, id)
    else if MarginRatio(i.q1, id).Some? then MarginRatio(i.q1, id)
    else CashRatio(i, id)
  }

  /** A metric has an independent formula, and its expected value is close to the calculated one. */
  predicate MetricChecked(i: Inputs, m: Metric)
    requires Divisible(i)
  {
    var near := if m.tolerance / 10.0 >= 0.000000001 then m.tolerance / 10.0 else 0.000000001;
    && Calculated(i, m.id).Some?
    && m.expected - near <= Calculated(i, m.id).value <= m.expected + near
  }

  ghost predicate PointsSum(g: Golden) {
    g.metrics != [] && MetricPoints(g.metrics) == 50 && ConclusionPoints(g.conclusions) == 25
  }

  /** `validate_fixture`, the source packet aside. It looks at the sums of the points only. */
  ghost predicate FixtureAccepted(g: Golden) {
    && PointsSum(g) && Divisible(g.inputs)
    && forall k :: 0 <= k < |g.metrics| ==> MetricChecked(g.inputs, g.metrics[k])
  }

  /** Each metric and each conclusion is worth something. */
  ghost predicate PositivePoints(g: Golden) {
    && PointsSum(g)
    && (forall k :: 0 <= k < |g.metrics| ==> g.metrics[k].points > 0)
    && (forall k :: 0 <= k < |g.conclusions| ==> g.conclusions[k].points > 0)
  }

  // ---- Reading a run ----------------------------------------------------------------------------

  /** `_metric_receipt`. */
  function Receipt(entry: Option<Entry>): (Option<real>, set<string>) {
    if entry.None? || entry.value.NotAnObject? || entry.value.value.None? then (None, {})
    else if entry.value.evidence.None? then (entry.value.value, {})
    else (entry.value.value, entry.value.evidence.value)
  }

  function EntryOf(run: Run, id: string): Option<Entry> {
    if run.metrics.Some? && id in run.metrics.value then Some(run.metrics.value[id]) else None
  }

  predicate Correct(run: Run, m: Metric) {
    var value := Receipt(EntryOf(run, m.id)).0;
    value.Some? && m.expected - m.tolerance <= value.value <= m.expected + m.tolerance
  }

  predicate Grounded(run: Run, m: Metric) { Receipt(EntryOf(run, m.id)).1 * m.evidence != {} }

  predicate Unapproved(run: Run, m: Metric, allowed: set<string>) { !(Receipt(EntryOf(run, m.id)).1 <= allowed) }

  predicate Concluded(run: Run, r: Requirement) { Summaries.Get(run.conclusions, r.id) == r.expected }

  // ---- The score as a function of the run -------------------------------------------------------

  function Least(a: real, b: real): real { if a <= b then a else b }

  function EarnedMetrics(run: Run, metrics: seq<Metric>): int {
    if metrics == [] then 0
    else
      var last := metrics[|metrics| - 1];
      EarnedMetrics(run, metrics[..|metrics| - 1]) + if Correct(run, last) then last.points else 0
  }

  function Ungrounded(run: Run, metrics: seq<Metric>): nat {
    if metrics == [] then 0
    else Ungrounded(run, metrics[..|metrics| - 1]) + if Grounded(run, metrics[|metrics| - 1]) then 0 else 1
  }

  function EarnedConclusions(run: Run, conclusions: seq<Requirement>): int {
    if conclusions == [] then 0
    else
      var last := conclusions[|conclusions| - 1];
      EarnedConclusions(run, conclusions[..|conclusions| - 1]) + if Concluded(run, last) then last.points else 0
  }

  /** Ten points, less a share for each ungrounded metric. */
  function Citations(run: Run, metrics: seq<Metric>, count: nat): real
    requires count > 0
  {
    10.0 - Ungrounded(run, metrics) as real * (10.0 / count as real)
  }

  function MetricCap(run: Run, metrics: seq<Metric>, allowed: set<string>): real {
    if metrics == [] then 100.0
    else
      var last, cap := metrics[|metrics| - 1], MetricCap(run, metrics[..|metrics| - 1], allowed);
      var afterValue := if !Correct(run, last) && last.critical then Least(cap, 75.0) else cap;
      if Unapproved(run, last, allowed) then Least(afterValue, 70.0) else afterValue
  }

  function ConclusionCap(run: Run, conclusions: seq<Requirement>, cap: real): real {
    if conclusions == [] then cap
    else
      var last := conclusions[|conclusions| - 1];
      var earlier := ConclusionCap(run, conclusions[..|conclusions| - 1], cap);
      if Concluded(run, last) then earlier else Least(earlier, last.hardCap)
  }

  ghost function RawScore(run: Run, g: Golden): real
    requires g.metrics != []
  {
    EarnedMetrics(run, g.metrics) as real + EarnedConclusions(run, g.conclusions) as real
      + (if Citations(run, g.metrics, |g.metrics|) >= 0.0 then Citations(run, g.metrics, |g.metrics|) else 0.0)
      + (if Delegated(run, g) then 10.0 else 0.0) + (if run.completed && run.answerHash then 5.0 else 0.0)
  }

  ghost function Cap(run: Run, g: Golden): real {
    var cap := ConclusionCap(run, g.conclusions, MetricCap(run, g.metrics, g.allowed));
    var afterChildren := if Delegated(run, g) then cap else Least(cap, 85.0);
    var afterStatus := if run.completed then afterChildren else 0.0;
    if run.answerHash then afterStatus else Least(afterStatus, 90.0)
  }

  ghost function Score(run: Run, g: Golden): real
    requires g.metrics != []
  {
    Least(RawScore(run, g), Cap(run, g))
  }

  // ---- Delegation -------------------------------------------------------------------------------

  const REQUIRED_ROLES: set<Option<string>> :=
    {Some("gaap_filing_analyst"), Some("non_gaap_reconciliation_analyst"), Some("skeptical_credit_reviewer")}

  function Roles(children: seq<Child>): set<Option<string>> {
    set k | 0 <= k < |children| && children[k].Child? :: children[k].role
  }
  function Batches(children: seq<Child>): set<Option<string>> {
    set k | 0 <= k < |children| && children[k].Child? :: children[k].batch
  }
  function Dispatches(children: seq<Child>): set<Option<int>> {
    set k | 0 <= k < |children| && children[k].Child? :: children[k].dispatch
  }
  function Terminals(children: seq<Child>): set<Option<string>> {
    set k | 0 <= k < |children| && children[k].Child? :: children[k].terminal
  }

  predicate Timed(c: Child) {
    c.Child? && c.completed && c.started.Some? && c.finished.Some? && c.started.value < c.finished.value
  }

  predicate ChildSound(c: Child, g: Golden) {
    && Timed(c)
    && c.evidence.Some? && c.evidence.value != [] && (forall e :: e in c.evidence.value ==> e in g.allowed)
    && c.artifact == g.packet && c.readOnly
  }

  predicate SetsSound(children: seq<Child>) {
    && Roles(children) == REQUIRED_ROLES
    && |Batches(children)| == 1 && None !in Batches(children) && Some("") !in Batches(children)
    && Dispatches(children) == {Some(0), Some(1), Some(2)}
    && |Terminals(children)| == 3 && None !in Terminals(children) && Some("") !in Terminals(children)
  }

  /** Said child by child: the roles are the required ones, all share one named batch, the dispatch indexes are 0, 1 and
      2 in some order, and the terminal receipts are named and different. */
  lemma SetsSoundExact(a: Child, b: Child, c: Child)
    requires a.Child? && b.Child? && c.Child?
    ensures SetsSound([a, b, c]) <==>
              && {a.role, b.role, c.role} == REQUIRED_ROLES
              && a.batch == b.batch == c.batch && a.batch !in {None, Some("")}
              && {a.dispatch, b.dispatch, c.dispatch} == {Some(0), Some(1), Some(2)}
              && a.terminal !in {None, Some("")} && b.terminal !in {None, Some("")} && c.terminal !in {None, Some("")}
              && a.terminal != b.terminal && a.terminal != c.terminal && b.terminal != c.terminal
  {
    ListsOfThree(a, b, c);
    TripleSize(a.batch, b.batch, c.batch);
    TripleSize(a.terminal, b.terminal, c.terminal);
  }

  lemma ListsOfThree(a: Child, b: Child, c: Child)
    requires a.Child? && b.Child? && c.Child?
    ensures Roles([a, b, c]) == {a.role, b.role, c.role} && Batches([a, b, c]) == {a.batch, b.batch, c.batch}
    ensures Dispatches([a, b, c]) == {a.dispatch, b.dispatch, c.dispatch}
    ensures Terminals([a, b, c]) == {a.terminal, b.terminal, c.terminal}
  {
    var s := [a, b, c];
    assert s[0] == a && s[1] == b && s[2] == c;
  }

  lemma TripleSize<T>(a: T, b: T, c: T)
    ensures |{a, b, c}| == 1 <==> a == b == c
    ensures |{a, b, c}| == 3 <==> a != b && a != c && b != c
  {
    if a == b { assert {a, b, c} == {a, c}; }
    if a == c { assert {a, b, c} == {a, b}; }
    if b == c { assert {a, b, c} == {a, b}; }
  }

  function Begin(c: Child): real { if Timed(c) then c.started.value else 0.0 }
  function End(c: Child): real { if Timed(c) then c.finished.value else 0.0 }

  /** Every start before every finish: one moment at which all were running. */
  ghost predicate Concurrent(children: seq<Child>) {
    forall i, j :: 0 <= i < |children| && 0 <= j < |children| ==> Begin(children[i]) < End(children[j])
  }

  /** Three sound children that ran at once. */
  ghost predicate ChildrenSound(children: seq<Child>, g: Golden) {
    && |children| == 3 && SetsSound(children)
    && (forall k :: 0 <= k < 3 ==> ChildSound(children[k], g))
    && Concurrent(children)
  }

  ghost predicate Delegated(run: Run, g: Golden) {
    run.children.Some? && ChildrenSound(run.children.value, g)
  }

  method CheckSets(children: seq<Child>) returns (failures: seq<DelegationFailure>)
    ensures failures == [] <==> SetsSound(children)
  {
    failures := [];
    if Roles(children) != REQUIRED_ROLES { failures := failures + [DelegationFailure.Roles]; }
    var batches := Batches(children);
    if |batches| != 1 || None in batches || Some("") in batches { failures := failures + [Batch]; }
    if Dispatches(children) != {Some(0), Some(1), Some(2)} { failures := failures + [Dispatch]; }
    var terminals := Terminals(children);
    if |terminals| != 3 || None in terminals || Some("") in terminals {
      failures := failures + [DelegationFailure.Terminals];
    }
  }

  method CheckChild(c: Child, g: Golden) returns (interval: Option<(real, real)>, failures: seq<DelegationFailure>)
    ensures failures == [] <==> ChildSound(c, g)
    ensures interval == if Timed(c) then Some((Begin(c), End(c))) else None
  {
    interval, failures := None, [];
    if c.NoChild? || !c.completed { return None, [ChildIncomplete]; }
    if c.started.None? || c.finished.None? || c.finished.value <= c.started.value { return None, [ChildTiming]; }
    interval := Some((c.started.value, c.finished.value));
    if c.evidence.None? || c.evidence.value == [] {
      failures := failures + [ChildEvidence];
    } else if exists e :: e in c.evidence.value && e !in g.allowed {
      failures := failures + [ChildUnapproved];
    }
    if c.artifact != g.packet { failures := failures + [ChildArtifact]; }
    if !c.readOnly { failures := failures + [ChildSideEffects]; }
  }

  /** `max` of the starts against `min` of the finishes. */
  method Overlapping(intervals: seq<(real, real)>) returns (ok: bool)
    requires intervals != []
    ensures ok <==> forall i, j :: 0 <= i < |intervals| && 0 <= j < |intervals| ==> intervals[i].0 < intervals[j].1
  {
    var latest, earliest, k := intervals[0].0, intervals[0].1, 1;
    while k < |intervals|
      invariant 1 <= k <= |intervals|
      invariant forall i :: 0 <= i < k ==> intervals[i].0 <= latest && earliest <= intervals[i].1
      invariant (exists i :: 0 <= i < k && intervals[i].0 == latest)
                  && exists j :: 0 <= j < k && intervals[j].1 == earliest
    {
      if intervals[k].0 > latest { latest := intervals[k].0; }
      if intervals[k].1 < earliest { earliest := intervals[k].1; }
      k := k + 1;
    }
    ok := latest < earliest;
  }

  /** The child loop: intervals of the timed children, and whether all were sound. */
  method CheckChildren(children: seq<Child>, g: Golden)
    returns (intervals: seq<(real, real)>, failures: seq<DelegationFailure>)
    ensures failures == [] <==> forall k :: 0 <= k < |children| ==> ChildSound(children[k], g)
    ensures failures == [] ==> |intervals| == |children|
    ensures failures == [] ==> forall k :: 0 <= k < |children| ==>
              intervals[k] == (Begin(children[k]), End(children[k]))
  {
    intervals, failures := [], [];
    var i := 0;
    while i < |children|
      invariant 0 <= i <= |children|
      invariant failures == [] <==> forall k :: 0 <= k < i ==> ChildSound(children[k], g)
      invariant failures == [] ==> |intervals| == i
      invariant failures == [] ==> forall k :: 0 <= k < i ==> intervals[k] == (Begin(children[k]), End(children[k]))
    {
      var interval, fs := CheckChild(children[i], g);
      if interval.Some? { intervals := intervals + [interval.value]; }
      failures := failures + fs;
      i := i + 1;
    }
  }

  /** `_delegation_score`. */
  method DelegationScore(children: Option<seq<Child>>, g: Golden)
    returns (score: real, failures: seq<DelegationFailure>)
    ensures failures == [] <==> children.Some? && ChildrenSound(children.value, g)
    ensures score == if failures == [] then 10.0 else 0.0
  {
    if children.None? || |children.value| != 3 { return 0.0, [NotThreeChildren]; }
    var sets := CheckSets(children.value);
    var intervals, each := CheckChildren(children.value, g);
    failures := sets + each;
    if |intervals| == 3 {
      var ok := Overlapping(intervals);
      if each == [] { SameOverlap(children.value, intervals); }
      if !ok { failures := failures + [NoOverlap]; }
    }
    score := if failures == [] then 10.0 else 0.0;
  }

  lemma SameOverlap(children: seq<Child>, intervals: seq<(real, real)>)
    requires |intervals| == |children|
    requires forall k :: 0 <= k < |children| ==> intervals[k] == (Begin(children[k]), End(children[k]))
    ensures Concurrent(children) <==>
              forall i, j :: 0 <= i < |intervals| && 0 <= j < |intervals| ==> intervals[i].0 < intervals[j].1
  {
    if forall i, j :: 0 <= i < |intervals| && 0 <= j < |intervals| ==> intervals[i].0 < intervals[j].1 {
      forall i, j | 0 <= i < |children| && 0 <= j < |children| ensures Begin(children[i]) < End(children[j]) {
        assert intervals[i].0 < intervals[j].1;
      }
    }
  }

  // ---- The evaluation ---------------------------------------------------------------------------

  /** Nothing wrong with the run. */
  ghost predicate Flawless(run: Run, g: Golden) {
    && run.metrics.Some?
    && (forall k :: 0 <= k < |g.metrics| ==> MetricFlawless(run, g.metrics[k], g.allowed))
    && (forall k :: 0 <= k < |g.conclusions| ==> Concluded(run, g.conclusions[k]))
    && Delegated(run, g) && run.completed && run.answerHash
  }

  predicate MetricFlawless(run: Run, m: Metric, allowed: set<string>) {
    Correct(run, m) && Grounded(run, m) && !Unapproved(run, m, allowed)
  }

  /** The metric loop. */
  method ScoreMetrics(run: Run, g: Golden) returns (earned: real, citations: real, cap: real, failures: seq<Failure>)
    requires g.metrics != []
    ensures earned == EarnedMetrics(run, g.metrics) as real
    ensures citations == Citations(run, g.metrics, |g.metrics|)
    ensures cap == MetricCap(run, g.metrics, g.allowed)
    ensures failures == [] <==> forall k :: 0 <= k < |g.metrics| ==> MetricFlawless(run, g.metrics[k], g.allowed)
  {
    earned, citations, cap, failures := 0.0, 10.0, 100.0, [];
    var i, n := 0, |g.metrics|;
    while i < n
      invariant 0 <= i <= n
      invariant earned == EarnedMetrics(run, g.metrics[..i]) as real
      invariant citations == Citations(run, g.metrics[..i], n)
      invariant cap == MetricCap(run, g.metrics[..i], g.allowed)
      invariant failures == [] <==> forall k :: 0 <= k < i ==> MetricFlawless(run, g.metrics[k], g.allowed)
    {
      assert g.metrics[..i + 1][..i] == g.metrics[..i];
      var m := g.metrics[i];
      if Correct(run, m) {
        earned := earned + m.points as real;
      } else {
        failures := failures + [MetricWrong(m.id)];
        if m.critical { cap := Least(cap, 75.0); }
      }
      if !Grounded(run, m) {
        OneShareLess(Ungrounded(run, g.metrics[..i]), 10.0 / n as real);
        citations := citations - 10.0 / n as real;
        failures := failures + [MetricUngrounded(m.id)];
      }
      if Unapproved(run, m, g.allowed) {
        cap := Least(cap, 70.0);
        failures := failures + [MetricUnapproved(m.id)];
      }
      i := i + 1;
    }
    assert g.metrics[..i] == g.metrics;
  }

  lemma OneShareLess(n: nat, share: real)
    ensures (n + 1) as real * share == n as real * share + share
  {
  }

  /** The conclusion loop. */
  method ScoreConclusions(run: Run, g: Golden, before: real) returns (earned: real, cap: real, failures: seq<Failure>)
    ensures earned == EarnedConclusions(run, g.conclusions) as real
    ensures cap == ConclusionCap(run, g.conclusions, before)
    ensures failures == [] <==> forall k :: 0 <= k < |g.conclusions| ==> Concluded(run, g.conclusions[k])
  {
    earned, cap, failures := 0.0, before, [];
    var i := 0;
    while i < |g.conclusions|
      invariant 0 <= i <= |g.conclusions|
      invariant earned == EarnedConclusions(run, g.conclusions[..i]) as real
      invariant cap == ConclusionCap(run, g.conclusions[..i], before)
      invariant failures == [] <==> forall k :: 0 <= k < i ==> Concluded(run, g.conclusions[k])
    {
      assert g.conclusions[..i + 1][..i] == g.conclusions[..i];
      var r := g.conclusions[i];
      if Concluded(run, r) {
        earned := earned + r.points as real;
      } else {
        cap := Least(cap, r.hardCap);
        failures := failures + [ConclusionFailed(r.id)];
      }
      i := i + 1;
    }
    assert g.conclusions[..i] == g.conclusions;
  }

  /** `evaluate_run`, of a run that is an object. */
  method EvaluateRun(run: Run, g: Golden) returns (e: Evaluation)
    requires g.metrics != []
    ensures e.raw == RawScore(run, g) && e.cap == Cap(run, g) && e.score == Score(run, g)
    ensures e.failures == [] <==> Flawless(run, g)
    ensures e.passed <==> e.score >= g.minimum
  {
    var failures := if run.metrics.None? then [MetricsNotAnObject] else [];
    var metricScore, citations, cap, metricFailures := ScoreMetrics(run, g);
    var conclusionScore, capNow, conclusionFailures := ScoreConclusions(run, g, cap);
    cap := capNow;
    failures := failures + metricFailures + conclusionFailures;
    var delegationScore, delegationFailures := DelegationScore(run.children, g);
    var delegation :=
        seq(|delegationFailures|, k requires 0 <= k < |delegationFailures| => Delegation(delegationFailures[k]));
    failures := failures + delegation;
    if delegationFailures != [] { cap := Least(cap, 85.0); }
    var trace := 5.0;
    if !run.completed {
      trace, cap := 0.0, 0.0;
      failures := failures + [NotCompleted];
    }
    if !run.answerHash {
      trace, cap := 0.0, Least(cap, 90.0);
      failures := failures + [NoAnswerHash];
    }
    var raw := metricScore + conclusionScore + (if citations >= 0.0 then citations else 0.0) + delegationScore + trace;
    var score := Least(raw, cap);
    e := Evaluation(raw, cap, score, score >= g.minimum, failures);
  }

  // ---- What the score says ----------------------------------------------------------------------

  /** The entry of a metric has a value within the tolerance, and evidence that is all approved and some of it asked
      for. */
  ghost predicate Supports(entry: Entry, m: Metric, allowed: set<string>) {
    && entry.Entry? && entry.value.Some? && entry.evidence.Some?
    && (if entry.value.value >= m.expected then entry.value.value - m.expected else m.expected - entry.value.value)
         <= m.tolerance
    && (exists e :: e in entry.evidence.value && e in m.evidence)
    && forall e :: e in entry.evidence.value ==> e in allowed
  }

  /** What a run without failures holds: a supporting entry for each metric, each conclusion as expected, three sound
      children, a completed status and an answer hash. */
  lemma FlawlessExact(run: Run, g: Golden)
    ensures Flawless(run, g) <==>
              && run.metrics.Some?
              && (forall k :: 0 <= k < |g.metrics| ==>
                   var m := g.metrics[k];
                   m.id in run.metrics.value && Supports(run.metrics.value[m.id], m, g.allowed))
              && (forall k :: 0 <= k < |g.conclusions| ==>
                   var r := g.conclusions[k];
                   if r.id in run.conclusions then run.conclusions[r.id] == r.expected else r.expected == Json.Null)
              && run.children.Some? && ChildrenSound(run.children.value, g) && run.completed && run.answerHash
  {
    if run.metrics.Some? {
      forall k | 0 <= k < |g.metrics|
        ensures MetricFlawless(run, g.metrics[k], g.allowed) <==>
                  && g.metrics[k].id in run.metrics.value
                  && Supports(run.metrics.value[g.metrics[k].id], g.metrics[k], g.allowed)
      {
        MetricSupported(run, g.metrics[k], g.allowed);
      }
    }
  }

  lemma MetricSupported(run: Run, m: Metric, allowed: set<string>)
    requires run.metrics.Some?
    ensures MetricFlawless(run, m, allowed) <==>
              m.id in run.metrics.value && Supports(run.metrics.value[m.id], m, allowed)
  {
    if m.id in run.metrics.value {
      var entry := run.metrics.value[m.id];
      var evidence := Receipt(Some(entry)).1;
      assert evidence * m.evidence != {} <==> exists e :: e in evidence && e in m.evidence by {
        if e :| e in evidence && e in m.evidence { assert e in evidence * m.evidence; }
      }
    }
  }

  lemma {:induction false} MetricsEarned(run: Run, metrics: seq<Metric>)
    requires forall k :: 0 <= k < |metrics| ==> metrics[k].points > 0
    ensures 0 <= EarnedMetrics(run, metrics) <= MetricPoints(metrics)
    ensures EarnedMetrics(run, metrics) == MetricPoints(metrics) <==>
              forall k :: 0 <= k < |metrics| ==> Correct(run, metrics[k])
  {
    if metrics != [] { MetricsEarned(run, metrics[..|metrics| - 1]); }
  }

  lemma {:induction false} ConclusionsEarned(run: Run, conclusions: seq<Requirement>)
    requires forall k :: 0 <= k < |conclusions| ==> conclusions[k].points > 0
    ensures 0 <= EarnedConclusions(run, conclusions) <= ConclusionPoints(conclusions)
    ensures EarnedConclusions(run, conclusions) == ConclusionPoints(conclusions) <==>
              forall k :: 0 <= k < |conclusions| ==> Concluded(run, conclusions[k])
  {
    if conclusions != [] { ConclusionsEarned(run, conclusions[..|conclusions| - 1]); }
  }

  lemma {:induction false} UngroundedCount(run: Run, metrics: seq<Metric>)
    ensures Ungrounded(run, metrics) <= |metrics|
    ensures Ungrounded(run, metrics) == 0 <==> forall k :: 0 <= k < |metrics| ==> Grounded(run, metrics[k])
  {
    if metrics != [] { UngroundedCount(run, metrics[..|metrics| - 1]); }
  }

  lemma SharesOfTen(u: nat, n: nat)
    requires n > 0 && u <= n
    ensures 0.0 <= 10.0 - u as real * (10.0 / n as real) <= 10.0
    ensures 10.0 - u as real * (10.0 / n as real) == 10.0 <==> u == 0
  {
    var share := 10.0 / n as real;
    assert n as real * share == 10.0 && share > 0.0;
    assert u as real * share <= n as real * share;
    if u > 0 { assert u as real * share >= share; }
  }

  /** The citation score never goes below zero: its clamp is idle. */
  lemma CitationRange(run: Run, metrics: seq<Metric>)
    requires metrics != []
    ensures 0.0 <= Citations(run, metrics, |metrics|) <= 10.0
    ensures Citations(run, metrics, |metrics|) == 10.0 <==> forall k :: 0 <= k < |metrics| ==> Grounded(run, metrics[k])
  {
    UngroundedCount(run, metrics);
    SharesOfTen(Ungrounded(run, metrics), |metrics|);
  }

  lemma {:induction false} MetricCapMeans(run: Run, metrics: seq<Metric>, allowed: set<string>)
    ensures MetricCap(run, metrics, allowed) in {100.0, 75.0, 70.0}
    ensures MetricCap(run, metrics, allowed) == 70.0 <==>
              exists k :: 0 <= k < |metrics| && Unapproved(run, metrics[k], allowed)
    ensures MetricCap(run, metrics, allowed) == 100.0 <==>
              forall k :: 0 <= k < |metrics| ==>
                  !Unapproved(run, metrics[k], allowed) && (Correct(run, metrics[k]) || !metrics[k].critical)
  {
    if metrics != [] { MetricCapMeans(run, metrics[..|metrics| - 1], allowed); }
  }

  lemma {:induction false} ConclusionCapMeans(run: Run, conclusions: seq<Requirement>, cap: real)
    ensures ConclusionCap(run, conclusions, cap) <= cap
    ensures forall k :: 0 <= k < |conclusions| && !Concluded(run, conclusions[k]) ==>
              ConclusionCap(run, conclusions, cap) <= conclusions[k].hardCap
    ensures ConclusionCap(run, conclusions, cap) == cap
         || exists k :: 0 <= k < |conclusions| && !Concluded(run, conclusions[k])
             && ConclusionCap(run, conclusions, cap) == conclusions[k].hardCap
    ensures (forall k :: 0 <= k < |conclusions| ==> Concluded(run, conclusions[k])) ==>
              ConclusionCap(run, conclusions, cap) == cap
  {
    if conclusions != [] { ConclusionCapMeans(run, conclusions[..|conclusions| - 1], cap); }
  }

  /** The uncapped score lies between 0 and 100, and reaches 100 only without any lost point. */
  lemma RawRange(run: Run, g: Golden)
    requires PositivePoints(g)
    ensures 0.0 <= RawScore(run, g) <= 100.0
    ensures RawScore(run, g) == 100.0 <==>
              && (forall k :: 0 <= k < |g.metrics| ==> Correct(run, g.metrics[k]) && Grounded(run, g.metrics[k]))
              && (forall k :: 0 <= k < |g.conclusions| ==> Concluded(run, g.conclusions[k]))
              && Delegated(run, g) && run.completed && run.answerHash
  {
    MetricsEarned(run, g.metrics);
    ConclusionsEarned(run, g.conclusions);
    CitationRange(run, g.metrics);
  }

  /** A score never exceeds 100, and is 100 exactly for a run without failures. */
  lemma FullScoreExact(run: Run, g: Golden)
    requires PositivePoints(g)
    ensures Score(run, g) <= 100.0
    ensures Score(run, g) == 100.0 <==> Flawless(run, g)
  {
    RawRange(run, g);
    MetricCapMeans(run, g.metrics, g.allowed);
    ConclusionCapMeans(run, g.conclusions, MetricCap(run, g.metrics, g.allowed));
    if Score(run, g) == 100.0 { FullNeedsMetrics(run, g); }
  }

  lemma FullNeedsMetrics(run: Run, g: Golden)
    requires PositivePoints(g) && Score(run, g) == 100.0
    ensures Flawless(run, g)
  {
    RawRange(run, g);
    MetricCapMeans(run, g.metrics, g.allowed);
    ConclusionCapMeans(run, g.conclusions, MetricCap(run, g.metrics, g.allowed));
    assert Correct(run, g.metrics[0]);
    assert forall k :: 0 <= k < |g.metrics| ==> MetricFlawless(run, g.metrics[k], g.allowed);
  }

  // ---- Scores below zero ------------------------------------------------------------------------

  /** Points and hard caps that cannot pull a score below zero. */
  predicate NothingNegative(g: Golden) {
    && (forall k :: 0 <= k < |g.metrics| ==> g.metrics[k].points >= 0)
    && (forall k :: 0 <= k < |g.conclusions| ==> g.conclusions[k].points >= 0)
    && forall k :: 0 <= k < |g.conclusions| ==> g.conclusions[k].hardCap >= 0.0
  }

  predicate DistinctIds(g: Golden) {
    && (forall i, j :: 0 <= i < j < |g.metrics| ==> g.metrics[i].id != g.metrics[j].id)
    && forall i, j :: 0 <= i < j < |g.conclusions| ==> g.conclusions[i].id != g.conclusions[j].id
  }

  predicate TolerancesSound(g: Golden) {
    forall k :: 0 <= k < |g.metrics| ==> g.metrics[k].tolerance >= 0.0
  }

  /** Which of the metrics, or conclusions, earn their points. */
  lemma {:induction false} NothingLost(run: Run, metrics: seq<Metric>)
    requires forall k :: 0 <= k < |metrics| ==> metrics[k].points >= 0
    ensures EarnedMetrics(run, metrics) >= 0
  {
    if metrics != [] { NothingLost(run, metrics[..|metrics| - 1]); }
  }

  lemma {:induction false} NoConclusionLost(run: Run, conclusions: seq<Requirement>)
    requires forall k :: 0 <= k < |conclusions| ==> conclusions[k].points >= 0
    ensures EarnedConclusions(run, conclusions) >= 0
  {
    if conclusions != [] { NoConclusionLost(run, conclusions[..|conclusions| - 1]); }
  }

  /** Only the metric at `j`, or none if there is no such place, is correct. */
  lemma {:induction false} OnlyMetric(run: Run, metrics: seq<Metric>, j: nat)
    requires forall k :: 0 <= k < |metrics| ==> (Correct(run, metrics[k]) <==> k == j)
    ensures EarnedMetrics(run, metrics) == if j < |metrics| then metrics[j].points else 0
  {
    if metrics != [] { OnlyMetric(run, metrics[..|metrics| - 1], j); }
  }

  lemma {:induction false} OnlyConclusion(run: Run, conclusions: seq<Requirement>, j: nat)
    requires forall k :: 0 <= k < |conclusions| ==> (Concluded(run, conclusions[k]) <==> k == j)
    ensures EarnedConclusions(run, conclusions) == if j < |conclusions| then conclusions[j].points else 0
  {
    if conclusions != [] { OnlyConclusion(run, conclusions[..|conclusions| - 1], j); }
  }

  /** The conclusions that silence would reach. */
  function SilentIds(conclusions: seq<Requirement>): set<string> {
    set k | 0 <= k < |conclusions| && conclusions[k].expected == Null :: conclusions[k].id
  }

  /** An answer other than any expected one where silence would be an answer. */
  function Evasive(conclusions: seq<Requirement>): map<string, Json> {
    map id | id in SilentIds(conclusions) :: Bool(true)
  }

  /** A completed run without children, evidence and answer hash: it earns for values and conclusions alone. */
  function BareRun(values: map<string, Entry>, conclusions: map<string, Json>): Run {
    Run(Some("r"), Some(values), conclusions, None, true, false)
  }

  lemma EvasiveRun(g: Golden, values: map<string, Entry>)
    requires DistinctIds(g)
    ensures var run := BareRun(values, Evasive(g.conclusions));
            forall k :: 0 <= k < |g.conclusions| ==> !Concluded(run, g.conclusions[k])
  {
  }

  lemma AnsweringRun(g: Golden, values: map<string, Entry>, j: nat)
    requires DistinctIds(g) && j < |g.conclusions|
    ensures var answers := Evasive(g.conclusions)[g.conclusions[j].id := g.conclusions[j].expected];
            var run := BareRun(values, answers);
            forall k :: 0 <= k < |g.conclusions| ==> (Concluded(run, g.conclusions[k]) <==> k == j)
  {
    EvasiveRun(g, values);
  }

  /** Without evidence no metric is grounded, and the shares for that eat up the citation points. */
  lemma {:induction false} AllUngrounded(run: Run, metrics: seq<Metric>)
    requires forall k :: 0 <= k < |metrics| ==> !Grounded(run, metrics[k])
    ensures Ungrounded(run, metrics) == |metrics|
  {
    if metrics != [] { AllUngrounded(run, metrics[..|metrics| - 1]); }
  }

  lemma AllShares(n: nat)
    requires n > 0
    ensures 10.0 - n as real * (10.0 / n as real) == 0.0
  {
  }

  lemma BareScore(g: Golden, values: map<string, Entry>, answers: map<string, Json>)
    requires g.metrics != [] && forall id :: id in values ==> values[id].Entry? && values[id].evidence.None?
    ensures var run := BareRun(values, answers);
            RawScore(run, g) == EarnedMetrics(run, g.metrics) as real + EarnedConclusions(run, g.conclusions) as real
  {
    AllUngrounded(BareRun(values, answers), g.metrics);
    AllShares(|g.metrics|);
  }

  lemma NegativeCapRun(g: Golden, j: nat) returns (run: Run)
    requires g.metrics != [] && DistinctIds(g) && j < |g.conclusions| && g.conclusions[j].hardCap < 0.0
    ensures Score(run, g) < 0.0
  {
    run := BareRun(map[], Evasive(g.conclusions));
    EvasiveRun(g, map[]);
    ConclusionCapMeans(run, g.conclusions, MetricCap(run, g.metrics, g.allowed));
  }

  lemma NegativeConclusionRun(g: Golden, j: nat) returns (run: Run)
    requires g.metrics != [] && DistinctIds(g) && j < |g.conclusions| && g.conclusions[j].points < 0
    ensures Score(run, g) < 0.0
  {
    var answers := Evasive(g.conclusions)[g.conclusions[j].id := g.conclusions[j].expected];
    run := BareRun(map[], answers);
    AnsweringRun(g, map[], j);
    OnlyConclusion(run, g.conclusions, j);
    OnlyMetric(run, g.metrics, |g.metrics|);
    BareScore(g, map[], answers);
  }

  lemma NegativeMetricRun(g: Golden, j: nat) returns (run: Run)
    requires DistinctIds(g) && j < |g.metrics| && g.metrics[j].points < 0 && g.metrics[j].tolerance >= 0.0
    ensures Score(run, g) < 0.0
  {
    var values := map[g.metrics[j].id := Entry(Some(g.metrics[j].expected), None)];
    run := BareRun(values, Evasive(g.conclusions));
    EvasiveRun(g, values);
    OnlyConclusion(run, g.conclusions, |g.conclusions|);
    OnlyMetric(run, g.metrics, j);
    BareScore(g, values, Evasive(g.conclusions));
  }

  /** A fixture on which nothing is negative never gives a score below zero. */
  lemma NeverBelow(run: Run, g: Golden)
    requires g.metrics != [] && NothingNegative(g)
    ensures Score(run, g) >= 0.0
  {
    NothingLost(run, g.metrics);
    NoConclusionLost(run, g.conclusions);
    MetricCapMeans(run, g.metrics, g.allowed);
    ConclusionCapMeans(run, g.conclusions, MetricCap(run, g.metrics, g.allowed));
  }

  /** Exactly which fixtures keep all scores from falling below zero: those without a negative hard cap and without
      negative points. The check of the fixture looks at neither. */
  lemma NonNegativeExact(g: Golden)
    requires g.metrics != [] && DistinctIds(g) && TolerancesSound(g)
    ensures (forall run :: Score(run, g) >= 0.0) <==> NothingNegative(g)
  {
    if NothingNegative(g) {
      forall run ensures Score(run, g) >= 0.0 { NeverBelow(run, g); }
    } else if j :| 0 <= j < |g.metrics| && g.metrics[j].points < 0 {
      var run := NegativeMetricRun(g, j);
    } else if j :| 0 <= j < |g.conclusions| && g.conclusions[j].points < 0 {
      var run := NegativeConclusionRun(g, j);
    } else {
      var j :| 0 <= j < |g.conclusions| && g.conclusions[j].hardCap < 0.0;
      var run := NegativeCapRun(g, j);
    }
  }

  /** The figures of the fixture in the repository. */
  const INPUTS := Inputs(
    Quarter(9829.0, 9133.0, 1942.0, 1709.0, 3172.0, 2928.0, 1541.0, 6476.0, 6247.0, 179.0, 163.0, 25866.0, 24196.0,
            10928.0, 6480.0, 4354.0, 8435.0, 68.0, [7591.0, -365.0, -481.0, -1007.0, -124.0, -2944.0],
            [395.0, 799.0, 36.0]),
    Year(13092.0, 10234.0, 658.0, 736.0, 6197.0, 4136.0, 27980.0, 8848.0, 5184.0, 11945.0, 8433.0))

  /** Two fixtures on these figures: one conclusion with a negative hard cap, and a metric of negative points. */
  const NEGATIVE_CAP := Golden(INPUTS, [Metric("q1_fcf_usd_m", 6297.0, 0.0, 50, false, {})],
                               [Requirement("c", Str("yes"), 25, -1.0)], {}, 0.0, "")
  const NEGATIVE_POINTS := Golden(INPUTS, [Metric("q1_fcf_usd_m", 6297.0, 0.0, 60, false, {}),
                                           Metric("fy25_fcf_usd_m", 12434.0, 0.0, -10, false, {})],
                                  [Requirement("c", Str("yes"), 25, 50.0)], {}, 0.0, "")

  lemma MetricsChecked()
    ensures Divisible(INPUTS)
    ensures MetricChecked(INPUTS, Metric("q1_fcf_usd_m", 6297.0, 0.0, 50, false, {}))
    ensures MetricChecked(INPUTS, Metric("q1_fcf_usd_m", 6297.0, 0.0, 60, false, {}))
    ensures MetricChecked(INPUTS, Metric("fy25_fcf_usd_m", 12434.0, 0.0, -10, false, {}))
  {
    assert |"q1_fcf_usd_m"| == 12 && |"fy25_fcf_usd_m"| == 14;
  }

  /** Both pass the check of the fixture, and some run scores below zero on each. */
  lemma NegativeScoreExamples() returns (one: Run, other: Run)
    ensures FixtureAccepted(NEGATIVE_CAP) && Score(one, NEGATIVE_CAP) < 0.0
    ensures FixtureAccepted(NEGATIVE_POINTS) && Score(other, NEGATIVE_POINTS) < 0.0
  {
    MetricsChecked();
    PointsOfExamples();
    one := NegativeCapRun(NEGATIVE_CAP, 0);
    other := NegativeMetricRun(NEGATIVE_POINTS, 1);
  }

  lemma PointsOfExamples()
    ensures PointsSum(NEGATIVE_CAP) && DistinctIds(NEGATIVE_CAP)
    ensures PointsSum(NEGATIVE_POINTS) && DistinctIds(NEGATIVE_POINTS)
  {
    var metrics, conclusions := NEGATIVE_POINTS.metrics, NEGATIVE_POINTS.conclusions;
    assert metrics[..1] == [metrics[0]] && metrics[..1][..0] == [] && conclusions[..0] == [];
    assert NEGATIVE_CAP.metrics[..0] == [] && NEGATIVE_CAP.conclusions[..0] == [];
    assert MetricPoints(metrics[..1]) == 60;
    assert |metrics[0].id| == 12 && |metrics[1].id| == 14;
  }

  /** The hard limits hold whatever else the run contains. */
  lemma HardLimits(run: Run, g: Golden)
    requires g.metrics != []
    ensures forall k :: 0 <= k < |g.metrics| && g.metrics[k].critical && !Correct(run, g.metrics[k]) ==>
              Score(run, g) <= 75.0
    ensures forall k :: 0 <= k < |g.metrics| && Unapproved(run, g.metrics[k], g.allowed) ==> Score(run, g) <= 70.0
    ensures forall k :: 0 <= k < |g.conclusions| ==>
              (!Concluded(run, g.conclusions[k]) && g.conclusions[k].hardCap >= 0.0 ==>
                 Score(run, g) <= g.conclusions[k].hardCap)
    ensures !Delegated(run, g) ==> Score(run, g) <= 85.0
    ensures !run.answerHash ==> Score(run, g) <= 90.0
    ensures !run.completed ==> Score(run, g) <= 0.0
    ensures !run.completed && NothingNegative(g) ==> Score(run, g) == 0.0
  {
    if NothingNegative(g) { NeverBelow(run, g); }
    MetricCapMeans(run, g.metrics, g.allowed);
    ConclusionCapMeans(run, g.conclusions, MetricCap(run, g.metrics, g.allowed));
  }

  // ---- The receipt ------------------------------------------------------------------------------

  datatype ReceiptError = WrongCount | RunIds
  datatype Report = Report(score: real, passed: bool, runs: seq<Evaluation>)

  ghost predicate UniqueIds(runs: seq<Run>) {
    && (forall k :: 0 <= k < |runs| ==> runs[k].id.Some? && runs[k].id.value != "")
    && forall i, j :: 0 <= i < j < |runs| ==> runs[i].id != runs[j].id
  }

  /** Three runs of three different non-empty ids. */
  method CheckRuns(runs: seq<Run>) returns (error: Option<ReceiptError>)
    ensures error.None? <==> |runs| == 3 && UniqueIds(runs)
  {
    if |runs| != 3 { return Some(WrongCount); }
    if exists k :: 0 <= k < 3 && (runs[k].id.None? || runs[k].id.value == "") { return Some(RunIds); }
    if runs[0].id == runs[1].id || runs[0].id == runs[2].id || runs[1].id == runs[2].id { return Some(RunIds); }
    error := None;
  }

  /** `evaluate_receipt`: three runs of different ids; the report is as good as the worst of them. */
  method EvaluateReceipt(runs: seq<Run>, g: Golden) returns (r: Result<Report, ReceiptError>)
    requires g.metrics != []
    ensures r.Ok? <==> |runs| == 3 && UniqueIds(runs)
    ensures r.Ok? ==> |r.value.runs| == 3 && Reported(r.value.runs, runs, g)
    ensures r.Ok? ==> forall k :: 0 <= k < |runs| ==> r.value.score <= Score(runs[k], g)
    ensures r.Ok? ==> exists k :: 0 <= k < |runs| && r.value.score == Score(runs[k], g)
    ensures r.Ok? ==> (r.value.passed <==> forall k :: 0 <= k < |runs| ==> Score(runs[k], g) >= g.minimum)
  {
    var error := CheckRuns(runs);
    if error.Some? { return Err(error.value); }
    var reports, passed := EvaluateRuns(runs, g);
    var score := Lowest(reports);
    WorstRun(reports, runs, g, score);
    LeastPasses(reports, score, g.minimum);
    r := Ok(Report(score, passed && score >= g.minimum, reports));
  }

  lemma LeastPasses(reports: seq<Evaluation>, score: real, minimum: real)
    requires exists k :: 0 <= k < |reports| && score == reports[k].score
    ensures (forall k :: 0 <= k < |reports| ==> reports[k].score >= minimum) ==> score >= minimum
  {
  }

  lemma WorstRun(reports: seq<Evaluation>, runs: seq<Run>, g: Golden, score: real)
    requires g.metrics != [] && |reports| == |runs| && Reported(reports, runs, g)
    requires forall k :: 0 <= k < |reports| ==> score <= reports[k].score
    requires exists k :: 0 <= k < |reports| && score == reports[k].score
    ensures forall k :: 0 <= k < |runs| ==> score <= Score(runs[k], g)
    ensures exists k :: 0 <= k < |runs| && score == Score(runs[k], g)
    ensures (forall k :: 0 <= k < |reports| ==> reports[k].score >= g.minimum) <==>
              forall k :: 0 <= k < |runs| ==> Score(runs[k], g) >= g.minimum
  {
    var k :| 0 <= k < |reports| && score == reports[k].score;
    assert score == Score(runs[k], g);
    forall k | 0 <= k < |runs| ensures score <= Score(runs[k], g) { assert score <= reports[k].score; }
  }

  /** The reports carry the scores of the first runs. */
  ghost predicate Reported(reports: seq<Evaluation>, runs: seq<Run>, g: Golden)
    requires g.metrics != []
  {
    |reports| <= |runs| && forall k :: 0 <= k < |reports| ==> reports[k].score == Score(runs[k], g)
  }

  lemma ReportedMore(reports: seq<Evaluation>, e: Evaluation, runs: seq<Run>, g: Golden)
    requires g.metrics != [] && Reported(reports, runs, g) && |reports| < |runs|
    requires e.score == Score(runs[|reports|], g)
    ensures Reported(reports + [e], runs, g)
  {
  }

  method EvaluateRuns(runs: seq<Run>, g: Golden) returns (reports: seq<Evaluation>, passed: bool)
    requires g.metrics != []
    ensures |reports| == |runs| && Reported(reports, runs, g)
    ensures passed <==> forall k :: 0 <= k < |reports| ==> reports[k].score >= g.minimum
  {
    reports, passed := [], true;
    while |reports| < |runs|
      invariant Reported(reports, runs, g)
      invariant passed <==> forall k :: 0 <= k < |reports| ==> reports[k].score >= g.minimum
    {
      var e := EvaluateRun(runs[|reports|], g);
      ReportedMore(reports, e, runs, g);
      passed := passed && e.passed;
      reports := reports + [e];
    }
  }

  method Lowest(reports: seq<Evaluation>) returns (score: real)
    requires reports != []
    ensures forall k :: 0 <= k < |reports| ==> score <= reports[k].score
    ensures exists k :: 0 <= k < |reports| && score == reports[k].score
  {
    score := reports[0].score;
    var k := 1;
    while k < |reports|
      invariant 1 <= k <= |reports|
      invariant forall j :: 0 <= j < k ==> score <= reports[j].score
      invariant exists j :: 0 <= j < k && score == reports[j].score
    {
      if reports[k].score < score { score := reports[k].score; }
      k := k + 1;
    }
  }

  // ---- From the runner's checks -----------------------------------------------------------------

  /** A child receipt that carries the times of a finish. */
  ghost predicate SameTimes(c: Child, finish: Summaries.Receipt) {
    && c.Child? && c.completed
    && c.started == Some(Agreement.StartMs(finish)) && c.finished == Some(Agreement.FinishMs(finish))
  }

  /** The runner's pairwise overlap check settles the finance gate's interval test: three children it accepted
      as parallel were all running at one moment. */
  lemma ParallelChildrenAreConcurrent(scenario: Delegation.Scenario, o: Summaries.Observation, attempt: string,
                                      children: seq<Child>)
    requires Summaries.OverlapListOf(o.overlaps, o.finishes)
    requires Lifecycle.ProfilesValid(scenario, o, attempt) && Lifecycle.ParallelValid(scenario, o)
               && scenario.requireParallel
    requires |scenario.required| == 3 && |children| == 3
    requires forall k :: 0 <= k < 3 ==> SameTimes(children[k], o.finishes[k])
    ensures forall k :: 0 <= k < 3 ==> Timed(children[k])
    ensures Concurrent(children)
  {
    Agreement.PairsAtOnce(scenario, o, attempt);
    assert |o.finishes| == 3;
    assert forall k :: 0 <= k < 3 ==> Timed(children[k]);
  }
}
