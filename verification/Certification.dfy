/** The timing reconciliation of a trial and the certification rule of a benchmark run
    (scripts/assistant_ttft_benchmark.py:158-241, 379-571; src/services/agent_runtime/timing.py:31-34, 130-149). All
    times are whole microseconds. */
module Certification {
  import opened Prelude
  import opened Sorting
  import opened Percentiles

  datatype Status = Fine | ToleranceExceeded | IdentityViolation | Incomplete | MultiCallExcluded | MissingLine
                  | Unmatched | NotCollected

  /** A parsed timing line: the call, the total, and the three parts of it. */
  datatype Line = Line(call: string, total: Option<int>, pre: Option<int>, wait: Option<int>, projection: Option<int>)
  datatype Reconciliation = Reconciliation(status: Status, residual: Option<int>)
  datatype Trial = Trial(ordinal: int, success: bool, ttft: Option<int>, reconciliation: Option<Reconciliation>)

  const IDENTITY_TOLERANCE := 5_000
  const LOWER_BOUND := 10_000
  const RESIDUAL_ABS := 200_000
  const CERT_P99 := 250_000
  const CERT_MAX := 500_000

  function Abs(x: int): nat { if x < 0 then -x else x }

  // ---- One trial --------------------------------------------------------------------------------

  /** `client_residual_within_tolerance`; the relative tolerance is a twentieth of the client time. */
  predicate WithinTolerance(server: int, client: int) {
    client - server >= -LOWER_BOUND && (client - server <= RESIDUAL_ABS || 20 * (client - server) <= client)
  }

  function Judge(record: Line, client: Option<int>): Reconciliation {
    if record.total.None? || client.None? || record.pre.None? || record.wait.None? || record.projection.None? then
      Reconciliation(Incomplete, None)
    else if Abs(record.pre.value + record.wait.value
        + record.projection.value - record.total.value) > IDENTITY_TOLERANCE then
      Reconciliation(IdentityViolation, None)
    else
      Reconciliation(if WithinTolerance(record.total.value, client.value) then Fine else ToleranceExceeded,
                     Some(client.value - record.total.value))
  }

  /** The lines of a log so far, each call with its last line. */
  function SeenOf(lines: seq<Line>): (r: map<string, Line>) {
    if lines == [] then map[]
    else
      var last := lines[|lines| - 1];
      SeenOf(lines[..|lines| - 1])[last.call := last]
  }

  /** `harvest`: the lines of one read, the last line of a call counting. */
  method Harvest(seen: map<string, Line>, lines: seq<Line>, ghost before: seq<Line>) returns (r: map<string, Line>)
    requires seen == SeenOf(before)
    ensures r == SeenOf(before + lines)
  {
    r := seen;
    assert before + lines[..0] == before;
    var i := 0;
    while i < |lines|
      invariant 0 <= i <= |lines| && r == SeenOf(before + lines[..i])
    {
      assert (before + lines[..i + 1])[..|before| + i] == before + lines[..i];
      r := r[lines[i].call := lines[i]];
      i := i + 1;
    }
    assert lines[..i] == lines;
  }

  /** All lines are of one call. */
  ghost predicate OneCall(lines: seq<Line>) {
    forall j, k :: 0 <= j < |lines| && 0 <= k < |lines| ==> lines[j].call == lines[k].call
  }

  lemma {:induction false} SeenCalls(lines: seq<Line>)
    ensures forall c :: c in SeenOf(lines) <==> exists k :: 0 <= k < |lines| && lines[k].call == c
    ensures lines != [] ==> SeenOf(lines)[lines[|lines| - 1].call] == lines[|lines| - 1]
  {
    if lines != [] {
      var init, last := lines[..|lines| - 1], lines[|lines| - 1];
      SeenCalls(init);
      forall c ensures c in SeenOf(lines) <==> exists k :: 0 <= k < |lines| && lines[k].call == c {
        if k :| 0 <= k < |init| && init[k].call == c { assert lines[k].call == c; }
        if k :| 0 <= k < |lines| && lines[k].call == c && k < |init| { assert init[k].call == c; }
        assert lines[|init|] == last;
      }
    }
  }

  /** There is one entry exactly if all lines are of one call, and it is the last line then. */
  lemma SeenSize(lines: seq<Line>)
    requires lines != []
    ensures SeenOf(lines) != map[]
    ensures |SeenOf(lines)| > 1 <==> !OneCall(lines)
    ensures OneCall(lines) ==> forall c :: c in SeenOf(lines) ==> SeenOf(lines)[c] == lines[|lines| - 1]
  {
    SeenCalls(lines);
    var seen, call := SeenOf(lines), lines[|lines| - 1].call;
    assert call in seen;
    if OneCall(lines) {
      assert seen.Keys == {call};
      assert |seen| == |seen.Keys|;
    } else {
      var k :| 0 <= k < |lines| && lines[k].call != call;
      assert {call, lines[k].call} <= seen.Keys;
      SubsetSize({call, lines[k].call}, seen.Keys);
      assert |seen| == |seen.Keys|;
    }
  }

  lemma SubsetSize(a: set<string>, b: set<string>)
    requires a <= b
    ensures |a| <= |b|
  {
    assert |b - a| == |b| - |a|;
  }

  /** The lines that count: of the first read, or of the second if the first shows nothing, and of the delayed one. */
  function LinesUsed(log: seq<seq<Line>>): seq<Line>
    requires |log| == 3
  {
    (if log[0] != [] then log[0] else log[1]) + log[2]
  }

  /** What a trial comes to: missed without a line in the first two reads, excluded if its lines are of more than one
      call, and otherwise judged on the last line. */
  ghost function Verdict(collected: bool, matched: bool, log: seq<seq<Line>>, client: Option<int>): Reconciliation
    requires |log| == 3
  {
    if !collected then Reconciliation(NotCollected, None)
    else if !matched then Reconciliation(Unmatched, None)
    else if log[0] == [] && log[1] == [] then Reconciliation(MissingLine, None)
    else
      var lines := LinesUsed(log);
      if OneCall(lines) then Judge(lines[|lines| - 1], client) else Reconciliation(MultiCallExcluded, None)
  }

  /** `_reconcile_trial`, given what the log shows for the run on the first, second and delayed read. */
  method ReconcileTrial(collected: bool, matched: bool, log: seq<seq<Line>>, client: Option<int>)
    returns (r: Reconciliation)
    requires |log| == 3
    ensures r == Verdict(collected, matched, log, client)
  {
    if !collected { return Reconciliation(NotCollected, None); }
    if !matched { return Reconciliation(Unmatched, None); }
    var seen := FirstReads(log);
    if seen == map[] { return Reconciliation(MissingLine, None); }
    ghost var first := if log[0] != [] then log[0] else log[1];
    seen := Harvest(seen, log[2], first);
    SeenSize(LinesUsed(log));
    if |seen| > 1 { return Reconciliation(MultiCallExcluded, None); }
    var call :| call in seen;
    r := Judge(seen[call], client);
  }

  /** One or two reads, until something shows. */
  method FirstReads(log: seq<seq<Line>>) returns (seen: map<string, Line>)
    requires |log| == 3
    ensures seen == SeenOf(if log[0] != [] then log[0] else log[1])
    ensures seen == map[] <==> log[0] == [] && log[1] == []
  {
    seen := map[];
    var attempt := 0;
    while attempt < 2
      invariant 0 <= attempt <= 2 && seen == map[]
      invariant attempt > 0 ==> log[0] == []
      invariant attempt > 1 ==> log[1] == []
    {
      seen := Harvest(seen, log[attempt], []);
      assert [] + log[attempt] == log[attempt];
      if log[attempt] != [] { SeenSize(log[attempt]); }
      if seen != map[] { break; }
      attempt := attempt + 1;
    }
  }

  function Larger(a: int, b: int): int { if a >= b then a else b }

  /** A verdict comes with a residual exactly if a single call's last line has every time it needs and its parts add up
      to its total within the tolerance. It is fine exactly if the client saw its first text at most the lower bound
      before the server, and at most a fifth of a second after it or a twentieth of its own time. */
  lemma VerdictMeans(collected: bool, matched: bool, log: seq<seq<Line>>, client: Option<int>)
    requires |log| == 3
    ensures var r := Verdict(collected, matched, log, client);
            && (r.status in {Fine, ToleranceExceeded} <==> r.residual.Some?)
            && (r.residual.Some? <==>
                  && collected && matched && (log[0] != [] || log[1] != []) && OneCall(LinesUsed(log))
                  && var record := LinesUsed(log)[|LinesUsed(log)| - 1];
                  && record.total.Some? && client.Some?
                  && record.pre.Some? && record.wait.Some? && record.projection.Some?
                  && var off := record.pre.value + record.wait.value + record.projection.value - record.total.value;
                  && -5_000 <= off <= 5_000)
    ensures var r := Verdict(collected, matched, log, client);
            r.residual.Some? ==>
              && r.residual.value == client.value - LinesUsed(log)[|LinesUsed(log)| - 1].total.value
              && (r.status == Fine <==> -10_000 <= r.residual.value <= Larger(200_000, client.value / 20))
  {
  }

  // ---- The certification rule -------------------------------------------------------------------

  function Records(results: seq<Trial>): seq<Reconciliation> {
    if results == [] then []
    else
      var last := results[|results| - 1];
      Records(results[..|results| - 1]) + if last.reconciliation.Some? then [last.reconciliation.value] else []
  }

  function AbsResiduals(records: seq<Reconciliation>): seq<int> {
    if records == [] then []
    else
      var last := records[|records| - 1];
      AbsResiduals(records[..|records| - 1]) + if last.residual.Some? then [Abs(last.residual.value)] else []
  }

  predicate Collected(r: Reconciliation) { r.status in {Fine, ToleranceExceeded} }

  predicate AboveLower(r: Reconciliation) { r.residual.Some? && r.residual.value >= -LOWER_BOUND }

  /** `_percentile(...) or 1.0`: a percentile of zero counts as a second. */
  function OrOneSecond(p: Option<int>): int {
    if p.None? || p.value == 0 then 1_000_000 else p.value
  }

  /** `reconciliation_passed` of a run with a timing reader. */
  predicate ReconciliationPasses(results: seq<Trial>) {
    var records := Records(results);
    var residuals := AbsResiduals(records);
    && |records| == |results|
    && (forall k :: 0 <= k < |records| ==> Collected(records[k]))
    && (forall k :: 0 <= k < |records| ==> AboveLower(records[k]))
    && residuals != [] && OrOneSecond(Percentile(residuals, 99, 100)) <= CERT_P99
    && forall k :: 0 <= k < |residuals| ==> residuals[k] <= CERT_MAX
  }

  /** What every trial of a certified run shows. */
  predicate TrialCertified(t: Trial) {
    && t.reconciliation.Some? && Collected(t.reconciliation.value) && t.reconciliation.value.residual.Some?
    && -LOWER_BOUND <= t.reconciliation.value.residual.value && Abs(t.reconciliation.value.residual.value) <= CERT_MAX
  }

  /** The number of trials whose residual is at most `bound` in size. */
  function Small(results: seq<Trial>, bound: nat): nat {
    if results == [] then 0
    else
      var t := results[|results| - 1];
      Small(results[..|results| - 1], bound) +
        if t.reconciliation.Some? && t.reconciliation.value.residual.Some?
            && Abs(t.reconciliation.value.residual.value) <= bound then 1 else 0
  }

  lemma {:induction false} RecordsOfAll(results: seq<Trial>)
    ensures |Records(results)| <= |results|
    ensures |Records(results)| == |results| <==> forall k :: 0 <= k < |results| ==> results[k].reconciliation.Some?
    ensures |Records(results)| == |results| ==> forall k :: 0 <= k < |results| ==>
              Records(results)[k] == results[k].reconciliation.value
  {
    if results != [] { RecordsOfAll(results[..|results| - 1]); }
  }

  lemma {:induction false} ResidualsOfAll(records: seq<Reconciliation>)
    requires forall k :: 0 <= k < |records| ==> records[k].residual.Some?
    ensures |AbsResiduals(records)| == |records|
    ensures forall k :: 0 <= k < |records| ==> AbsResiduals(records)[k] == Abs(records[k].residual.value)
  {
    if records != [] { ResidualsOfAll(records[..|records| - 1]); }
  }

  /** The residuals of the results, in order. */
  ghost predicate ResidualsOf(results: seq<Trial>, residuals: seq<int>) {
    && |results| == |residuals|
    && forall k :: 0 <= k < |results| ==>
         results[k].reconciliation.Some? && results[k].reconciliation.value.residual.Some?
         && residuals[k] == Abs(results[k].reconciliation.value.residual.value)
  }

  lemma {:induction false} SmallIsAtMost(results: seq<Trial>, residuals: seq<int>, bound: nat)
    requires ResidualsOf(results, residuals)
    ensures Small(results, bound) == AtMost(residuals, bound)
  {
    if results != [] { SmallIsAtMost(results[..|results| - 1], residuals[..|residuals| - 1], bound); }
  }

  lemma BoundCounts(results: seq<Trial>, residuals: seq<int>, bound: nat)
    requires ResidualsOf(results, residuals) && results != []
    ensures Percentile(residuals, 99, 100).value <= bound <==> Small(results, bound) >= Rank(99, 100, |results|)
  {
    SmallIsAtMost(results, residuals, bound);
    PercentileBound(residuals, 99, 100, bound);
  }

  lemma PercentileNonNegative(residuals: seq<int>)
    requires residuals != [] && forall k :: 0 <= k < |residuals| ==> residuals[k] >= 0
    ensures Percentile(residuals, 99, 100).value >= 0
  {
    PercentileCounts(residuals, 99, 100);
  }

  /** The percentile test, with the odd reading of zero, as two counts. */
  lemma PercentileRule(results: seq<Trial>, residuals: seq<int>)
    requires ResidualsOf(results, residuals)
    ensures residuals != [] && OrOneSecond(Percentile(residuals, 99, 100)) <= CERT_P99 <==>
              results != [] && Small(results, CERT_P99) >= Rank(99, 100, |results|)
                  && Small(results, 0) < Rank(99, 100, |results|)
  {
    if results != [] {
      BoundCounts(results, residuals, CERT_P99);
      BoundCounts(results, residuals, 0);
      PercentileNonNegative(residuals);
    }
  }

  lemma NotCertified(results: seq<Trial>, records: seq<Reconciliation>)
    requires records == Records(results)
    requires |records| != |results| || exists k :: 0 <= k < |records| && !AboveLower(records[k])
    ensures exists k :: 0 <= k < |results| && !TrialCertified(results[k])
  {
    RecordsOfAll(results);
    if |records| == |results| {
      var k :| 0 <= k < |records| && !AboveLower(records[k]);
      assert !TrialCertified(results[k]);
    } else {
      var k :| 0 <= k < |results| && results[k].reconciliation.None?;
      assert !TrialCertified(results[k]);
    }
  }

  lemma CertifiedByRecords(results: seq<Trial>, records: seq<Reconciliation>, residuals: seq<int>)
    requires |results| == |records| == |residuals|
    requires forall k :: 0 <= k < |results| ==> results[k].reconciliation == Some(records[k])
    requires forall k :: 0 <= k < |records| ==> AboveLower(records[k]) && residuals[k] == Abs(records[k].residual.value)
    ensures (forall k :: 0 <= k < |results| ==> TrialCertified(results[k])) <==>
              (forall k :: 0 <= k < |records| ==> Collected(records[k]))
                  && forall k :: 0 <= k < |residuals| ==> residuals[k] <= CERT_MAX
  {
    if forall k :: 0 <= k < |results| ==> TrialCertified(results[k]) {
      forall k | 0 <= k < |records|
        ensures Collected(records[k]) && residuals[k] <= CERT_MAX
      {
        assert TrialCertified(results[k]);
      }
    }
  }

  /** The rule says what it is meant to say, except for one case: a run passes exactly if every trial is
      reconciled within the lower bound and the ceiling, at least 99 in 100 of all trials are within a quarter
      second, and fewer than 99 in 100 have no residual at all. A run too exact for the percentile to be
      positive fails. */
  lemma CertificationExact(results: seq<Trial>)
    ensures ReconciliationPasses(results) <==>
              && results != []
              && (forall k :: 0 <= k < |results| ==> TrialCertified(results[k]))
              && Small(results, CERT_P99) >= Rank(99, 100, |results|)
              && Small(results, 0) < Rank(99, 100, |results|)
  {
    RecordsOfAll(results);
    var records := Records(results);
    if |records| == |results| && forall k :: 0 <= k < |records| ==> AboveLower(records[k]) {
      ResidualsOfAll(records);
      CertifiedByRecords(results, records, AbsResiduals(records));
      PercentileRule(results, AbsResiduals(records));
    } else {
      NotCertified(results, records);
    }
  }

  /** Trials without any residual, however many, do not certify. */
  lemma PerfectRunFails(results: seq<Trial>)
    requires forall k :: 0 <= k < |results| ==> results[k].reconciliation == Some(Reconciliation(Fine, Some(0)))
    ensures !ReconciliationPasses(results)
  {
    CertificationExact(results);
    AllSmall(results);
    if results != [] { RankInRange(99, 100, |results|); }
  }

  lemma {:induction false} AllSmall(results: seq<Trial>)
    requires forall k :: 0 <= k < |results| ==> results[k].reconciliation == Some(Reconciliation(Fine, Some(0)))
    ensures Small(results, 0) == |results|
  {
    if results != [] { AllSmall(results[..|results| - 1]); }
  }

  // ---- The gate ---------------------------------------------------------------------------------

  /** Successful trials after the warm-up. */
  function GateSet(results: seq<Trial>, warmup: nat): seq<Trial> {
    if results == [] then []
    else
      var t := results[|results| - 1];
      GateSet(results[..|results| - 1], warmup) + if t.success && t.ordinal > warmup then [t] else []
  }

  function Successful(results: seq<Trial>): nat {
    if results == [] then 0 else Successful(results[..|results| - 1]) + if results[|results| - 1].success then 1 else 0
  }

  /** The client times that are there. */
  function Times(trials: seq<Trial>): seq<int> {
    if trials == [] then []
    else
      var t := trials[|trials| - 1];
      Times(trials[..|trials| - 1]) + if t.ttft.Some? then [t.ttft.value] else []
  }

  predicate Passes(results: seq<Trial>, warmup: nat, p50Ceiling: int, p95Ceiling: int) {
    var gate := GateSet(results, warmup);
    var p50, p95 := Percentile(Times(gate), 50, 100), Percentile(Times(gate), 95, 100);
    && Successful(results) == |results| && |gate| == |results| - warmup
    && p50.Some? && p95.Some? && p50.value <= p50Ceiling && p95.value <= p95Ceiling
  }

  /** `recordable`, for a run with a timing reader. */
  predicate Recordable(results: seq<Trial>, warmup: nat, p50Ceiling: int, p95Ceiling: int, minimum: nat) {
    && Passes(results, warmup, p50Ceiling, p95Ceiling)
    && ReconciliationPasses(results)
    && |GateSet(results, warmup)| >= minimum
  }

  /** Trials as the run numbers them, each reconciled through `ReconcileTrial`. */
  ghost predicate FromRun(results: seq<Trial>) {
    && (forall k :: 0 <= k < |results| ==> results[k].ordinal == k + 1)
    && (forall k :: 0 <= k < |results| ==>
          (results[k].reconciliation.Some? && Collected(results[k].reconciliation.value) ==> results[k].ttft.Some?))
  }

  /** What one turn came to: an adapter failure, or a finished turn with what the log showed of it. */
  datatype Turn = Failed
                | Finished(success: bool, ttft: Option<int>, collected: bool, matched: bool, log: seq<seq<Line>>,
                    sameModel: bool)

  /** What a turn comes to as trial k. */
  ghost predicate Tells(turn: Turn, k: nat, trial: Trial)
    requires turn.Finished? ==> |turn.log| == 3
  {
    && trial.ordinal == k + 1
    && (trial.success <==> turn.Finished? && turn.success && turn.sameModel)
    && trial.ttft == (if turn.Finished? then turn.ttft else None)
    && trial.reconciliation ==
         if turn.Finished? && turn.success
         then Some(Verdict(turn.collected, turn.matched, turn.log, turn.ttft)) else None
  }

  ghost predicate Logs(turns: seq<Turn>) {
    forall k :: 0 <= k < |turns| && turns[k].Finished? ==> |turns[k].log| == 3
  }

  /** The trials of these turns, in order. */
  ghost predicate TrialsOf(turns: seq<Turn>, results: seq<Trial>)
    requires Logs(turns)
  {
    |results| == |turns| && forall k :: 0 <= k < |turns| ==> Tells(turns[k], k, results[k])
  }

  /** The trial loop: a successful turn is reconciled, and fails after all if the gateway ran another model. */
  method RunTrials(turns: seq<Turn>) returns (results: seq<Trial>)
    requires Logs(turns)
    ensures TrialsOf(turns, results)
  {
    results := [];
    var i := 0;
    while i < |turns|
      invariant 0 <= i <= |turns| && |results| == i
      invariant forall k :: 0 <= k < i ==> Tells(turns[k], k, results[k])
    {
      var turn := turns[i];
      var trial := Trial(i + 1, false, None, None);
      if turn.Finished? {
        trial := Trial(i + 1, turn.success, turn.ttft, None);
        if turn.success {
          var reconciliation := ReconcileTrial(turn.collected, turn.matched, turn.log, turn.ttft);
          trial := trial.(reconciliation := Some(reconciliation), success := turn.sameModel);
        }
      }
      results := results + [trial];
      i := i + 1;
    }
  }

  lemma TrialsFromRun(turns: seq<Turn>, results: seq<Trial>)
    requires Logs(turns) && TrialsOf(turns, results)
    ensures FromRun(results)
  {
    forall k | 0 <= k < |results|
      ensures results[k].reconciliation.Some? && Collected(results[k].reconciliation.value) ==> results[k].ttft.Some?
    {
      assert Tells(turns[k], k, results[k]);
      if results[k].reconciliation.Some? {
        VerdictMeans(turns[k].collected, turns[k].matched, turns[k].log, turns[k].ttft);
      }
    }
  }

  lemma {:induction false} AllSucceeded(results: seq<Trial>)
    ensures Successful(results) <= |results|
    ensures Successful(results) == |results| <==> forall k :: 0 <= k < |results| ==> results[k].success
  {
    if results != [] { AllSucceeded(results[..|results| - 1]); }
  }

  /** With every trial successful the gate set is the run without its warm-up. */
  lemma {:induction false} GateIsTail(results: seq<Trial>, warmup: nat)
    requires warmup <= |results|
    requires forall k :: 0 <= k < |results| ==> results[k].ordinal == k + 1 && results[k].success
    ensures GateSet(results, warmup) == results[warmup..]
  {
    if results != [] {
      var init := results[..|results| - 1];
      if warmup < |results| {
        GateIsTail(init, warmup);
        TailGrows(results, warmup);
      } else {
        GateEmpty(results, warmup);
      }
    }
  }

  lemma TailGrows(results: seq<Trial>, n: nat)
    requires n < |results|
    ensures results[..|results| - 1][n..] + [results[|results| - 1]] == results[n..]
  {
  }

  lemma {:induction false} GateEmpty(results: seq<Trial>, warmup: nat)
    requires warmup >= |results| && forall k :: 0 <= k < |results| ==> results[k].ordinal == k + 1
    ensures GateSet(results, warmup) == []
  {
    if results != [] { GateEmpty(results[..|results| - 1], warmup); }
  }

  lemma {:induction false} TimesOfAll(trials: seq<Trial>)
    requires forall k :: 0 <= k < |trials| ==> trials[k].ttft.Some?
    ensures |Times(trials)| == |trials| && forall k :: 0 <= k < |trials| ==> Times(trials)[k] == trials[k].ttft.value
  {
    if trials != [] { TimesOfAll(trials[..|trials| - 1]); }
  }

  /** When a run is recordable, as conditions on all of its trials: none failed, all are reconciled within the lower
      bound and the ceiling, 99 in 100 within a quarter second but fewer without any residual, at least the minimum ran
      after the warm-up, and of those at least half are within the p50 ceiling and 95 in 100 within the p95 ceiling. */
  lemma RecordableExact(results: seq<Trial>, warmup: nat, p50Ceiling: int, p95Ceiling: int, minimum: nat)
    requires FromRun(results) && warmup < |results|
    ensures Recordable(results, warmup, p50Ceiling, p95Ceiling, minimum) <==>
              && |results| >= warmup + minimum
              && (forall k :: 0 <= k < |results| ==> results[k].success && TrialCertified(results[k]))
              && Small(results, CERT_P99) >= Rank(99, 100, |results|)
              && Small(results, 0) < Rank(99, 100, |results|)
              && AtMost(Times(results[warmup..]), p50Ceiling) >= Rank(50, 100, |results| - warmup)
              && AtMost(Times(results[warmup..]), p95Ceiling) >= Rank(95, 100, |results| - warmup)
  {
    CertificationExact(results);
    AllSucceeded(results);
    if forall k :: 0 <= k < |results| ==> results[k].success && TrialCertified(results[k]) {
      PassesExact(results, warmup, p50Ceiling, p95Ceiling);
    }
  }

  /** The time gate of a run whose trials all succeeded and are reconciled. */
  lemma PassesExact(results: seq<Trial>, warmup: nat, p50Ceiling: int, p95Ceiling: int)
    requires FromRun(results) && warmup < |results| && Successful(results) == |results|
    requires forall k :: 0 <= k < |results| ==> results[k].success && TrialCertified(results[k])
    ensures |GateSet(results, warmup)| == |results| - warmup
    ensures Passes(results, warmup, p50Ceiling, p95Ceiling) <==>
              && AtMost(Times(results[warmup..]), p50Ceiling) >= Rank(50, 100, |results| - warmup)
              && AtMost(Times(results[warmup..]), p95Ceiling) >= Rank(95, 100, |results| - warmup)
  {
    GateIsTail(results, warmup);
    AllTimed(results);
    CeilingsMet(results[warmup..], p50Ceiling, p95Ceiling);
  }

  /** Every turn of a recordable run finished well, on the model asked for, and its verdict has a residual. */
  lemma RecordableTurns(turns: seq<Turn>, results: seq<Trial>, warmup: nat, p50Ceiling: int, p95Ceiling: int,
                        minimum: nat, k: nat)
    requires Logs(turns) && TrialsOf(turns, results) && warmup < |results| && k < |turns|
    requires Recordable(results, warmup, p50Ceiling, p95Ceiling, minimum)
    ensures var turn := turns[k];
            && turn.Finished? && turn.success && turn.sameModel && turn.ttft.Some?
            && Verdict(turn.collected, turn.matched, turn.log, turn.ttft).residual.Some?
  {
    TrialsFromRun(turns, results);
    RecordableExact(results, warmup, p50Ceiling, p95Ceiling, minimum);
    AllTimed(results);
    assert Tells(turns[k], k, results[k]) && results[k].success && TrialCertified(results[k]);
  }

  lemma AllTimed(results: seq<Trial>)
    requires FromRun(results) && forall k :: 0 <= k < |results| ==> TrialCertified(results[k])
    ensures forall k :: 0 <= k < |results| ==> results[k].ttft.Some?
  {
    forall k | 0 <= k < |results| ensures results[k].ttft.Some? { assert TrialCertified(results[k]); }
  }

  lemma CeilingsMet(gate: seq<Trial>, p50Ceiling: int, p95Ceiling: int)
    requires gate != [] && forall k :: 0 <= k < |gate| ==> gate[k].ttft.Some?
    ensures var p50, p95 := Percentile(Times(gate), 50, 100), Percentile(Times(gate), 95, 100);
            && p50.Some? && p95.Some?
            && (p50.value <= p50Ceiling <==> AtMost(Times(gate), p50Ceiling) >= Rank(50, 100, |gate|))
            && (p95.value <= p95Ceiling <==> AtMost(Times(gate), p95Ceiling) >= Rank(95, 100, |gate|))
  {
    TimesOfAll(gate);
    PercentileBound(Times(gate), 50, 100, p50Ceiling);
    PercentileBound(Times(gate), 95, 100, p95Ceiling);
  }
}
