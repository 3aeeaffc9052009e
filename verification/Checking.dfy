/** `_execution_checks` as the runner computes it (scripts/real_agent_scenario_runner.py:1289-1677): the loops over
    the receipts, proved to decide the conditions of Lifecycle, and what a fully accepted stream means. */
module Checking {
  import opened Prelude
  import opened Sorting
  import opened Json
  import opened Summaries
  import opened Delegation
  import opened Lifecycle
  import opened Agreement

  // ---- Receipts by dispatch index ---------------------------------------------------------------

  /** Every receipt is found under its index. */
  ghost predicate Holds(byIndex: map<int, Receipt>, receipts: seq<Receipt>) {
    forall i :: 0 <= i < |receipts| ==>
      IndexOf(receipts[i]) in byIndex && byIndex[IndexOf(receipts[i])] == receipts[i]
  }

  /** `indexed`: the first receipt of each dispatch index, and whether nothing was skipped. */
  method IndexReceipts(receipts: seq<Receipt>, n: nat) returns (byIndex: map<int, Receipt>, valid: bool)
    ensures (valid && byIndex.Keys == Below(n)) == Indexed(receipts, n)
    ensures valid ==> Holds(byIndex, receipts)
  {
    byIndex, valid := map[], |receipts| == n;
    var clean, i := true, 0;
    while i < |receipts|
      invariant 0 <= i <= |receipts|
      invariant valid == (|receipts| == n && clean)
      invariant forall d :: d in byIndex ==> HasIndex(receipts[..i], d)
      invariant clean == (HaveIndexes(receipts[..i]) && UniqueIndexes(receipts[..i]))
      invariant forall a :: 0 <= a < i && HasIntIndex(receipts[a]) ==> IndexOf(receipts[a]) in byIndex
      invariant clean ==> forall a :: 0 <= a < i ==> byIndex[IndexOf(receipts[a])] == receipts[a]
    {
      var index := Get(receipts[i].fields, "dispatch_index");
      IndexStep(receipts, i);
      if !index.Int? || index.n in byIndex {
        valid, clean := false, false;
      } else {
        byIndex := byIndex[index.n := receipts[i]];
      }
      i := i + 1;
    }
    assert receipts[..i] == receipts;
    if valid { KeysAreIndexes(receipts, byIndex); }
  }

  lemma IndexStep(receipts: seq<Receipt>, i: nat)
    requires i < |receipts|
    ensures forall d :: HasIndex(receipts[..i], d) ==> HasIndex(receipts[..i + 1], d)
    ensures HasIndex(receipts[..i + 1], IndexOf(receipts[i]))
  {
    forall d | HasIndex(receipts[..i], d) ensures HasIndex(receipts[..i + 1], d) {
      var a :| 0 <= a < i && IndexOf(receipts[..i][a]) == d;
      assert IndexOf(receipts[..i + 1][a]) == d;
    }
    assert receipts[..i + 1][i] == receipts[i];
  }

  predicate HasIntIndex(r: Receipt) { Get(r.fields, "dispatch_index").Int? }

  predicate HaveIndexes(receipts: seq<Receipt>) {
    forall i :: 0 <= i < |receipts| ==> HasIntIndex(receipts[i])
  }

  predicate UniqueIndexes(receipts: seq<Receipt>) {
    forall i, j :: 0 <= i < j < |receipts| ==>
      Get(receipts[i].fields, "dispatch_index") != Get(receipts[j].fields, "dispatch_index")
  }

  /** As many different keys as there are receipts are 0..n-1 exactly when each key is below n. */
  lemma KeysBelow(s: seq<int>, keys: set<int>)
    requires Distinct(s) && forall d :: d in keys <==> d in s
    ensures keys == Below(|s|) <==> forall i :: 0 <= i < |s| ==> 0 <= s[i] < |s|
  {
    if keys == Below(|s|) {
      forall i | 0 <= i < |s| ensures 0 <= s[i] < |s| { assert s[i] in keys; }
    }
    if forall i :: 0 <= i < |s| ==> 0 <= s[i] < |s| { DistinctBelow(s, |s|); }
  }

  lemma IndexedMeans(receipts: seq<Receipt>)
    requires HaveIndexes(receipts) && UniqueIndexes(receipts)
    ensures Distinct(IndexesOf(receipts))
    ensures Indexed(receipts, |receipts|) <==>
              forall i :: 0 <= i < |receipts| ==> 0 <= IndexOf(receipts[i]) < |receipts|
  {
    assert forall i :: 0 <= i < |receipts| ==>
             HasIntIndex(receipts[i]) && IndexOf(receipts[i]) == Get(receipts[i].fields, "dispatch_index").n;
  }

  lemma KeysAreIndexes(receipts: seq<Receipt>, byIndex: map<int, Receipt>)
    requires HaveIndexes(receipts) && UniqueIndexes(receipts)
    requires forall d :: d in byIndex ==> HasIndex(receipts, d)
    requires forall a :: 0 <= a < |receipts| ==> IndexOf(receipts[a]) in byIndex
    ensures byIndex.Keys == Below(|receipts|) <==> Indexed(receipts, |receipts|)
  {
    IndexedMeans(receipts);
    SameKeys(receipts, byIndex);
    KeysBelow(IndexesOf(receipts), byIndex.Keys);
  }

  lemma SameKeys(receipts: seq<Receipt>, byIndex: map<int, Receipt>)
    requires forall d :: d in byIndex ==> HasIndex(receipts, d)
    requires forall a :: 0 <= a < |receipts| ==> IndexOf(receipts[a]) in byIndex
    ensures forall d :: d in byIndex.Keys <==> d in IndexesOf(receipts)
  {
    forall d ensures d in byIndex.Keys <==> d in IndexesOf(receipts) {
      if d in byIndex.Keys {
        var a :| 0 <= a < |receipts| && IndexOf(receipts[a]) == d;
        assert IndexesOf(receipts)[a] == d;
      }
    }
  }

  predicate PairUnder(scenario: Scenario, starts: map<int, Receipt>, finishes: map<int, Receipt>, d: nat,
                      attempt: string)
    requires d < |scenario.required|
  {
    d in starts && d in finishes && PairValid(scenario.required[d], starts[d], finishes[d], attempt)
  }

  /** The lifecycle of every required profile. */
  method CheckProfiles(scenario: Scenario, o: Observation, attempt: string) returns (valid: bool)
    ensures valid == ProfilesValid(scenario, o, attempt)
  {
    var n := |scenario.required|;
    var startsByIndex, startsIndexed := IndexReceipts(o.starts, n);
    var finishesByIndex, finishesIndexed := IndexReceipts(o.finishes, n);
    valid := attempt != "" && startsIndexed && finishesIndexed && startsByIndex.Keys == Below(n)
        && finishesByIndex.Keys == Below(n);
    if !valid { return; }
    valid := CheckPairs(scenario, startsByIndex, finishesByIndex, attempt);
    ProfilesDecide(scenario, o, startsByIndex, finishesByIndex, attempt);
  }

  /** The loop over the required profiles. */
  method CheckPairs(scenario: Scenario, starts: map<int, Receipt>, finishes: map<int, Receipt>, attempt: string)
    returns (valid: bool)
    requires starts.Keys == finishes.Keys == Below(|scenario.required|)
    ensures valid <==> forall k :: 0 <= k < |scenario.required| ==> PairUnder(scenario, starts, finishes, k, attempt)
  {
    var d := 0;
    while d < |scenario.required|
      invariant 0 <= d <= |scenario.required|
      invariant forall k :: 0 <= k < d ==> PairUnder(scenario, starts, finishes, k, attempt)
    {
      assert d in starts.Keys && d in finishes.Keys;
      if !PairValid(scenario.required[d], starts[d], finishes[d], attempt) {
        assert !PairUnder(scenario, starts, finishes, d, attempt);
        return false;
      }
      d := d + 1;
    }
    valid := true;
  }

  lemma ProfilesDecide(scenario: Scenario, o: Observation, starts: map<int, Receipt>, finishes: map<int, Receipt>,
                       attempt: string)
    requires attempt != "" && Indexed(o.starts, |scenario.required|) && Indexed(o.finishes, |scenario.required|)
    requires Holds(starts, o.starts) && Holds(finishes, o.finishes)
    ensures ProfilesValid(scenario, o, attempt) <==>
              forall k :: 0 <= k < |scenario.required| ==> PairUnder(scenario, starts, finishes, k, attempt)
  {
    if d :| 0 <= d < |scenario.required| && !PairUnder(scenario, starts, finishes, d, attempt) {
      PairedByIndex(scenario, o, starts, finishes, d, attempt);
    } else {
      AllPaired(scenario, o, starts, finishes, attempt);
    }
  }

  lemma AllPaired(scenario: Scenario, o: Observation, starts: map<int, Receipt>, finishes: map<int, Receipt>,
                  attempt: string)
    requires attempt != "" && Indexed(o.starts, |scenario.required|) && Indexed(o.finishes, |scenario.required|)
    requires Holds(starts, o.starts) && Holds(finishes, o.finishes)
    requires forall k :: 0 <= k < |scenario.required| ==> PairUnder(scenario, starts, finishes, k, attempt)
    ensures ProfilesValid(scenario, o, attempt)
  {
    forall a, b | 0 <= a < |o.starts| && 0 <= b < |o.finishes|
        && Get(o.starts[a].fields, "dispatch_index") == Get(o.finishes[b].fields, "dispatch_index")
      ensures PairValid(scenario.required[Get(o.starts[a].fields, "dispatch_index").n], o.starts[a], o.finishes[b],
                attempt)
    {
      assert PairUnder(scenario, starts, finishes, IndexOf(o.starts[a]), attempt);
    }
  }

  lemma PairedByIndex(scenario: Scenario, o: Observation, starts: map<int, Receipt>, finishes: map<int, Receipt>,
                      d: nat, attempt: string)
    requires d < |scenario.required| && Indexed(o.starts, |scenario.required|)
               && Indexed(o.finishes, |scenario.required|)
    requires Holds(starts, o.starts) && Holds(finishes, o.finishes)
    requires !PairUnder(scenario, starts, finishes, d, attempt)
    ensures !ProfilesValid(scenario, o, attempt)
  {
    IndexesPermute(o.starts, |scenario.required|);
    IndexesPermute(o.finishes, |scenario.required|);
    assert HasIndex(o.starts, d) && HasIndex(o.finishes, d);
    var a :| 0 <= a < |o.starts| && IndexOf(o.starts[a]) == d;
    var b :| 0 <= b < |o.finishes| && IndexOf(o.finishes[b]) == d;
    assert !PairValid(scenario.required[d], o.starts[a], o.finishes[b], attempt);
    assert Get(o.starts[a].fields, "dispatch_index") == Int(d) == Get(o.finishes[b].fields, "dispatch_index");
  }

  // ---- Overlaps ---------------------------------------------------------------------------------

  /** `observed_pairs`, and whether no entry was refused. */
  method CollectPairs(overlaps: seq<Overlap>) returns (pairs: map<(int, int), Overlap>, valid: bool)
    ensures valid == DistinctPairs(overlaps)
    ensures valid ==> forall k :: 0 <= k < |overlaps| ==>
              (overlaps[k].left, overlaps[k].right) in pairs
                  && pairs[(overlaps[k].left, overlaps[k].right)] == overlaps[k]
    ensures forall p :: p in pairs ==> exists k :: 0 <= k < |overlaps| && (overlaps[k].left, overlaps[k].right) == p
  {
    pairs, valid := map[], true;
    var i := 0;
    while i < |overlaps|
      invariant 0 <= i <= |overlaps|
      invariant valid == DistinctPairs(overlaps[..i])
      invariant forall p :: p in pairs ==> exists k :: 0 <= k < i && (overlaps[k].left, overlaps[k].right) == p
      invariant forall k :: 0 <= k < i && overlaps[k].left < overlaps[k].right ==>
                  (overlaps[k].left, overlaps[k].right) in pairs
      invariant valid ==> forall k :: 0 <= k < i ==> pairs[(overlaps[k].left, overlaps[k].right)] == overlaps[k]
    {
      var pair := (overlaps[i].left, overlaps[i].right);
      assert overlaps[..i + 1] == overlaps[..i] + [overlaps[i]];
      if pair.0 >= pair.1 || pair in pairs {
        valid := false;
      } else {
        pairs := pairs[pair := overlaps[i]];
      }
      i := i + 1;
    }
    assert overlaps[..i] == overlaps;
  }

  /** The pairs of numbers below n, smaller one first. */
  function ExpectedPairs(n: nat): (r: set<(int, int)>)
    ensures forall l, r' :: (l, r') in r <==> 0 <= l < r' < n
  {
    set l, r' | l in Below(n) && r' in Below(n) && l < r' :: (l, r')
  }

  predicate LongEnough(v: Overlap) { v.observed && v.ms >= MIN_PARALLEL_OVERLAP_MS }

  method CheckOverlaps(scenario: Scenario, o: Observation) returns (valid: bool)
    ensures valid == ParallelValid(scenario, o)
  {
    var n := |scenario.required|;
    var pairs, distinct := CollectPairs(o.overlaps);
    valid := distinct;
    if scenario.requireParallel {
      valid := distinct && pairs.Keys == ExpectedPairs(n) && forall p :: p in pairs ==> LongEnough(pairs[p]);
      if distinct { PairsDecide(scenario, o, pairs); }
    }
  }

  lemma PairsDecide(scenario: Scenario, o: Observation, pairs: map<(int, int), Overlap>)
    requires scenario.requireParallel && DistinctPairs(o.overlaps)
    requires forall k :: 0 <= k < |o.overlaps| ==>
               (o.overlaps[k].left, o.overlaps[k].right) in pairs
                   && pairs[(o.overlaps[k].left, o.overlaps[k].right)] == o.overlaps[k]
    requires forall p :: p in pairs ==>
               exists k :: 0 <= k < |o.overlaps| && (o.overlaps[k].left, o.overlaps[k].right) == p
    ensures (pairs.Keys == ExpectedPairs(|scenario.required|)
              && forall p :: p in pairs ==> LongEnough(pairs[p])) == ParallelValid(scenario, o)
  {
    var n := |scenario.required|;
    if pairs.Keys == ExpectedPairs(n) && forall p :: p in pairs ==> LongEnough(pairs[p]) {
      forall l: int, r: int | 0 <= l < r < n ensures PairListed(o.overlaps, l, r) { assert (l, r) in pairs.Keys; }
      forall k | 0 <= k < |o.overlaps|
        ensures 0 <= o.overlaps[k].left && o.overlaps[k].right < n && LongEnough(o.overlaps[k])
      {
        assert (o.overlaps[k].left, o.overlaps[k].right) in pairs.Keys;
      }
    }
    if ParallelValid(scenario, o) {
      forall l: int, r: int ensures (l, r) in pairs.Keys <==> (l, r) in ExpectedPairs(n) {
        if 0 <= l < r < n { assert PairListed(o.overlaps, l, r); }
      }
      assert pairs.Keys == ExpectedPairs(n);
    }
  }

  // ---- Tool receipts ----------------------------------------------------------------------------

  /** `normalized_starts`, `normalized_arguments` and the flag, built receipt by receipt. */
  method NormalizeStarts(loads: string -> Option<Json>, items: seq<Receipt>) returns (n: Normal)
    ensures n == MergeStarts(loads, items)
  {
    n := NO_STARTS;
    var i := 0;
    while i < |items|
      invariant 0 <= i <= |items|
      invariant n == MergeStarts(loads, items[..i])
    {
      assert items[..i + 1][..i] == items[..i];
      n := NormalizeStart(loads, n, items[i]);
      i := i + 1;
    }
    assert items[..i] == items;
  }

  /** One turn of that loop. */
  method NormalizeStart(loads: string -> Option<Json>, n: Normal, item: Receipt) returns (r: Normal)
    ensures r == MergeStart(loads, n, item)
  {
    var fields := item.fields;
    var starts, arguments, marks, malformed := n.starts, n.arguments, n.marks, n.malformed;
    if !AliasesConsistent(fields, CALL_KEYS) || !AliasesConsistent(fields, NAME_KEYS) { malformed := true; }
    var id := CallId(fields);
    if id == "" {
      malformed := true;
    } else {
      var merged := if id in starts then starts[id] else map[];
      if ToolName(merged) != "" && ToolName(fields) != "" && ToolName(merged) != ToolName(fields) { malformed := true; }
      merged := merged + (map k | k in fields && k != "arguments" && !Absent(fields[k]) :: fields[k]);
      marks := marks[id := MergeMark(marks, id, item)];
      var given := Get(fields, "arguments");
      if !Absent(given) {
        var parsed := if given.Str? then loads(given.s) else Some(given);
        if parsed.None? || (id in arguments && arguments[id] != parsed.value) {
          malformed := true;
        } else {
          arguments, merged := arguments[id := parsed.value], merged["arguments" := parsed.value];
        }
      }
      starts := starts[id := merged];
    }
    r := Normal(starts, arguments, marks, malformed);
  }

  /** The mark of one call among the starts: the least of its ordinals, with the last of its types. */
  ghost predicate MarkOf(items: seq<Receipt>, id: string, mark: Mark) {
    && (forall k :: 0 <= k < |items| && CallId(items[k].fields) == id ==> mark.ordinal <= items[k].ordinal)
    && (exists k :: 0 <= k < |items| && CallId(items[k].fields) == id && items[k].ordinal == mark.ordinal)
  }

  lemma MergeMarkStep(loads: string -> Option<Json>, n: Normal, item: Receipt, id: string)
    ensures var r := MergeStart(loads, n, item);
            if id != "" && CallId(item.fields) == id then id in r.marks && r.marks[id] == MergeMark(n.marks, id, item)
            else (id in r.marks <==> id in n.marks) && (id in n.marks ==> r.marks[id] == n.marks[id])
  {
  }

  lemma MarkGrows(items: seq<Receipt>, item: Receipt, id: string, marks: map<string, Mark>)
    requires id in marks ==> MarkOf(items, id, marks[id])
    requires id !in marks ==> forall k :: 0 <= k < |items| ==> CallId(items[k].fields) != id
    ensures CallId(item.fields) == id ==> MarkOf(items + [item], id, MergeMark(marks, id, item))
    ensures CallId(item.fields) != id && id in marks ==> MarkOf(items + [item], id, marks[id])
  {
    var all := items + [item];
    assert all[|items|] == item;
    if id in marks {
      var k :| 0 <= k < |items| && CallId(items[k].fields) == id && items[k].ordinal == marks[id].ordinal;
      assert all[k] == items[k];
    }
  }

  /** The merged ordinal of a call is the least its starts carry. */
  lemma {:induction false} MarksAreLeast(loads: string -> Option<Json>, items: seq<Receipt>, id: string)
    requires id != ""
    ensures id in MergeStarts(loads, items).marks <==> exists k :: 0 <= k < |items| && CallId(items[k].fields) == id
    ensures id in MergeStarts(loads, items).marks ==> MarkOf(items, id, MergeStarts(loads, items).marks[id])
  {
    if items != [] {
      var init, last := items[..|items| - 1], items[|items| - 1];
      MarksAreLeast(loads, init, id);
      MergeMarkStep(loads, MergeStarts(loads, init), last, id);
      MarkGrows(init, last, id, MergeStarts(loads, init).marks);
      assert items == init + [last];
    }
  }

  /** Every call id with results, each with all of its results in order. */
  ghost predicate Grouped(byCall: map<string, seq<Receipt>>, results: seq<Receipt>) {
    && (forall id :: id in byCall <==> id != "" && Answered(results, id))
    && (forall id :: id in byCall ==> byCall[id] == ResultsOf(results, id))
  }

  /** What the loop knows after the first `i` results. */
  ghost predicate ResultsTaken(starts: map<string, map<string, Json>>, results: seq<Receipt>, i: nat,
                               byCall: map<string, seq<Receipt>>, sound: bool)
    requires i <= |results|
  {
    Grouped(byCall, results[..i]) && sound == forall k :: 0 <= k < i ==> ResultWellFormed(starts, results[k])
  }

  /** `normalized_results`, and whether every result was well formed. */
  method GroupResults(starts: map<string, map<string, Json>>, results: seq<Receipt>)
    returns (byCall: map<string, seq<Receipt>>, sound: bool)
    ensures sound == ResultsWellFormed(starts, results)
    ensures Grouped(byCall, results)
  {
    byCall, sound := map[], true;
    var i := 0;
    while i < |results|
      invariant 0 <= i <= |results|
      invariant ResultsTaken(starts, results, i, byCall, sound)
    {
      byCall, sound := TakeResult(starts, results, i, byCall, sound);
      i := i + 1;
    }
    assert results[..i] == results;
  }

  method TakeResult(starts: map<string, map<string, Json>>, results: seq<Receipt>, i: nat,
                    byCall: map<string, seq<Receipt>>, sound: bool)
    returns (r: map<string, seq<Receipt>>, soundNow: bool)
    requires i < |results| && ResultsTaken(starts, results, i, byCall, sound)
    ensures ResultsTaken(starts, results, i + 1, r, soundNow)
  {
    soundNow := sound && ResultWellFormed(starts, results[i]);
    r := AddResult(byCall, results, i);
  }

  method AddResult(byCall: map<string, seq<Receipt>>, results: seq<Receipt>, i: nat)
    returns (r: map<string, seq<Receipt>>)
    requires i < |results| && Grouped(byCall, results[..i])
    ensures Grouped(r, results[..i + 1])
  {
    var id := CallId(results[i].fields);
    AnsweredStep(results, i);
    ResultsStep(results, i);
    if id !in byCall && id != "" { NoResults(results[..i], id); }
    r := byCall;
    if id != "" { r := byCall[id := (if id in byCall then byCall[id] else []) + [results[i]]]; }
  }

  lemma ResultsStep(results: seq<Receipt>, i: nat)
    requires i < |results|
    ensures forall id :: ResultsOf(results[..i + 1], id) == ResultsOf(results[..i], id)
              + if CallId(results[i].fields) == id then [results[i]] else []
  {
    assert results[..i + 1][..i] == results[..i];
  }

  lemma AnsweredStep(results: seq<Receipt>, i: nat)
    requires i < |results|
    ensures forall id :: Answered(results[..i + 1], id) <==>
              Answered(results[..i], id) || CallId(results[i].fields) == id
  {
    forall id
      ensures Answered(results[..i + 1], id) <==> Answered(results[..i], id) || CallId(results[i].fields) == id
    {
      if Answered(results[..i], id) {
        var k :| 0 <= k < i && CallId(results[..i][k].fields) == id;
        assert CallId(results[..i + 1][k].fields) == id;
      }
      assert results[..i + 1][i] == results[i];
    }
  }

  lemma {:induction false} NoResults(results: seq<Receipt>, id: string)
    requires !Answered(results, id)
    ensures ResultsOf(results, id) == []
  {
    if results != [] {
      var init := results[..|results| - 1];
      forall k | 0 <= k < |init| ensures CallId(init[k].fields) != id { assert init[k] == results[k]; }
      NoResults(init, id);
    }
  }

  // ---- All checks -------------------------------------------------------------------------------

  /** The attempt id of the run, if there is exactly one. */
  ghost predicate IsCurrentAttempt(o: Observation, attempt: string) {
    if |o.attemptIds| == 1 then o.attemptIds == {attempt} else attempt == ""
  }

  method CurrentAttempt(o: Observation) returns (attempt: string)
    ensures IsCurrentAttempt(o, attempt)
  {
    if |o.attemptIds| == 1 {
      attempt :| attempt in o.attemptIds;
      assert |o.attemptIds - {attempt}| == 0;
      assert o.attemptIds - {attempt} == {};
    } else {
      attempt := "";
    }
  }

  /** `spawn_call_id`: the one call of the delegation tool, if there is exactly one. */
  method FindSpawn(starts: map<string, map<string, Json>>) returns (spawn: Option<string>)
    ensures forall id :: SpawnIds(starts) == {id} <==> spawn == Some(id)
  {
    var ids := SpawnIds(starts);
    spawn := None;
    if |ids| == 1 {
      var id :| id in ids;
      assert |ids - {id}| == 0;
      assert ids - {id} == {};
      spawn := Some(id);
    }
  }

  /** The checks on the tool receipts, from the merged starts and the grouped results. */
  method CheckTools(scenario: Scenario, loads: string -> Option<Json>, argumentsOk: Json -> bool, o: Observation)
    returns (paired: bool, delegationCall: bool, aggregate: bool, noExtraTools: bool, completions: seq<Receipt>)
    ensures paired ==
              (ToolReceiptsSound(loads, o) && AnsweredExactly(MergeStarts(loads, o.toolStarts).starts, o.toolResults))
    ensures delegationCall == DelegationCallValid(scenario, loads, argumentsOk, o)
    ensures aggregate == AggregateValid(scenario, loads, argumentsOk, o)
    ensures noExtraTools == NoExtraTools(scenario, loads, o)
    ensures forall id :: SpawnIds(MergeStarts(loads, o.toolStarts).starts) == {id} ==>
              completions == Completions(ResultsOf(o.toolResults, id))
  {
    var n := NormalizeStarts(loads, o.toolStarts);
    var byCall, resultsSound := GroupResults(n.starts, o.toolResults);
    var sound := !n.malformed && resultsSound;
    paired := sound && n.starts.Keys == byCall.Keys;
    PairedKeys(n.starts, o.toolResults, byCall);
    var spawn := FindSpawn(n.starts);
    NoEmptyCall(loads, o.toolStarts);
    var mine := if spawn.Some? && spawn.value in byCall then byCall[spawn.value] else [];
    if spawn.Some? { SpawnResults(o.toolResults, byCall, spawn.value, mine); }
    completions := Completions(mine);
    if scenario.required == [] {
      delegationCall := SpawnIds(n.starts) == {};
      aggregate := true;
    } else {
      delegationCall := sound && spawn.Some? && argumentsOk(Get(n.starts[spawn.value], "arguments"));
      aggregate := delegationCall && |completions| == 1
          && forall k :: 0 <= k < |mine| ==> SpawnResultAcceptable(mine[k]);
    }
    noExtraTools := sound && (forall id :: id in n.starts ==> ToolName(n.starts[id]) == SPAWN)
      && if scenario.required == [] then n.starts.Keys == {} else spawn.Some? && n.starts.Keys == {spawn.value};
  }

  lemma {:induction false} NoEmptyCall(loads: string -> Option<Json>, items: seq<Receipt>)
    ensures "" !in MergeStarts(loads, items).starts
  {
    if items != [] { NoEmptyCall(loads, items[..|items| - 1]); }
  }

  lemma PairedKeys(starts: map<string, map<string, Json>>, results: seq<Receipt>, byCall: map<string, seq<Receipt>>)
    requires Grouped(byCall, results)
    ensures (starts.Keys == byCall.Keys) == AnsweredExactly(starts, results)
  {
    if starts.Keys == byCall.Keys {
      forall id ensures id in starts <==> id != "" && Answered(results, id) {
        assert id in starts.Keys <==> id in byCall.Keys;
      }
    }
    if AnsweredExactly(starts, results) {
      assert forall id :: id in starts.Keys <==> id in byCall.Keys;
    }
  }

  lemma SpawnResults(results: seq<Receipt>, byCall: map<string, seq<Receipt>>, id: string, mine: seq<Receipt>)
    requires Grouped(byCall, results)
    requires mine == if id in byCall then byCall[id] else []
    requires id != ""
    ensures mine == ResultsOf(results, id)
  {
    if id !in byCall { NoResults(results, id); }
  }

  /** `max` of the finish ordinals. */
  method LatestFinish(finishes: seq<Receipt>) returns (latest: nat)
    requires finishes != []
    ensures forall j :: 0 <= j < |finishes| ==> finishes[j].ordinal <= latest
    ensures exists j :: 0 <= j < |finishes| && finishes[j].ordinal == latest
  {
    latest := finishes[0].ordinal;
    var k := 1;
    while k < |finishes|
      invariant 1 <= k <= |finishes|
      invariant forall j :: 0 <= j < k ==> finishes[j].ordinal <= latest
      invariant exists j :: 0 <= j < k && finishes[j].ordinal == latest
    {
      if finishes[k].ordinal > latest { latest := finishes[k].ordinal; }
      k := k + 1;
    }
  }

  /** The order of finishes, completion and text, once everything it depends on has passed. */
  method CompareOrdinals(o: Observation, completions: seq<Receipt>, text: nat) returns (valid: bool)
    requires o.finishes != [] && |completions| == 1
    ensures valid == CompletionInOrder(o, completions, text)
  {
    var latest := LatestFinish(o.finishes);
    valid := latest < completions[0].ordinal < text;
  }

  method CheckOrder(scenario: Scenario, loads: string -> Option<Json>, argumentsOk: Json -> bool, o: Observation,
                    attempt: string,
                    terminal: bool, profiles: bool, aggregate: bool, completions: seq<Receipt>) returns (valid: bool)
    requires terminal == TerminalValid(o, attempt) && profiles == ProfilesValid(scenario, o, attempt)
    requires aggregate == AggregateValid(scenario, loads, argumentsOk, o)
    requires forall id :: SpawnIds(MergeStarts(loads, o.toolStarts).starts) == {id} ==>
               completions == Completions(ResultsOf(o.toolResults, id))
    ensures valid == SynthesisOrder(scenario, loads, argumentsOk, o, attempt)
  {
    OrderMeans(scenario, loads, argumentsOk, o, attempt, completions);
    var last := FinalText(o.texts);
    valid := terminal && last.Some? && last.value < o.terminals[0].ordinal;
    if valid && scenario.required != [] {
      valid := profiles && aggregate;
      if valid {
        HasFinish(scenario, o, attempt);
        OneCompletion(scenario, loads, argumentsOk, o, completions);
        valid := CompareOrdinals(o, completions, last.value);
      }
    }
  }

  lemma OrderMeans(scenario: Scenario, loads: string -> Option<Json>, argumentsOk: Json -> bool, o: Observation,
                   attempt: string,
                   completions: seq<Receipt>)
    requires forall id :: SpawnIds(MergeStarts(loads, o.toolStarts).starts) == {id} ==>
               completions == Completions(ResultsOf(o.toolResults, id))
    ensures SynthesisOrder(scenario, loads, argumentsOk, o, attempt) <==>
              && TerminalValid(o, attempt) && FinalText(o.texts).Some?
                   && FinalText(o.texts).value < o.terminals[0].ordinal
              && (scenario.required != [] ==>
                    && ProfilesValid(scenario, o, attempt) && AggregateValid(scenario, loads, argumentsOk, o)
                    && CompletionInOrder(o, completions, FinalText(o.texts).value))
  {
    if scenario.required != [] && AggregateValid(scenario, loads, argumentsOk, o) {
      OneCompletion(scenario, loads, argumentsOk, o, completions);
    }
  }

  lemma HasFinish(scenario: Scenario, o: Observation, attempt: string)
    requires ProfilesValid(scenario, o, attempt) && scenario.required != []
    ensures o.finishes != []
  {
  }

  lemma OneCompletion(scenario: Scenario, loads: string -> Option<Json>, argumentsOk: Json -> bool, o: Observation,
                      completions: seq<Receipt>)
    requires scenario.required != [] && AggregateValid(scenario, loads, argumentsOk, o)
    requires forall id :: SpawnIds(MergeStarts(loads, o.toolStarts).starts) == {id} ==>
               completions == Completions(ResultsOf(o.toolResults, id))
    ensures |completions| == 1
    ensures exists id :: SpawnIds(MergeStarts(loads, o.toolStarts).starts) == {id}
  {
  }

  /** The three checks on the prompt and the delegation object, given the parsed arguments of the one delegation
      call. */
  method CheckDelegation(scenario: Scenario, host: Host, promptDigest: string, sound: bool, spawn: bool,
                         arguments: Json)
    returns (prompt: bool, canonical: bool, taskPrompts: bool)
    ensures prompt == PromptValid(scenario, host, promptDigest)
    ensures canonical == CanonicalValid(scenario, host, arguments)
    ensures taskPrompts == (scenario.required != [] ==> sound && spawn && PromptsValid(scenario, host, arguments))
  {
    prompt := promptDigest == host.sha(host.candidate(scenario.prompt, scenario.canonical));
    canonical := CanonicalValid(scenario, host, arguments);
    taskPrompts := scenario.required == [];
    if sound && spawn && scenario.required != [] && ShapeValid(scenario, arguments) {
      taskPrompts := CheckPrompts(scenario, host, Get(Normalized(arguments).value.fields, TASKS).items);
    }
  }

  /** The parsed arguments of the one delegation call. */
  method FindArguments(host: Host, o: Observation) returns (sound: bool, spawn: bool, arguments: Json)
    ensures sound == ToolReceiptsSound(host.loads, o)
    ensures spawn == exists id :: SpawnIds(MergeStarts(host.loads, o.toolStarts).starts) == {id}
    ensures arguments == Parsed(host, SpawnArguments(MergeStarts(host.loads, o.toolStarts).starts))
  {
    var n := NormalizeStarts(host.loads, o.toolStarts);
    var byCall, resultsSound := GroupResults(n.starts, o.toolResults);
    sound := !n.malformed && resultsSound;
    var call := FindSpawn(n.starts);
    spawn := call.Some?;
    if spawn { assert SpawnIds(n.starts) == {call.value} && call.value in SpawnIds(n.starts); }
    arguments := Parsed(host, if spawn then Get(n.starts[call.value], "arguments") else Null);
  }

  /** The three checks on the prompt and the delegation object, from the receipts. */
  method DelegationChecks(scenario: Scenario, host: Host, promptDigest: string, o: Observation)
    returns (prompt: bool, canonical: bool, taskPrompts: bool)
    ensures prompt == PromptValid(scenario, host, promptDigest)
    ensures canonical == CanonicalValid(scenario, host,
                                        Parsed(host, SpawnArguments(MergeStarts(host.loads, o.toolStarts).starts)))
    ensures taskPrompts == TaskPromptsValid(scenario, host, o)
  {
    var sound, spawn, arguments := FindArguments(host, o);
    prompt, canonical, taskPrompts := CheckDelegation(scenario, host, promptDigest, sound, spawn, arguments);
  }

  /** The checks on the tool receipts, and the order of finishes, completion, text and end. */
  method ToolChecks(scenario: Scenario, loads: string -> Option<Json>, argumentsOk: Json -> bool, o: Observation,
                    attempt: string, terminal: bool, profiles: bool)
    returns (paired: bool, delegationCall: bool, aggregate: bool, noExtraTools: bool, order: bool)
    requires terminal == TerminalValid(o, attempt) && profiles == ProfilesValid(scenario, o, attempt)
    ensures paired ==
              (ToolReceiptsSound(loads, o) && AnsweredExactly(MergeStarts(loads, o.toolStarts).starts, o.toolResults))
    ensures delegationCall == DelegationCallValid(scenario, loads, argumentsOk, o)
    ensures aggregate == AggregateValid(scenario, loads, argumentsOk, o)
    ensures noExtraTools == NoExtraTools(scenario, loads, o)
    ensures order == SynthesisOrder(scenario, loads, argumentsOk, o, attempt)
  {
    var completions: seq<Receipt>;
    paired, delegationCall, aggregate, noExtraTools, completions := CheckTools(scenario, loads, argumentsOk, o);
    order := CheckOrder(scenario, loads, argumentsOk, o, attempt, terminal, profiles, aggregate, completions);
  }

  /** `_execution_checks`. */
  method ExecutionChecks(scenario: Scenario, host: Host, promptDigest: string, o: Observation)
    returns (attempt: string, c: Checks)
    ensures IsCurrentAttempt(o, attempt)
    ensures ChecksAre(c, scenario, host, promptDigest, o, attempt)
  {
    attempt := CurrentAttempt(o);
    var ok := ArgumentsCheck(scenario, host);
    var profiles := CheckProfiles(scenario, o, attempt);
    var terminal := TerminalValid(o, attempt);
    var parallel := CheckOverlaps(scenario, o);
    var prompt, canonical, taskPrompts := DelegationChecks(scenario, host, promptDigest, o);
    var paired, delegationCall, aggregate, noExtraTools, order :=
      ToolChecks(scenario, host.loads, ok, o, attempt, terminal, profiles);
    c := Checks(terminal, prompt, profiles, parallel, canonical, taskPrompts, paired, delegationCall, aggregate,
                noExtraTools, order);
  }

  // ---- Between the checks -----------------------------------------------------------------------

  /** For a validated scenario whose tasks name their children plainly the checks on the delegation object depend on
      each other: once the receipts are sound and there is one delegation call, the canonical object alone decides the
      call and the task prompts. */
  lemma CanonicalDecides(c: Checks, scenario: Scenario, host: Host, promptDigest: string, o: Observation,
                         attempt: string, tasks: seq<Json>)
    requires ChecksAre(c, scenario, host, promptDigest, o, attempt)
    requires scenario.required != [] && ContractTasks(scenario, host, tasks) && PlainScenario(scenario, tasks)
    ensures c.canonical && c.paired && c.noExtraTools ==> c.delegationCall && c.taskPrompts
    ensures c.delegationCall ==> c.canonical && c.taskPrompts
  {
    var starts := MergeStarts(host.loads, o.toolStarts).starts;
    var arguments := Parsed(host, SpawnArguments(starts));
    if c.canonical { CanonicalIsEnough(scenario, host, arguments, tasks); }
    forall id | SpawnIds(starts) == {id} ensures Get(starts[id], "arguments") == SpawnArguments(starts) {
      OneSpawn(starts, id);
    }
    if c.delegationCall {
      var id :| SpawnIds(starts) == {id} && DelegationOk(scenario, host, Get(starts[id], "arguments"));
      CanonicalIsEnough(scenario, host, arguments, tasks);
    }
  }

  lemma OneSpawn(starts: map<string, map<string, Json>>, id: string)
    requires SpawnIds(starts) == {id}
    ensures id in starts && Get(starts[id], "arguments") == SpawnArguments(starts)
  {
    assert id in SpawnIds(starts);
    forall other | SpawnIds(starts) == {other} ensures other == id { assert other in SpawnIds(starts); }
  }
}
