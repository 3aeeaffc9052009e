/** The summariser of the event stream (scripts/real_agent_scenario_runner.py:693-876) and the judge's
    independent reconstruction of it (scripts/judge_real_agent_receipts.py:851-872). */
module Summaries {
  import opened Prelude
  import opened Sorting
  import opened Strings
  import opened Json

  /** The event types the scripts name; any other one is kept by name. */
  datatype EventType =
    | RunFinished | RunError | RunCancelled | RunBlocked
    | TextDelta | TextMessageContent
    | ToolCallStart | ToolCallStarted
    | ToolCallResult | ToolCallCompleted | ToolResult
    | SubagentStarted | SubagentFinished
    | OtherType(name: string)

  datatype Event = Event(eventType: EventType, data: Json)

  /** A whitelisted receipt together with the ordinal and type of the event it came from. */
  datatype Receipt = Receipt(ordinal: nat, eventType: EventType, fields: map<string, Json>)
  datatype TextReceipt = TextReceipt(ordinal: nat, eventType: EventType, text: string)
  datatype Mark = Mark(ordinal: nat, eventType: EventType)
  datatype Overlap = Overlap(left: int, right: int, observed: bool, ms: real)

  datatype Observation = Observation(
    starts: seq<Receipt>, finishes: seq<Receipt>, toolStarts: seq<Receipt>, toolResults: seq<Receipt>,
    terminals: seq<Receipt>, texts: seq<TextReceipt>, sequence: seq<Mark>, overlaps: seq<Overlap>,
    attemptIds: set<string>, eventCounts: map<EventType, nat>)

  const TERMINAL_EVENTS: set<EventType> := {RunFinished, RunError, RunCancelled, RunBlocked}
  const TEXT_EVENTS: set<EventType> := {TextDelta, TextMessageContent}
  const TOOL_START_EVENTS: set<EventType> := {ToolCallStart, ToolCallStarted}
  const TOOL_RESULT_EVENTS: set<EventType> := {ToolCallResult, ToolCallCompleted, ToolResult}

  const START_FIELDS: set<string> :=
    {"agent_id", "agent_type", "profile_id", "source_plugin", "definition_sha256", "dispatch_index", "attempt_id",
     "started_monotonic_ms"}
  const FINISH_FIELDS: set<string> :=
    START_FIELDS + {"status", "finished_monotonic_ms", "duration_ms", "tool_calls", "result_summary", "error"}
  const TOOL_START_FIELDS: set<string> :=
    {"tool_call_id", "call_id", "tool_id", "name", "tool_name", "attempt_id", "arguments"}
  const TOOL_RESULT_FIELDS: set<string> :=
    {"tool_call_id", "call_id", "tool_id", "name", "tool_name", "attempt_id", "success", "status", "error",
        "error_code",
     "side_effect_state", "result", "result_preview"}
  const TERMINAL_FIELDS: set<string> := {"attempt_id", "run_id", "status", "error", "error_code", "duration_ms"}
  const ENVELOPE_FIELDS: set<string> := {"attempt_id", "run_id", "tenant_id", "status"}
  const INHERITED_FIELDS: set<string> := {"agent_type", "profile_id", "source_plugin", "definition_sha256"}

  // ---- Python helpers ---------------------------------------------------------------------------

  predicate Truthy(j: Json) {
    match j
    case Null => false
    case Bool(b) => b
    case Int(n) => n != 0
    case Real(r) => r != 0.0
    case Str(s) => s != ""
    case Arr(items) => items != []
    case Obj(fields) => fields != map[]
  }

  /** `str(j)`; a number with a fraction or a container prints to something without a colon here. */
  function Printed(j: Json): string {
    match j
    case Null => "None"
    case Bool(b) => if b then "True" else "False"
    case Int(n) => if n < 0 then "-" + Decimal(-n) else Decimal(n)
    case Str(s) => s
    case _ => "<value>"
  }

  /** `item.get(key)`. */
  function Get(fields: map<string, Json>, key: string): Json {
    if key in fields then fields[key] else Null
  }

  /** `str(item.get(key) or "")`. */
  function TextField(fields: map<string, Json>, key: string): string {
    if Truthy(Get(fields, key)) then Printed(Get(fields, key)) else ""
  }

  function Whitelist(data: Json, allowed: set<string>): map<string, Json> {
    if data.Obj? then map k | k in data.fields && k in allowed :: data.fields[k] else map[]
  }

  function EventText(data: Json): string {
    match data
    case Str(s) => s
    case Obj(fields) =>
      if Get(fields, "content").Str? then fields["content"].s
      else if Get(fields, "message").Str? then fields["message"].s
      else if Get(fields, "delta").Str? then fields["delta"].s
      else ""
    case _ => ""
  }

  function TerminalFields(data: Json): map<string, Json> {
    var kept := Whitelist(data, TERMINAL_FIELDS);
    var metadata := if data.Obj? then Get(data.fields, "metadata") else Null;
    var envelope := if metadata.Obj? then Get(metadata.fields, "terminal_envelope") else Null;
    if envelope.Obj? then kept["terminal_envelope" := Obj(Whitelist(envelope, ENVELOPE_FIELDS))] else kept
  }

  // ---- What each list must hold -----------------------------------------------------------------

  datatype Kind = TextKind | StartKind | FinishKind | ToolStartKind | ToolResultKind | TerminalKind | OtherKind

  function KindOf(eventType: EventType): Kind {
    if eventType in TEXT_EVENTS then TextKind
    else if eventType == SubagentStarted then StartKind
    else if eventType == SubagentFinished then FinishKind
    else if eventType in TOOL_START_EVENTS then ToolStartKind
    else if eventType in TOOL_RESULT_EVENTS then ToolResultKind
    else if eventType in TERMINAL_EVENTS then TerminalKind
    else OtherKind
  }

  function FieldsOf(kind: Kind, data: Json): map<string, Json> {
    match kind
    case StartKind => Whitelist(data, START_FIELDS)
    case FinishKind => Whitelist(data, FINISH_FIELDS)
    case ToolStartKind => Whitelist(data, TOOL_START_FIELDS)
    case ToolResultKind => Whitelist(data, TOOL_RESULT_FIELDS)
    case TerminalKind => TerminalFields(data)
    case _ => map[]
  }

  /** The receipts of one kind among the first `n` events, in order. */
  function ReceiptsOf(events: seq<Event>, n: nat, kind: Kind): seq<Receipt>
    requires n <= |events|
  {
    if n == 0 then []
    else
      var e := events[n - 1];
      ReceiptsOf(events, n - 1, kind) +
        if KindOf(e.eventType) == kind then [Receipt(n - 1, e.eventType, FieldsOf(kind, e.data))] else []
  }

  function TextsOf(events: seq<Event>, n: nat): seq<TextReceipt>
    requires n <= |events|
  {
    if n == 0 then []
    else
      var e := events[n - 1];
      TextsOf(events, n - 1) +
        if KindOf(e.eventType) == TextKind then [TextReceipt(n - 1, e.eventType, EventText(e.data))] else []
  }

  /** The marks of every event that has a kind. */
  function MarksOf(events: seq<Event>, n: nat): seq<Mark>
    requires n <= |events|
  {
    if n == 0 then []
    else
      var e := events[n - 1];
      MarksOf(events, n - 1) + if KindOf(e.eventType) != OtherKind then [Mark(n - 1, e.eventType)] else []
  }

  function CountOf(events: seq<Event>, n: nat, eventType: EventType): nat
    requires n <= |events|
  {
    if n == 0 then 0
    else CountOf(events, n - 1, eventType) + if events[n - 1].eventType == eventType then 1 else 0
  }

  ghost predicate CountsOf(counts: map<EventType, nat>, events: seq<Event>, n: nat)
    requires n <= |events|
  {
    forall t :: CountOf(events, n, t) == if t in counts then counts[t] else 0
  }

  /** The parent attempt named by an event, if any. */
  function AttemptOf(e: Event): string {
    if e.data.Obj? then TextField(e.data.fields, "attempt_id") else ""
  }

  ghost predicate AttemptsOf(attempts: set<string>, events: seq<Event>, n: nat)
    requires n <= |events|
  {
    forall a :: a in attempts <==> a != "" && exists k :: 0 <= k < n && AttemptOf(events[k]) == a
  }

  // ---- Finishes inherit from starts -------------------------------------------------------------

  /** The last start receipt of an agent. */
  function StartOf(starts: seq<Receipt>, agent: string): map<string, Json> {
    if starts == [] then map[]
    else
      var last := starts[|starts| - 1];
      if agent != "" && TextField(last.fields, "agent_id") == agent then last.fields
      else StartOf(starts[..|starts| - 1], agent)
  }

  function Inherit(starts: seq<Receipt>, finish: Receipt): Receipt {
    var started := StartOf(starts, TextField(finish.fields, "agent_id"));
    finish.(fields := (map k | k in started && k in INHERITED_FIELDS :: started[k]) + finish.fields)
  }

  function InheritAll(starts: seq<Receipt>, finishes: seq<Receipt>): (r: seq<Receipt>)
    ensures |r| == |finishes| && forall i :: 0 <= i < |r| ==> r[i] == Inherit(starts, finishes[i])
  {
    seq(|finishes|, i requires 0 <= i < |finishes| => Inherit(starts, finishes[i]))
  }

  // ---- Overlaps ---------------------------------------------------------------------------------

  predicate Numeric(j: Json) {
    j.Int? || j.Real?
  }

  function Number(j: Json): real
    requires Numeric(j)
  {
    if j.Int? then j.n as real else j.r
  }

  function Min(a: real, b: real): real { if a <= b then a else b }
  function Max(a: real, b: real): real { if a >= b then a else b }

  /** Finishes by dispatch index; a later one replaces an earlier one. */
  function ByIndex(finishes: seq<Receipt>): map<int, Receipt> {
    if finishes == [] then map[]
    else
      var last := finishes[|finishes| - 1];
      var index := Get(last.fields, "dispatch_index");
      var earlier := ByIndex(finishes[..|finishes| - 1]);
      if index.Int? then earlier[index.n := last] else earlier
  }

  function OverlapOf(left: int, right: int, l: Receipt, r: Receipt): Overlap {
    var ls, lf := Get(l.fields, "started_monotonic_ms"), Get(l.fields, "finished_monotonic_ms");
    var rs, rf := Get(r.fields, "started_monotonic_ms"), Get(r.fields, "finished_monotonic_ms");
    if Numeric(ls) && Numeric(lf) && Numeric(rs) && Numeric(rf) then
      var ms := Max(0.0, Min(Number(lf), Number(rf)) - Max(Number(ls), Number(rs)));
      Overlap(left, right, ms > 0.0, ms)
    else Overlap(left, right, false, 0.0)
  }

  /** One entry for each pair of increasing indexes, in lexicographic order. */
  function OverlapsFrom(byIndex: map<int, Receipt>, keys: seq<int>): seq<Overlap>
    requires forall k :: k in keys ==> k in byIndex
  {
    if keys == [] then []
    else OverlapRow(byIndex, keys[0], keys[1..]) + OverlapsFrom(byIndex, keys[1..])
  }

  function OverlapRow(byIndex: map<int, Receipt>, left: int, rights: seq<int>): (r: seq<Overlap>)
    requires left in byIndex && forall k :: k in rights ==> k in byIndex
    ensures |r| == |rights|
              && forall i :: 0 <= i < |r| ==> r[i] == OverlapOf(left, rights[i], byIndex[left], byIndex[rights[i]])
  {
    seq(|rights|, i requires 0 <= i < |rights| => OverlapOf(left, rights[i], byIndex[left], byIndex[rights[i]]))
  }

  /** The overlap list: the pairs of the sorted dispatch indexes of the finishes. */
  ghost predicate OverlapListOf(overlaps: seq<Overlap>, finishes: seq<Receipt>) {
    var byIndex := ByIndex(finishes);
    exists keys: seq<int> ::
      && (forall i, j :: 0 <= i < j < |keys| ==> keys[i] < keys[j])
      && (forall k :: k in keys <==> k in byIndex)
      && overlaps == OverlapsFrom(byIndex, keys)
  }

  // ---- The summariser ---------------------------------------------------------------------------

  /** What a summary of `events` is. */
  ghost predicate Summarises(o: Observation, events: seq<Event>) {
    var n := |events|;
    && o.starts == ReceiptsOf(events, n, StartKind)
    && o.finishes == InheritAll(o.starts, ReceiptsOf(events, n, FinishKind))
    && o.toolStarts == ReceiptsOf(events, n, ToolStartKind)
    && o.toolResults == ReceiptsOf(events, n, ToolResultKind)
    && o.terminals == ReceiptsOf(events, n, TerminalKind)
    && o.texts == TextsOf(events, n)
    && o.sequence == MarksOf(events, n)
    && OverlapListOf(o.overlaps, o.finishes)
    && AttemptsOf(o.attemptIds, events, n)
    && CountsOf(o.eventCounts, events, n)
  }

  /** The lists after `n` events. */
  ghost predicate ListsOf(o: Observation, events: seq<Event>, n: nat)
    requires n <= |events|
  {
    && o.starts == ReceiptsOf(events, n, StartKind)
    && o.finishes == ReceiptsOf(events, n, FinishKind)
    && o.toolStarts == ReceiptsOf(events, n, ToolStartKind)
    && o.toolResults == ReceiptsOf(events, n, ToolResultKind)
    && o.terminals == ReceiptsOf(events, n, TerminalKind)
    && o.texts == TextsOf(events, n)
    && o.sequence == MarksOf(events, n)
  }

  /** The state of the loop after `n` events. */
  ghost predicate Collected(o: Observation, events: seq<Event>, n: nat)
    requires n <= |events|
  {
    && ListsOf(o, events, n)
    && AttemptsOf(o.attemptIds, events, n)
    && CountsOf(o.eventCounts, events, n)
  }

  /** The lists take the event by its type. */
  method AppendToLists(o: Observation, ghost events: seq<Event>, n: nat, e: Event) returns (r: Observation)
    requires n < |events| && e == events[n] && ListsOf(o, events, n)
    ensures ListsOf(r, events, n + 1) && r.eventCounts == o.eventCounts && r.attemptIds == o.attemptIds
  {
    var t, data := e.eventType, e.data;
    r := o;
    if t in TEXT_EVENTS { r := r.(texts := r.texts + [TextReceipt(n, t, EventText(data))]); }
    if t == SubagentStarted {
      r := r.(starts := r.starts + [Receipt(n, t, Whitelist(data, START_FIELDS))]);
    } else if t == SubagentFinished {
      r := r.(finishes := r.finishes + [Receipt(n, t, Whitelist(data, FINISH_FIELDS))]);
    } else if t in TOOL_START_EVENTS {
      r := r.(toolStarts := r.toolStarts + [Receipt(n, t, Whitelist(data, TOOL_START_FIELDS))]);
    } else if t in TOOL_RESULT_EVENTS {
      r := r.(toolResults := r.toolResults + [Receipt(n, t, Whitelist(data, TOOL_RESULT_FIELDS))]);
    } else if t in TERMINAL_EVENTS {
      r := r.(terminals := r.terminals + [Receipt(n, t, TerminalFields(data))]);
    }
    if t in TEXT_EVENTS + TOOL_START_EVENTS + TOOL_RESULT_EVENTS + TERMINAL_EVENTS
        + {SubagentStarted, SubagentFinished} {
      r := r.(sequence := r.sequence + [Mark(n, t)]);
    }
  }

  /** One turn of the loop. */
  method AppendEvent(o: Observation, ghost events: seq<Event>, n: nat, e: Event) returns (r: Observation)
    requires n < |events| && e == events[n] && Collected(o, events, n)
    ensures Collected(r, events, n + 1)
  {
    r := AppendToLists(o, events, n, e);
    var t := e.eventType;
    r := r.(eventCounts := r.eventCounts[t := (if t in r.eventCounts then r.eventCounts[t] else 0) + 1]);
    if AttemptOf(e) != "" { r := r.(attemptIds := r.attemptIds + {AttemptOf(e)}); }
    AttemptsStep(o.attemptIds, events, n);
  }

  lemma AttemptsStep(attempts: set<string>, events: seq<Event>, n: nat)
    requires n < |events| && AttemptsOf(attempts, events, n)
    ensures var a := AttemptOf(events[n]);
            AttemptsOf(if a != "" then attempts + {a} else attempts, events, n + 1)
  {
    assert AttemptOf(events[n]) == AttemptOf(events[n]);
  }

  lemma NothingCollected(o: Observation, events: seq<Event>)
    requires o == Observation([], [], [], [], [], [], [], [], {}, map[])
    ensures Collected(o, events, 0)
  {
  }

  /** The loop over the events. */
  method CollectEvents(events: seq<Event>) returns (o: Observation)
    ensures Collected(o, events, |events|)
  {
    o := Observation([], [], [], [], [], [], [], [], {}, map[]);
    NothingCollected(o, events);
    var n := 0;
    while n < |events|
      invariant 0 <= n <= |events|
      invariant Collected(o, events, n)
    {
      o := AppendEvent(o, events, n, events[n]);
      n := n + 1;
    }
  }

  /** `summarize_sse_events`. */
  method SummarizeSseEvents(events: seq<Event>) returns (o: Observation)
    ensures Summarises(o, events)
  {
    var lists := CollectEvents(events);
    var merged := InheritFields(lists.starts, lists.finishes);
    var overlaps := ParallelOverlaps(merged);
    o := lists.(finishes := merged, overlaps := overlaps);
  }

  /** The dictionary of starts by agent. */
  ghost predicate StartsByAgent(byAgent: map<string, Receipt>, starts: seq<Receipt>) {
    "" !in byAgent && forall a :: StartOf(starts, a) == if a in byAgent then byAgent[a].fields else map[]
  }

  method IndexStarts(starts: seq<Receipt>) returns (byAgent: map<string, Receipt>)
    ensures StartsByAgent(byAgent, starts)
  {
    byAgent := map[];
    var i := 0;
    while i < |starts|
      invariant 0 <= i <= |starts|
      invariant StartsByAgent(byAgent, starts[..i])
    {
      var agent := TextField(starts[i].fields, "agent_id");
      assert starts[..i + 1][..i] == starts[..i];
      if agent != "" { byAgent := byAgent[agent := starts[i]]; }
      i := i + 1;
    }
    assert starts[..i] == starts;
  }

  /** The fields each finish takes from the start of its agent. */
  method InheritFields(starts: seq<Receipt>, finishes: seq<Receipt>) returns (merged: seq<Receipt>)
    ensures merged == InheritAll(starts, finishes)
  {
    var startByAgent := IndexStarts(starts);
    merged := [];
    var k := 0;
    while k < |finishes|
      invariant 0 <= k <= |finishes| && |merged| == k
      invariant forall j :: 0 <= j < k ==> merged[j] == Inherit(starts, finishes[j])
    {
      var agent := TextField(finishes[k].fields, "agent_id");
      var started := if agent in startByAgent then startByAgent[agent].fields else map[];
      assert started == StartOf(starts, agent);
      var inherited := map f | f in started && f in INHERITED_FIELDS && f !in finishes[k].fields :: started[f];
      var fields := finishes[k].fields + inherited;
      assert fields == Inherit(starts, finishes[k]).fields;
      merged := merged + [finishes[k].(fields := fields)];
      k := k + 1;
    }
  }

  /** `by_index`, with its keys in insertion order. */
  method IndexFinishes(finishes: seq<Receipt>) returns (byIndex: map<int, Receipt>, inserted: seq<int>)
    ensures byIndex == ByIndex(finishes)
    ensures Distinct(inserted) && forall k :: k in inserted <==> k in byIndex
  {
    byIndex, inserted := map[], [];
    var i := 0;
    while i < |finishes|
      invariant 0 <= i <= |finishes|
      invariant byIndex == ByIndex(finishes[..i])
      invariant Distinct(inserted) && forall k :: k in inserted <==> k in byIndex
    {
      assert finishes[..i + 1][..i] == finishes[..i];
      var index := Get(finishes[i].fields, "dispatch_index");
      if index.Int? {
        if index.n !in byIndex { inserted := inserted + [index.n]; }
        byIndex := byIndex[index.n := finishes[i]];
      }
      i := i + 1;
    }
    assert finishes[..i] == finishes;
  }

  /** The inner loop: one left index against the larger ones. */
  method PairRow(byIndex: map<int, Receipt>, left: int, rights: seq<int>) returns (row: seq<Overlap>)
    requires left in byIndex && forall k :: k in rights ==> k in byIndex
    ensures row == OverlapRow(byIndex, left, rights)
  {
    row := [];
    var r := 0;
    while r < |rights|
      invariant 0 <= r <= |rights|
      invariant row == OverlapRow(byIndex, left, rights)[..r]
    {
      row := row + [OverlapOf(left, rights[r], byIndex[left], byIndex[rights[r]])];
      r := r + 1;
    }
  }

  /** The outer loop over the sorted indexes. */
  method PairOverlaps(byIndex: map<int, Receipt>, keys: seq<int>) returns (overlaps: seq<Overlap>)
    requires forall k :: k in keys ==> k in byIndex
    ensures overlaps == OverlapsFrom(byIndex, keys)
  {
    overlaps := [];
    var l := 0;
    while l < |keys|
      invariant 0 <= l <= |keys|
      invariant OverlapsFrom(byIndex, keys) == overlaps + OverlapsFrom(byIndex, keys[l..])
    {
      var row := PairRow(byIndex, keys[l], keys[l + 1..]);
      assert keys[l..][0] == keys[l] && keys[l..][1..] == keys[l + 1..];
      overlaps := overlaps + row;
      l := l + 1;
    }
  }

  /** The pairwise overlaps of the finishes, by dispatch index. */
  method ParallelOverlaps(finishes: seq<Receipt>) returns (overlaps: seq<Overlap>)
    ensures OverlapListOf(overlaps, finishes)
  {
    var byIndex, inserted := IndexFinishes(finishes);
    SortedKeys(inserted);
    overlaps := PairOverlaps(byIndex, Sort(IntLeq, inserted));
  }

  lemma SortedKeys(inserted: seq<int>)
    requires Distinct(inserted)
    ensures forall i, j :: 0 <= i < j < |Sort(IntLeq, inserted)| ==>
              Sort(IntLeq, inserted)[i] < Sort(IntLeq, inserted)[j]
    ensures forall k :: k in Sort(IntLeq, inserted) <==> k in inserted
  {
    SortPermutes(IntLeq, inserted);
    SortOrders(IntLeq, inserted);
    SameElements(inserted, Sort(IntLeq, inserted));
    DistinctPreserved(inserted, Sort(IntLeq, inserted));
  }

  // ---- The judge's reconstruction ---------------------------------------------------------------

  function MarksOfReceipts(receipts: seq<Receipt>): (r: seq<Mark>)
    ensures |r| == |receipts| && forall i :: 0 <= i < |r| ==> r[i] == Mark(receipts[i].ordinal, receipts[i].eventType)
  {
    seq(|receipts|, i requires 0 <= i < |receipts| => Mark(receipts[i].ordinal, receipts[i].eventType))
  }

  function MarksOfTexts(texts: seq<TextReceipt>): (r: seq<Mark>)
    ensures |r| == |texts| && forall i :: 0 <= i < |r| ==> r[i] == Mark(texts[i].ordinal, texts[i].eventType)
  {
    seq(|texts|, i requires 0 <= i < |texts| => Mark(texts[i].ordinal, texts[i].eventType))
  }

  /** Start and finish receipts carry no type of their own: the judge supplies it. */
  function Typed(receipts: seq<Receipt>, eventType: EventType): (r: seq<Mark>)
    ensures |r| == |receipts| && forall i :: 0 <= i < |r| ==> r[i] == Mark(receipts[i].ordinal, eventType)
  {
    seq(|receipts|, i requires 0 <= i < |receipts| => Mark(receipts[i].ordinal, eventType))
  }

  /** The judge's `expected_sequence`, in the order it collects it. */
  function ExpectedSequence(o: Observation): seq<Mark> {
    Typed(o.starts, SubagentStarted) + Typed(o.finishes, SubagentFinished) + MarksOfTexts(o.texts)
        + MarksOfReceipts(o.toolStarts)
      + MarksOfReceipts(o.toolResults) + MarksOfReceipts(o.terminals)
  }

  predicate OrdinalLeq(a: Mark, b: Mark) { a.ordinal <= b.ordinal }

  /** The judge's two tests on `event_sequence`. */
  ghost predicate SequenceAccepted(o: Observation) {
    && (forall i, j :: 0 <= i < j < |o.sequence| ==> o.sequence[i].ordinal != o.sequence[j].ordinal)
    && o.sequence == Sort(OrdinalLeq, ExpectedSequence(o))
  }

  lemma {:induction false} MarksIncrease(events: seq<Event>, n: nat)
    requires n <= |events|
    ensures forall i, j :: 0 <= i < j < |MarksOf(events, n)| ==>
              MarksOf(events, n)[i].ordinal < MarksOf(events, n)[j].ordinal
    ensures forall i :: 0 <= i < |MarksOf(events, n)| ==> MarksOf(events, n)[i].ordinal < n
  {
    if n != 0 { MarksIncrease(events, n - 1); }
  }

  /** The six categories split the marks. */
  function CategoryMarks(events: seq<Event>, n: nat, kind: Kind): seq<Mark>
    requires n <= |events|
  {
    if kind == TextKind then MarksOfTexts(TextsOf(events, n)) else MarksOfReceipts(ReceiptsOf(events, n, kind))
  }

  lemma CategoryStep(events: seq<Event>, n: nat, kind: Kind)
    requires 0 < n <= |events|
    ensures CategoryMarks(events, n, kind) == CategoryMarks(events, n - 1, kind) +
              if KindOf(events[n - 1].eventType) == kind then [Mark(n - 1, events[n - 1].eventType)] else []
  {
    var e := events[n - 1];
    if kind == TextKind {
      AppendedText(TextsOf(events, n - 1), TextReceipt(n - 1, e.eventType, EventText(e.data)));
    } else {
      AppendedReceipt(ReceiptsOf(events, n - 1, kind), Receipt(n - 1, e.eventType, FieldsOf(kind, e.data)));
    }
  }

  lemma AppendedText(texts: seq<TextReceipt>, t: TextReceipt)
    ensures MarksOfTexts(texts + [t]) == MarksOfTexts(texts) + [Mark(t.ordinal, t.eventType)]
    ensures texts + [] == texts && MarksOfTexts(texts) + [] == MarksOfTexts(texts)
  {
  }

  lemma AppendedReceipt(receipts: seq<Receipt>, r: Receipt)
    ensures MarksOfReceipts(receipts + [r]) == MarksOfReceipts(receipts) + [Mark(r.ordinal, r.eventType)]
    ensures receipts + [] == receipts && MarksOfReceipts(receipts) + [] == MarksOfReceipts(receipts)
  {
  }

  /** How often a mark occurs over all categories. */
  function CategoryTotal(events: seq<Event>, n: nat): multiset<Mark>
    requires n <= |events|
  {
    Sum(multiset(CategoryMarks(events, n, StartKind)), multiset(CategoryMarks(events, n, FinishKind)),
        multiset(CategoryMarks(events, n, TextKind)), multiset(CategoryMarks(events, n, ToolStartKind)),
        multiset(CategoryMarks(events, n, ToolResultKind)), multiset(CategoryMarks(events, n, TerminalKind)))
  }

  function Sum(a: multiset<Mark>, b: multiset<Mark>, c: multiset<Mark>, d: multiset<Mark>, e: multiset<Mark>,
               f: multiset<Mark>): multiset<Mark>
  {
    a + b + c + d + e + f
  }

  lemma SumGrows(a: multiset<Mark>, b: multiset<Mark>, c: multiset<Mark>, d: multiset<Mark>, e: multiset<Mark>,
                 f: multiset<Mark>, m: multiset<Mark>)
    ensures Sum(a + m, b, c, d, e, f) == Sum(a, b, c, d, e, f) + m
    ensures Sum(a, b + m, c, d, e, f) == Sum(a, b, c, d, e, f) + m
    ensures Sum(a, b, c + m, d, e, f) == Sum(a, b, c, d, e, f) + m
    ensures Sum(a, b, c, d + m, e, f) == Sum(a, b, c, d, e, f) + m
    ensures Sum(a, b, c, d, e + m, f) == Sum(a, b, c, d, e, f) + m
    ensures Sum(a, b, c, d, e, f + m) == Sum(a, b, c, d, e, f) + m
  {
  }

  lemma CategoryStepMultiset(events: seq<Event>, n: nat, kind: Kind)
    requires 0 < n <= |events|
    ensures KindOf(events[n - 1].eventType) == kind ==>
              multiset(CategoryMarks(events, n, kind)) ==
                multiset(CategoryMarks(events, n - 1, kind)) + multiset{Mark(n - 1, events[n - 1].eventType)}
    ensures KindOf(events[n - 1].eventType) != kind ==>
              CategoryMarks(events, n, kind) == CategoryMarks(events, n - 1, kind)
  {
    CategoryStep(events, n, kind);
  }

  lemma CategoryTotalStep(events: seq<Event>, n: nat)
    requires 0 < n <= |events|
    ensures CategoryTotal(events, n) == CategoryTotal(events, n - 1) +
              if KindOf(events[n - 1].eventType) == OtherKind then multiset{}
                  else multiset{Mark(n - 1, events[n - 1].eventType)}
  {
    CategoryStepMultiset(events, n, StartKind);
    CategoryStepMultiset(events, n, FinishKind);
    CategoryStepMultiset(events, n, TextKind);
    CategoryStepMultiset(events, n, ToolStartKind);
    CategoryStepMultiset(events, n, ToolResultKind);
    CategoryStepMultiset(events, n, TerminalKind);
    SumGrows(multiset(CategoryMarks(events, n - 1, StartKind)), multiset(CategoryMarks(events, n - 1, FinishKind)),
             multiset(CategoryMarks(events, n - 1, TextKind)), multiset(CategoryMarks(events, n - 1, ToolStartKind)),
             multiset(CategoryMarks(events, n - 1, ToolResultKind)),
                 multiset(CategoryMarks(events, n - 1, TerminalKind)),
             multiset{Mark(n - 1, events[n - 1].eventType)});
  }

  lemma MarksStep(events: seq<Event>, n: nat)
    requires 0 < n <= |events|
    ensures multiset(MarksOf(events, n)) == multiset(MarksOf(events, n - 1)) +
              if KindOf(events[n - 1].eventType) == OtherKind then multiset{}
                  else multiset{Mark(n - 1, events[n - 1].eventType)}
  {
  }

  /** The marks are those of the six categories together. */
  ghost predicate Partitioned(events: seq<Event>, n: nat)
    requires n <= |events|
  {
    multiset(MarksOf(events, n)) == CategoryTotal(events, n)
  }

  lemma EmptyPartition(events: seq<Event>, n: nat)
    requires n == 0
    ensures Partitioned(events, n)
  {
    assert forall kind :: CategoryMarks(events, 0, kind) == [];
  }

  /** Induction over the prefixes of a sequence of the given length. */
  lemma {:induction false} PrefixInduction(holds: nat -> bool, length: nat, n: nat)
    requires n <= length && holds(0)
    requires forall k: nat :: k < length && holds(k) ==> holds(k + 1)
    ensures holds(n)
  {
    if n != 0 { PrefixInduction(holds, length, n - 1); }
  }

  lemma CategoriesPartition(events: seq<Event>)
    ensures Partitioned(events, |events|)
  {
    EmptyPartition(events, 0);
    forall k: nat | k < |events| && Partitioned(events, k)
      ensures Partitioned(events, k + 1)
    {
      PartitionStep(events, k + 1);
    }
    PrefixInduction((k: nat) => k <= |events| && Partitioned(events, k), |events|, |events|);
  }

  lemma PartitionStep(events: seq<Event>, n: nat)
    requires 0 < n <= |events| && Partitioned(events, n - 1)
    ensures Partitioned(events, n)
  {
    CategoryTotalStep(events, n);
    MarksStep(events, n);
  }

  lemma {:induction false} ReceiptTypes(events: seq<Event>, n: nat, kind: Kind, eventType: EventType)
    requires n <= |events|
    requires (kind == StartKind && eventType == SubagentStarted)
               || (kind == FinishKind && eventType == SubagentFinished)
    ensures forall i :: 0 <= i < |ReceiptsOf(events, n, kind)| ==> ReceiptsOf(events, n, kind)[i].eventType == eventType
  {
    if n != 0 { ReceiptTypes(events, n - 1, kind, eventType); }
  }

  /** Start and finish receipts have the type the judge gives them. */
  lemma KindTypes(events: seq<Event>, n: nat, kind: Kind, eventType: EventType)
    requires n <= |events|
    requires (kind == StartKind && eventType == SubagentStarted)
               || (kind == FinishKind && eventType == SubagentFinished)
    ensures Typed(ReceiptsOf(events, n, kind), eventType) == CategoryMarks(events, n, kind)
  {
    ReceiptTypes(events, n, kind, eventType);
  }

  lemma ExpectedMultiset(o: Observation)
    ensures multiset(ExpectedSequence(o)) ==
              Sum(multiset(Typed(o.starts, SubagentStarted)), multiset(Typed(o.finishes, SubagentFinished)),
                  multiset(MarksOfTexts(o.texts)), multiset(MarksOfReceipts(o.toolStarts)),
                  multiset(MarksOfReceipts(o.toolResults)), multiset(MarksOfReceipts(o.terminals)))
  {
  }

  lemma MarkOrder(marks: seq<Mark>)
    requires forall i, j :: 0 <= i < j < |marks| ==> marks[i].ordinal < marks[j].ordinal
    ensures TotalPreorder(OrdinalLeq) && TieFree(OrdinalLeq, marks) && Ordered(OrdinalLeq, marks)
  {
    forall x, y | x in marks && y in marks && OrdinalLeq(x, y) && OrdinalLeq(y, x) ensures x == y {
      var i :| 0 <= i < |marks| && marks[i] == x;
      var j :| 0 <= j < |marks| && marks[j] == y;
      assert i == j;
    }
  }

  lemma FinishCategory(o: Observation, events: seq<Event>)
    requires Summarises(o, events)
    ensures Typed(o.finishes, SubagentFinished) == CategoryMarks(events, |events|, FinishKind)
  {
    KindTypes(events, |events|, FinishKind, SubagentFinished);
    var raw := ReceiptsOf(events, |events|, FinishKind);
    assert Typed(o.finishes, SubagentFinished) == Typed(raw, SubagentFinished);
  }

  /** Every summary passes the judge's reconstruction: the categories, put together and sorted by ordinal,
      are the recorded sequence. */
  lemma ReconstructionAccepts(o: Observation, events: seq<Event>)
    requires Summarises(o, events)
    ensures SequenceAccepted(o)
  {
    MarksIncrease(events, |events|);
    MarkOrder(o.sequence);
    SameMarks(o, events);
    SortCanonical(OrdinalLeq, o.sequence, ExpectedSequence(o));
    SortFixes(OrdinalLeq, o.sequence);
  }

  lemma SameMarks(o: Observation, events: seq<Event>)
    requires Summarises(o, events)
    ensures multiset(o.sequence) == multiset(ExpectedSequence(o))
  {
    CategoriesPartition(events);
    KindTypes(events, |events|, StartKind, SubagentStarted);
    FinishCategory(o, events);
    ExpectedMultiset(o);
  }
}
