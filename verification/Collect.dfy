/** The collector's read loop (scripts/real_agent_scenario_runner.py:1027-1044): it stops at the first terminal event,
    so what the summary calls the terminal event is always the last of the stream. */
module Collecting {
  import opened Prelude
  import opened Json
  import opened Summaries

  predicate IsTerminal(e: Event) { e.eventType in TERMINAL_EVENTS }

  /** The payloads that parse to an object, up to and including the first terminal one. */
  function Kept(lines: seq<Option<Event>>): seq<Event> {
    if lines == [] then []
    else if lines[0].None? then Kept(lines[1..])
    else if IsTerminal(lines[0].value) then [lines[0].value]
    else [lines[0].value] + Kept(lines[1..])
  }

  /** The loop with its early break. */
  method CollectTrial(lines: seq<Option<Event>>) returns (events: seq<Event>)
    ensures events == Kept(lines)
  {
    events := [];
    var i := 0;
    while i < |lines|
      invariant 0 <= i <= |lines|
      invariant Kept(lines) == events + Kept(lines[i..])
    {
      var rest := lines[i..];
      assert rest[1..] == lines[i + 1..];
      var line := lines[i];
      i := i + 1;
      if line.None? { continue; }
      KeptStep(events, line.value, rest[1..]);
      events := events + [line.value];
      if IsTerminal(line.value) { return; }
    }
    assert lines[i..] == [];
  }

  lemma KeptStep(events: seq<Event>, e: Event, rest: seq<Option<Event>>)
    ensures events + [e] + Kept(rest) == events + ([e] + Kept(rest))
  {
  }

  ghost predicate TerminalOnlyLast(events: seq<Event>) {
    forall i :: 0 <= i < |events| - 1 ==> !IsTerminal(events[i])
  }

  lemma {:induction false} KeptEndsAtTerminal(lines: seq<Option<Event>>)
    ensures TerminalOnlyLast(Kept(lines))
  {
    if lines != [] { KeptEndsAtTerminal(lines[1..]); }
  }

  lemma {:induction false} NoTerminalReceipts(events: seq<Event>, n: nat)
    requires n <= |events| && forall i :: 0 <= i < n ==> !IsTerminal(events[i])
    ensures ReceiptsOf(events, n, TerminalKind) == []
  {
    if n != 0 {
      NoTerminalReceipts(events, n - 1);
      assert !IsTerminal(events[n - 1]);
    }
  }

  lemma {:induction false} OrdinalsBelow(events: seq<Event>, n: nat, kind: Kind)
    requires n <= |events|
    ensures forall k :: 0 <= k < |ReceiptsOf(events, n, kind)| ==> ReceiptsOf(events, n, kind)[k].ordinal < n
    ensures forall k :: 0 <= k < |TextsOf(events, n)| ==> TextsOf(events, n)[k].ordinal < n
  {
    if n != 0 { OrdinalsBelow(events, n - 1, kind); }
  }

  /** The texts of a stream whose last event is not a text come before it. */
  lemma TextsBeforeLast(events: seq<Event>, n: nat)
    requires 0 < n <= |events| && IsTerminal(events[n - 1])
    ensures TextsBefore(TextsOf(events, n), n - 1)
  {
    OrdinalsBelow(events, n - 1, TerminalKind);
    TerminalKindOf(events[n - 1]);
  }

  /** How many terminal receipts there are, and where the last is. */
  ghost predicate Terminals(receipts: seq<Receipt>, count: nat, ordinal: int) {
    |receipts| == count && forall k :: 0 <= k < |receipts| ==> receipts[k].ordinal == ordinal
  }

  lemma TerminalKindOf(e: Event)
    ensures KindOf(e.eventType) == TerminalKind <==> IsTerminal(e)
  {
  }

  lemma LastReceipt(events: seq<Event>, n: nat)
    requires 0 < n <= |events| && forall i :: 0 <= i < n - 1 ==> !IsTerminal(events[i])
    ensures Terminals(ReceiptsOf(events, n, TerminalKind), if IsTerminal(events[n - 1]) then 1 else 0, n - 1)
  {
    NoTerminalReceipts(events, n - 1);
    TerminalKindOf(events[n - 1]);
    AppendOne(ReceiptsOf(events, n - 1, TerminalKind), KindOf(events[n - 1].eventType) == TerminalKind,
              Receipt(n - 1, events[n - 1].eventType, FieldsOf(TerminalKind, events[n - 1].data)), n - 1);
  }

  lemma AppendOne(before: seq<Receipt>, taken: bool, r: Receipt, ordinal: int)
    requires before == [] && r.ordinal == ordinal
    ensures Terminals(before + if taken then [r] else [], if taken then 1 else 0, ordinal)
  {
  }

  ghost predicate SomeTerminal(lines: seq<Option<Event>>) {
    exists k :: 0 <= k < |lines| && lines[k].Some? && IsTerminal(lines[k].value)
  }

  predicate EndsTerminal(events: seq<Event>) { events != [] && IsTerminal(events[|events| - 1]) }

  lemma StreamTerminals(events: seq<Event>, n: nat)
    requires n == |events| && TerminalOnlyLast(events)
    ensures Terminals(ReceiptsOf(events, n, TerminalKind), if EndsTerminal(events) then 1 else 0, n - 1)
  {
    if n == 0 { NoTerminalReceipts(events, n); } else { LastReceipt(events, n); }
  }

  ghost predicate TextsBefore(texts: seq<TextReceipt>, n: int) {
    forall k :: 0 <= k < |texts| ==> texts[k].ordinal < n
  }

  /** A collected trial has a terminal receipt exactly if its stream had a terminal event; it has then only the
      one, with the last ordinal, and all text comes before it. */
  lemma CollectedTerminalIsLast(lines: seq<Option<Event>>, o: Observation)
    requires Summarises(o, Kept(lines))
    ensures Terminals(o.terminals, if SomeTerminal(lines) then 1 else 0, |Kept(lines)| - 1)
    ensures SomeTerminal(lines) ==> TextsBefore(o.texts, |Kept(lines)| - 1)
  {
    var events := Kept(lines);
    KeptEndsAtTerminal(lines);
    KeptFindsTerminal(lines);
    StreamTerminals(events, |events|);
    if EndsTerminal(events) { TextsBeforeLast(events, |events|); }
  }

  lemma {:induction false} KeptFindsTerminal(lines: seq<Option<Event>>)
    ensures EndsTerminal(Kept(lines)) <==> SomeTerminal(lines)
  {
    if lines != [] {
      var rest := lines[1..];
      KeptFindsTerminal(rest);
      if SomeTerminal(rest) {
        var k :| 0 <= k < |rest| && rest[k].Some? && IsTerminal(rest[k].value);
        assert lines[k + 1] == rest[k];
      }
      if SomeTerminal(lines) {
        var k :| 0 <= k < |lines| && lines[k].Some? && IsTerminal(lines[k].value);
        assert k == 0 || rest[k - 1] == lines[k];
      }
    }
  }
}
