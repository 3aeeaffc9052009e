/** The approve-and-resume loop (scripts/native_agent_parity_benchmark.py:797-971, 1018-1270) against a server that may
    answer anything. Timing, usage and the receipts kept for the report are not part of this model. */
module Approval {
  import opened Prelude
  import opened Strings

  datatype EventType = RunStarted | RunFinished | RunError | ApprovalRequired | ApprovalResult | TextDelta
                     | SideEffectUnknown
                     | GatewayDecision | Untyped | OtherType(name: string)

  datatype Status = Blocked | Succeeded | OtherStatus(name: string)
  datatype Envelope = Envelope(status: Option<Status>, resumeReady: bool)
  datatype Snapshot = Snapshot(model: Option<string>, provider: Option<string>)

  /** The parts of an event's data that the adapter reads; an absent field is one of the wrong type too. */
  datatype Payload =
    | Text(s: string)
    | Fields(runId: Option<string>, approvalId: Option<string>, tool: Option<string>, approved: bool,
        content: Option<string>,
             envelope: Option<Envelope>, snapshot: Option<Snapshot>, failover: bool)
    | Neither

  datatype Event = Event(eventType: EventType, data: Payload)

  datatype Stream = Stream(types: seq<EventType>, chunks: seq<string>, status: Option<Status>, runtime: Snapshot,
      failovers: nat,
                           approvals: seq<Payload>, results: seq<Payload>, started: seq<Payload>)

  datatype Error = Transport | RoundLimit | ApprovalLimit | ApprovalMalformed | TerminalContract | PauseContract
                 | ToolNotAllowed
                 | ResumeNotReady | IdentifierMissing | RunMismatch | RunChanged | ReceiptMissing | ReceiptMismatch
                 | StartedContract
                 | ResultContract | ResultMismatch | TerminalStatus | ModelMismatch | ProviderMissing | Failover

  datatype TurnResult = TurnResult(text: string, streams: seq<Stream>, approvals: seq<string>)

  const APPROVABLE_TOOL := "execute_python_code"

  // ---- A stream as a fold of its events ---------------------------------------------------------

  function TypesOf(events: seq<Event>): seq<EventType> {
    if events == [] then []
    else
      var e := events[|events| - 1];
      TypesOf(events[..|events| - 1]) + if e.eventType == Untyped then [] else [e.eventType]
  }

  function ChunkOf(e: Event): seq<string> {
    if e.eventType != TextDelta then []
    else if e.data.Text? then [e.data.s]
    else if e.data.Fields? && e.data.content.Some? then [e.data.content.value]
    else []
  }

  function ChunksOf(events: seq<Event>): seq<string> {
    if events == [] then [] else ChunksOf(events[..|events| - 1]) + ChunkOf(events[|events| - 1])
  }

  /** The object payloads of one event type. */
  function PayloadsOf(events: seq<Event>, t: EventType): seq<Payload> {
    if events == [] then []
    else
      var e := events[|events| - 1];
      PayloadsOf(events[..|events| - 1], t) + if e.eventType == t && e.data.Fields? then [e.data] else []
  }

  predicate SetsStatus(e: Event) {
    && e.eventType in {ApprovalRequired, RunFinished, RunError}
    && e.data.Fields? && e.data.envelope.Some? && e.data.envelope.value.status.Some?
  }

  /** The status of the last envelope. */
  function StatusOf(events: seq<Event>): Option<Status> {
    if events == [] then None
    else
      var e := events[|events| - 1];
      if SetsStatus(e) then e.data.envelope.value.status else StatusOf(events[..|events| - 1])
  }

  predicate SetsRuntime(e: Event) { e.eventType == RunStarted && e.data.Fields? && e.data.snapshot.Some? }

  function RuntimeOf(events: seq<Event>): Snapshot {
    if events == [] then Snapshot(None, None)
    else
      var e := events[|events| - 1];
      if SetsRuntime(e) then e.data.snapshot.value else RuntimeOf(events[..|events| - 1])
  }

  function FailoversOf(events: seq<Event>): nat {
    if events == [] then 0
    else
      var e := events[|events| - 1];
      FailoversOf(events[..|events| - 1]) + if e.eventType == GatewayDecision && e.data.Fields?
          && e.data.failover then 1 else 0
  }

  function StreamOf(events: seq<Event>): Stream {
    Stream(TypesOf(events), ChunksOf(events), StatusOf(events), RuntimeOf(events), FailoversOf(events),
           PayloadsOf(events, ApprovalRequired), PayloadsOf(events, ApprovalResult), PayloadsOf(events, RunStarted))
  }

  function Count(types: seq<EventType>, t: EventType): nat {
    if types == [] then 0 else Count(types[..|types| - 1], t) + if types[|types| - 1] == t then 1 else 0
  }

  /** The count of a type is the number of its occurrences. */
  lemma {:induction false} CountExact(types: seq<EventType>, t: EventType)
    ensures Count(types, t) == multiset(types)[t]
    ensures Count(types, t) != 0 <==> t in types
  {
    if types != [] {
      CountExact(types[..|types| - 1], t);
      assert types == types[..|types| - 1] + [types[|types| - 1]];
    }
  }

  // ---- The server -------------------------------------------------------------------------------

  /** The record of an approval decision the server sends back. */
  datatype Decision = Decision(approvalId: Option<string>, runId: Option<string>, tool: Option<string>, approved: bool)

  /** A server that answers as it likes, with a log of what it was asked, what it sent, and how many requests broke. */
  class Server {
    ghost var sent: seq<seq<Event>>
    ghost var posts: seq<string>
    ghost var decisions: seq<Option<Decision>>
    ghost var broken: nat

    /** `POST /assistant/chat/stream`. */
    method Chat() returns (r: Result<seq<Event>, Error>)
      modifies this
      ensures posts == old(posts) && decisions == old(decisions)
      ensures r.Ok? ==> sent == old(sent) + [r.value] && broken == old(broken)
      ensures r.Err? ==> r.error == Transport && sent == old(sent) && broken == old(broken) + 1
    {
      var fails: bool := *;
      if fails {
        broken := broken + 1;
        return Err(Transport);
      }
      var events: seq<Event> := *;
      sent := sent + [events];
      r := Ok(events);
    }

    /** `POST /assistant/approvals/{id}` with `approved: true`. */
    method Approve(approvalId: string) returns (r: Result<Option<Decision>, Error>)
      modifies this
      ensures posts == old(posts) + [approvalId] && sent == old(sent)
      ensures r.Ok? ==> decisions == old(decisions) + [r.value] && broken == old(broken)
      ensures r.Err? ==> r.error == Transport && decisions == old(decisions) && broken == old(broken) + 1
    {
      posts := posts + [approvalId];
      var fails: bool := *;
      if fails {
        broken := broken + 1;
        return Err(Transport);
      }
      var decision: Option<Decision> := *;
      decisions := decisions + [decision];
      r := Ok(decision);
    }
  }

  // ---- Validation -------------------------------------------------------------------------------

  predicate IsIdentifier(s: string) {
    && 1 <= |s| <= 255 && Strings.Alphanumeric(s[0])
    && forall i :: 0 <= i < |s| ==> Strings.Alphanumeric(s[i]) || s[i] in {'.', '_', ':', '-'}
  }

  /** The pattern: one letter or digit, and up to 254 letters, digits, dots, underscores, colons and hyphens. */
  lemma IdentifierPattern(s: string)
    ensures IsIdentifier(s) <==> exists first, rest :: s == [first] + rest && Fits(first, rest)
  {
    if IsIdentifier(s) {
      assert s == [s[0]] + s[1..];
      assert Fits(s[0], s[1..]);
    }
    if first, rest :| s == [first] + rest && Fits(first, rest) {
      forall i | 0 < i < |s| ensures s[i] in rest { assert s[i] == rest[i - 1]; }
    }
  }

  predicate Fits(first: char, rest: string) {
    && Strings.Alphanumeric(first) && |rest| <= 254
    && forall c :: c in rest ==> Strings.Alphanumeric(c) || c in {'.', '_', ':', '-'}
  }

  function Identifier(field: Option<string>): Result<string, Error> {
    if field.Some? && IsIdentifier(field.value) then Ok(field.value) else Err(IdentifierMissing)
  }

  /** A stream that pauses for exactly one approval of the one allowed tool, in the run it started. */
  predicate PausesIn(s: Stream, runId: string) {
    && Count(s.types, ApprovalRequired) == 1 && |s.approvals| == 1 && s.approvals[0].Fields?
    && Count(s.types, RunFinished) == 0 && RunError !in s.types && SideEffectUnknown !in s.types
    && s.status == Some(Blocked)
    && s.approvals[0].tool == Some(APPROVABLE_TOOL)
    && s.approvals[0].envelope.Some? && s.approvals[0].envelope.value.resumeReady
    && s.approvals[0].runId == Some(runId) && IsIdentifier(runId)
    && |s.started| == 1 && s.started[0].Fields? && s.started[0].runId == Some(runId)
  }

  predicate PausesOnce(s: Stream, runId: string, approvalId: string) {
    PausesIn(s, runId) && s.approvals[0].approvalId == Some(approvalId) && IsIdentifier(approvalId)
  }

  /** A stream that resumes a run after its approval. */
  predicate Resumes(s: Stream, runId: string, approvalId: string) {
    && |s.started| == 1 && s.started[0].Fields? && s.started[0].runId == Some(runId)
    && |s.results| == 1 && s.results[0].Fields?
    && s.results[0].runId == Some(runId) && s.results[0].approvalId == Some(approvalId)
    && s.results[0].tool == Some(APPROVABLE_TOOL) && s.results[0].approved
  }

  /** A stream that ends its run well. */
  predicate Finishes(s: Stream) {
    && Count(s.types, RunFinished) == 1
    && RunError !in s.types && ApprovalRequired !in s.types && SideEffectUnknown !in s.types
    && s.status == Some(Succeeded)
  }

  predicate RightRuntime(s: Stream, model: string) {
    s.runtime.model == Some(model) && s.runtime.provider.Some? && s.failovers == 0
  }

  lemma ToolIsIdentifier()
    ensures IsIdentifier(APPROVABLE_TOOL)
  {
  }

  /** The refusals that concern what a stream holds. */
  predicate AboutStream(e: Error) { e !in {Transport, RoundLimit, ReceiptMissing, ReceiptMismatch} }

  /** `_validate_approval_boundary`, with the run it reads. */
  function Boundary(s: Stream): (r: Result<string, Error>)
    ensures forall runId :: PausesIn(s, runId) <==> r == Ok(runId)
    ensures r.Err? ==> AboutStream(r.error)
  {
    ToolIsIdentifier();
    if Count(s.types, ApprovalRequired) != 1 then Err(ApprovalLimit)
    else if |s.approvals| != 1 || !s.approvals[0].Fields? then Err(ApprovalMalformed)
    else if Count(s.types, RunFinished) != 0 || RunError in s.types
        || SideEffectUnknown in s.types then Err(TerminalContract)
    else if s.status != Some(Blocked) then Err(PauseContract)
    else
      var approval := s.approvals[0];
      var tool :- Identifier(approval.tool);
      if tool != APPROVABLE_TOOL then Err(ToolNotAllowed)
      else if approval.envelope.None? || !approval.envelope.value.resumeReady then Err(ResumeNotReady)
      else
        var runId :- Identifier(approval.runId);
        if |s.started| != 1 || !s.started[0].Fields? then Err(StartedContract)
        else if s.started[0].runId != Some(runId) then Err(RunMismatch)
        else Ok(runId)
  }

  /** A receipt for this approval of this run and the one allowed tool, that says approved. */
  predicate Grants(d: Option<Decision>, runId: string, approvalId: string) {
    && d.Some? && d.value.approvalId == Some(approvalId) && d.value.runId == Some(runId)
    && d.value.tool == Some(APPROVABLE_TOOL) && d.value.approved
  }

  function ReceiptProblem(d: Option<Decision>, runId: string, approvalId: string): (r: Option<Error>)
    ensures r.None? <==> Grants(d, runId, approvalId)
    ensures r.Some? ==> r.value == if d.None? then ReceiptMissing else ReceiptMismatch
  {
    if d.None? then Some(ReceiptMissing)
    else if d.value != Decision(Some(approvalId), Some(runId), Some(APPROVABLE_TOOL), true) then Some(ReceiptMismatch)
    else None
  }

  /** `_validate_resume_receipt`. */
  function ResumeProblem(s: Stream, runId: string, approvalId: string): (r: Option<Error>)
    ensures r.None? <==> Resumes(s, runId, approvalId)
    ensures r.Some? ==> AboutStream(r.value)
  {
    if |s.started| != 1 || !s.started[0].Fields? then Some(StartedContract)
    else if s.started[0].runId != Some(runId) then Some(RunMismatch)
    else if |s.results| != 1 || !s.results[0].Fields? then Some(ResultContract)
    else
      var result := s.results[0];
      if result.runId != Some(runId) || result.approvalId != Some(approvalId) || result.tool != Some(APPROVABLE_TOOL)
          || !result.approved
      then Some(ResultMismatch)
      else None
  }

  function RuntimeProblem(s: Stream, model: string): (r: Option<Error>)
    ensures r.None? <==> RightRuntime(s, model)
    ensures r.Some? ==> AboutStream(r.value)
  {
    if s.runtime.model != Some(model) then Some(ModelMismatch)
    else if s.runtime.provider.None? then Some(ProviderMissing)
    else if s.failovers != 0 then Some(Failover)
    else None
  }

  /** `_validate_success_stream`. */
  function SuccessProblem(s: Stream): (r: Option<Error>)
    ensures r.None? <==> Finishes(s)
    ensures r.Some? ==> AboutStream(r.value)
  {
    if Count(s.types, RunFinished) != 1 || RunError in s.types || ApprovalRequired in s.types
        || SideEffectUnknown in s.types then
      Some(TerminalContract)
    else if s.status != Some(Succeeded) then Some(TerminalStatus)
    else None
  }

  // ---- One stream -------------------------------------------------------------------------------

  /** `_stream_turn`: the locals of the event loop, folded as the code folds them. */
  method StreamTurn(server: Server) returns (r: Result<Stream, Error>)
    modifies server
    ensures server.posts == old(server.posts) && server.decisions == old(server.decisions)
    ensures r.Ok? ==> |server.sent| == |old(server.sent)| + 1 && server.sent[..|old(server.sent)|] == old(server.sent)
                      && r.value == StreamOf(server.sent[|old(server.sent)|]) && server.broken == old(server.broken)
    ensures r.Err? ==> server.sent == old(server.sent) && server.broken > old(server.broken) && r.error == Transport
  {
    var answer := server.Chat();
    if answer.Err? { return Err(answer.error); }
    var s := FoldEvents(answer.value);
    r := Ok(s);
  }

  method FoldEvents(events: seq<Event>) returns (s: Stream)
    ensures s == StreamOf(events)
  {
    var types: seq<EventType>, chunks: seq<string>, status: Option<Status> := [], [], None;
    var runtime, failovers := Snapshot(None, None), 0;
    var approvals: seq<Payload>, results: seq<Payload>, started: seq<Payload> := [], [], [];
    var i := 0;
    while i < |events|
      invariant 0 <= i <= |events|
      invariant types == TypesOf(events[..i]) && chunks == ChunksOf(events[..i])
      invariant status == StatusOf(events[..i]) && runtime == RuntimeOf(events[..i])
                  && failovers == FailoversOf(events[..i])
      invariant approvals == PayloadsOf(events[..i], ApprovalRequired)
      invariant results == PayloadsOf(events[..i], ApprovalResult)
      invariant started == PayloadsOf(events[..i], RunStarted)
    {
      assert events[..i + 1][..i] == events[..i];
      var e := events[i];
      if e.eventType != Untyped { types := types + [e.eventType]; }
      if e.eventType == RunStarted && e.data.Fields? {
        started := started + [e.data];
        if e.data.snapshot.Some? { runtime := e.data.snapshot.value; }
      }
      if e.eventType == GatewayDecision && e.data.Fields? && e.data.failover { failovers := failovers + 1; }
      if e.eventType == TextDelta {
        if e.data.Text? {
          chunks := chunks + [e.data.s];
        } else if e.data.Fields? && e.data.content.Some? {
          chunks := chunks + [e.data.content.value];
        }
      }
      if e.eventType == ApprovalRequired && e.data.Fields? { approvals := approvals + [e.data]; }
      if e.eventType == ApprovalResult && e.data.Fields? { results := results + [e.data]; }
      if SetsStatus(e) { status := e.data.envelope.value.status; }
      i := i + 1;
    }
    assert events[..i] == events;
    s := Stream(types, chunks, status, runtime, failovers, approvals, results, started);
  }

  // ---- The turn ---------------------------------------------------------------------------------

  function Concat(chunks: seq<string>): string {
    if chunks == [] then "" else Concat(chunks[..|chunks| - 1]) + chunks[|chunks| - 1]
  }

  /** Joining keeps the order of the parts. */
  lemma {:induction false} ConcatInOrder(a: seq<string>, b: seq<string>)
    ensures Concat(a + b) == Concat(a) + Concat(b)
    ensures |a| == 1 ==> Concat(a) == a[0]
  {
    if b == [] {
      assert a + b == a;
    } else {
      var init, all := b[..|b| - 1], a + b;
      ConcatInOrder(a, init);
      assert all[..|all| - 1] == a + init && all[|all| - 1] == b[|init|];
    }
  }

  /** The chunks of a turn are those of its streams, in order. */
  lemma {:induction false} ChunksInOrder(a: seq<Stream>, b: seq<Stream>)
    ensures AllChunks(a + b) == AllChunks(a) + AllChunks(b)
    ensures |a| == 1 ==> AllChunks(a) == a[0].chunks
  {
    if b == [] {
      assert a + b == a;
    } else {
      var init, all := b[..|b| - 1], a + b;
      ChunksInOrder(a, init);
      assert all[..|all| - 1] == a + init && all[|all| - 1] == b[|init|];
    }
  }

  function AllChunks(streams: seq<Stream>): seq<string> {
    if streams == [] then [] else AllChunks(streams[..|streams| - 1]) + streams[|streams| - 1].chunks
  }

  /** What the server sent, as streams. */
  function StreamsOf(sent: seq<seq<Event>>): (r: seq<Stream>)
    ensures |r| == |sent| && forall k :: 0 <= k < |sent| ==> r[k] == StreamOf(sent[k])
  {
    seq(|sent|, k requires 0 <= k < |sent| => StreamOf(sent[k]))
  }

  /** Each approval answers the pause of the stream before it, and the stream after it resumes that run. All are
      of one run. */
  ghost predicate Answers(streams: seq<Stream>, approvals: seq<string>, runId: string) {
    && |approvals| <= |streams|
    && (forall k :: 0 <= k < |approvals| ==> PausesOnce(streams[k], runId, approvals[k]))
    && (forall k :: 0 < k < |streams| && k <= |approvals| ==> Resumes(streams[k], runId, approvals[k - 1]))
  }

  /** The streams and posts of a call, whatever came of it: at most `rounds` approvals, each for the one allowed
      tool in one and the same run. */
  ghost predicate Bounded(streams: seq<Stream>, approvals: seq<string>, rounds: nat) {
    && |approvals| <= rounds
    && exists runId :: Asked(streams, approvals, runId)
  }

  ghost predicate Asked(streams: seq<Stream>, approvals: seq<string>, runId: string) {
    |approvals| <= |streams| && forall k :: 0 <= k < |approvals| ==> PausesOnce(streams[k], runId, approvals[k])
  }

  /** Each post was answered by a receipt that grants it in this run. */
  ghost predicate Granted(decisions: seq<Option<Decision>>, approvals: seq<string>, runId: string) {
    |decisions| == |approvals| && forall k :: 0 <= k < |approvals| ==> Grants(decisions[k], runId, approvals[k])
  }

  /** A finished turn: one more stream than approvals, every stream but the last pausing once without finishing, each
      approval granted, the last stream finishing exactly once, all from the requested model, and the text made of
      every chunk in order. */
  ghost predicate Completed(r: TurnResult, decisions: seq<Option<Decision>>, model: string) {
    && |r.streams| == |r.approvals| + 1
    && (exists runId :: Answers(r.streams, r.approvals, runId) && Granted(decisions, r.approvals, runId))
    && Finishes(r.streams[|r.approvals|])
    && (forall k :: 0 <= k < |r.streams| ==> RightRuntime(r.streams[k], model))
    && r.text == Strip(Concat(AllChunks(r.streams)))
  }

  /** One approval was posted, for the pause of the current stream and in the active run if there is one. */
  ghost predicate OnePost(current: Stream, active: Option<string>, before: seq<string>, after: seq<string>) {
    exists runId, id :: PausesOnce(current, runId, id) && (active == None || active == Some(runId))
        && after == before + [id]
  }

  /** What went wrong in a round, told by what the server was asked and what it answered: the stream at hand is no pause
      of the active run, the receipt for its approval does not grant it, or the stream after that does not resume it. */
  ghost predicate RoundRefused(current: Stream, active: Option<string>, model: string, posts: seq<string>,
                               decisions: seq<Option<Decision>>, streams: seq<Stream>, e: Error)
  {
    if posts == [] then
      && decisions == [] && streams == [] && AboutStream(e)
      && forall runId, id :: PausesOnce(current, runId, id) ==> active.Some? && active.value != runId
    else
      && |posts| == |decisions| == 1
      && exists runId :: RoundBroken(current, active, model, runId, posts[0], decisions[0], streams, e)
  }

  ghost predicate RoundBroken(current: Stream, active: Option<string>, model: string, runId: string, id: string,
                              decision: Option<Decision>, streams: seq<Stream>, e: Error)
  {
    && PausesOnce(current, runId, id) && (active == None || active == Some(runId))
    && if streams == [] then
         !Grants(decision, runId, id) && e == if decision.None? then ReceiptMissing else ReceiptMismatch
       else
         && Grants(decision, runId, id) && |streams| == 1 && AboutStream(e)
         && !(Resumes(streams[0], runId, id) && RightRuntime(streams[0], model))
  }

  /** What a refused round left in the logs. */
  lemma RoundIsRefused(current: Stream, active: Option<string>, model: string, runId: string, id: string,
                       decision: Option<Decision>, posts: seq<string>, decisions: seq<Option<Decision>>,
                       streams: seq<Stream>, e: Error)
    requires RoundBroken(current, active, model, runId, id, decision, streams, e)
    requires posts == [id] && decisions == [decision]
    ensures RoundRefused(current, active, model, posts, decisions, streams, e)
  {
    assert RoundBroken(current, active, model, runId, posts[0], decisions[0], streams, e);
  }

  /** The run and the approval a stream pauses for, in the active run if there is one. */
  function PauseOf(current: Stream, active: Option<string>): (r: Result<(string, string), Error>)
    ensures forall runId, id ::
              PausesOnce(current, runId, id) && (active == None || active == Some(runId)) <==> r == Ok((runId, id))
    ensures r.Err? ==> AboutStream(r.error)
  {
    var runId :- Boundary(current);
    if active.Some? && active.value != runId then Err(RunChanged)
    else
      var id :- Identifier(current.approvals[0].approvalId);
      Ok((runId, id))
  }

  /** The first stream of a turn, with its check. */
  method FirstStream(server: Server, model: string) returns (r: Result<Stream, Error>)
    modifies server
    ensures server.posts == old(server.posts) && server.decisions == old(server.decisions)
    ensures r == Err(Transport) <==> server.broken > old(server.broken)
    ensures server.broken >= old(server.broken)
    ensures r == Err(Transport) ==> server.sent == old(server.sent)
    ensures r != Err(Transport) ==>
              && |server.sent| == |old(server.sent)| + 1 && server.sent[..|old(server.sent)|] == old(server.sent)
              && var first := StreamOf(server.sent[|old(server.sent)|]);
              && (r.Ok? <==> RightRuntime(first, model))
              && if r.Ok? then r.value == first else AboutStream(r.error)
  {
    r := StreamTurn(server);
    if r.Err? { return; }
    var problem := RuntimeProblem(r.value, model);
    if problem.Some? { r := Err(problem.value); }
  }

  /** The stream after an approval, with its checks. */
  method ResumedStream(server: Server, runId: string, id: string, model: string) returns (r: Result<Stream, Error>)
    modifies server
    ensures server.posts == old(server.posts) && server.decisions == old(server.decisions)
    ensures r == Err(Transport) <==> server.broken > old(server.broken)
    ensures server.broken >= old(server.broken)
    ensures r == Err(Transport) ==> server.sent == old(server.sent)
    ensures r != Err(Transport) ==>
              && |server.sent| == |old(server.sent)| + 1 && server.sent[..|old(server.sent)|] == old(server.sent)
              && var next := StreamOf(server.sent[|old(server.sent)|]);
              && (r.Ok? <==> Resumes(next, runId, id) && RightRuntime(next, model))
              && if r.Ok? then r.value == next else AboutStream(r.error)
  {
    var next := StreamTurn(server);
    if next.Err? { return Err(next.error); }
    var problem := ResumeProblem(next.value, runId, id);
    if problem.Some? { return Err(problem.value); }
    problem := RuntimeProblem(next.value, model);
    if problem.Some? { return Err(problem.value); }
    r := next;
  }

  /** One round: the pause is checked, approved and resumed. It fails only for a broken request or for cause. */
  method ApproveAndResume(server: Server, current: Stream, active: Option<string>, model: string)
    returns (r: Result<(string, string, Stream), Error>)
    modifies server
    ensures server.posts == old(server.posts) || OnePost(current, active, old(server.posts), server.posts)
    ensures r.Ok? ==> var (runId, id, resumed) := r.value;
                      && PausesOnce(current, runId, id) && (active == None || active == Some(runId))
                      && server.posts == old(server.posts) + [id]
                      && |server.decisions| == |old(server.decisions)| + 1
                      && Grants(server.decisions[|old(server.decisions)|], runId, id)
                      && |server.sent| == |old(server.sent)| + 1 && resumed == StreamOf(server.sent[|old(server.sent)|])
                      && Resumes(resumed, runId, id) && RightRuntime(resumed, model)
    ensures |server.sent| >= |old(server.sent)| && server.sent[..|old(server.sent)|] == old(server.sent)
    ensures old(server.decisions) <= server.decisions && old(server.posts) <= server.posts
    ensures r == Err(Transport) <==> server.broken > old(server.broken)
    ensures server.broken >= old(server.broken)
    ensures r.Err? && r.error != Transport ==>
              RoundRefused(current, active, model, server.posts[|old(server.posts)|..],
                           server.decisions[|old(server.decisions)|..],
                           StreamsOf(server.sent[|old(server.sent)|..]), r.error)
  {
    ghost var posts, decisions, sent := server.posts, server.decisions, server.sent;
    var paused := PauseOf(current, active);
    if paused.Err? { return Err(paused.error); }
    var (runId, id) := paused.value;
    var decision := server.Approve(id);
    if decision.Err? { return Err(decision.error); }
    var problem := ReceiptProblem(decision.value, runId, id);
    assert server.posts[|posts|..] == [id] && server.decisions[|decisions|..] == [decision.value];
    if problem.Some? {
      assert StreamsOf(server.sent[|sent|..]) == [];
      RoundIsRefused(current, active, model, runId, id, decision.value, server.posts[|posts|..],
                     server.decisions[|decisions|..], [], problem.value);
      return Err(problem.value);
    }
    var next := ResumedStream(server, runId, id, model);
    if next.Err? {
      if next.error != Transport {
        assert StreamsOf(server.sent[|sent|..]) == [StreamOf(server.sent[|sent|])];
        RoundIsRefused(current, active, model, runId, id, decision.value, server.posts[|posts|..],
                       server.decisions[|decisions|..], [StreamOf(server.sent[|sent|])], next.error);
      }
      return Err(next.error);
    }
    r := Ok((runId, id, next.value));
  }

  /** What the logs hold after a call, against what they held before. */
  ghost predicate Logged(sent0: seq<seq<Event>>, sent: seq<seq<Event>>, posts0: seq<string>, posts: seq<string>,
                         rounds: nat)
  {
    && |sent| >= |sent0| && sent[..|sent0|] == sent0 && |posts| >= |posts0| && posts[..|posts0|] == posts0
    && Bounded(StreamsOf(sent[|sent0|..]), posts[|posts0|..], rounds)
  }

  /** The state of the loop: the locals are what the logs hold since the start. */
  ghost predicate InTurn(sent0: seq<seq<Event>>, sent: seq<seq<Event>>, posts0: seq<string>, posts: seq<string>,
                         streams: seq<Stream>,
                         approvals: seq<string>, active: Option<string>, runId: string, model: string)
  {
    && |sent| == |sent0| + |streams| && sent[..|sent0|] == sent0 && streams == StreamsOf(sent[|sent0|..])
    && posts == posts0 + approvals && |streams| == |approvals| + 1
    && Answers(streams, approvals, runId)
    && active == (if approvals == [] then None else Some(runId))
    && forall k :: 0 <= k < |streams| ==> RightRuntime(streams[k], model)
  }

  lemma InTurnLogged(sent0: seq<seq<Event>>, sent: seq<seq<Event>>, posts0: seq<string>, posts: seq<string>,
                     streams: seq<Stream>,
                     approvals: seq<string>, active: Option<string>, runId: string, model: string, rounds: nat)
    requires InTurn(sent0, sent, posts0, posts, streams, approvals, active, runId, model) && |approvals| <= rounds
    ensures Logged(sent0, sent, posts0, posts, rounds)
    ensures posts[|posts0|..] == approvals
  {
    assert posts[|posts0|..] == approvals;
    assert Asked(streams, approvals, runId);
  }

  /** After the first stream. */
  lemma TurnStarts(sent0: seq<seq<Event>>, sent: seq<seq<Event>>, posts0: seq<string>, first: Stream, model: string)
    requires |sent| == |sent0| + 1 && sent[..|sent0|] == sent0 && first == StreamOf(sent[|sent0|])
               && RightRuntime(first, model)
    ensures InTurn(sent0, sent, posts0, posts0, [first], [], None, "", model)
  {
    assert sent[|sent0|..] == [sent[|sent0|]];
    assert posts0 + [] == posts0;
  }

  /** The logs after the first request, whatever came of it. */
  lemma FirstLogs(sent0: seq<seq<Event>>, sent: seq<seq<Event>>, posts0: seq<string>,
                  decisions0: seq<Option<Decision>>, rounds: nat, model: string)
    requires sent == sent0 || (|sent| == |sent0| + 1 && sent[..|sent0|] == sent0)
    ensures Logged(sent0, sent, posts0, posts0, rounds)
    ensures |sent| > |sent0| && !RightRuntime(StreamOf(sent[|sent0|]), model) ==>
              !Sound(StreamsOf(sent[|sent0|..]), posts0[|posts0|..], decisions0[|decisions0|..], model, rounds)
    ensures decisions0[|decisions0|..] == []
  {
    assert sent[..|sent0|] == sent0;
    NothingPosted(sent0, sent, posts0, rounds);
    if |sent| > |sent0| { assert StreamsOf(sent[|sent0|..]) == [StreamOf(sent[|sent0|])]; }
  }

  lemma NothingPosted(sent0: seq<seq<Event>>, sent: seq<seq<Event>>, posts0: seq<string>, rounds: nat)
    requires |sent| >= |sent0| && sent[..|sent0|] == sent0
    ensures Logged(sent0, sent, posts0, posts0, rounds)
  {
    assert posts0[|posts0|..] == [];
    assert Asked(StreamsOf(sent[|sent0|..]), [], "");
  }

  /** The logs after a round that may have failed are still bounded. */
  lemma FailedRound(sent0: seq<seq<Event>>, sent: seq<seq<Event>>, sentNow: seq<seq<Event>>, posts0: seq<string>,
                    posted: seq<string>,
                    postsNow: seq<string>, streams: seq<Stream>, approvals: seq<string>, active: Option<string>,
                    runId: string, model: string,
                    rounds: nat)
    requires InTurn(sent0, sent, posts0, posted, streams, approvals, active, runId, model) && |approvals| < rounds
    requires |sentNow| >= |sent| && sentNow[..|sent|] == sent
    requires postsNow == posted || OnePost(streams[|approvals|], active, posted, postsNow)
    ensures Logged(sent0, sentNow, posts0, postsNow, rounds)
  {
    SentPrefix(sent0, sent, sentNow);
    var now := StreamsOf(sentNow[|sent0|..]);
    if postsNow == posted {
      TailOfSum(posts0, approvals);
      AskedOfPrefix(streams, approvals, now, runId);
    } else {
      var run, id :| PausesOnce(streams[|approvals|], run, id) && (active == None || active == Some(run))
          && postsNow == posted + [id];
      Reassociate(posts0, approvals, id);
      TailOfSum(posts0, approvals + [id]);
      AskedOnce(streams, approvals, now, run, runId, id);
    }
  }

  lemma TailOfSum<T>(a: seq<T>, b: seq<T>)
    ensures (a + b)[|a|..] == b && (a + b)[..|a|] == a
  {
  }

  lemma Reassociate<T>(a: seq<T>, b: seq<T>, x: T)
    ensures a + b + [x] == a + (b + [x])
  {
  }

  /** A longer log starts with the same streams. */
  lemma SentPrefix(sent0: seq<seq<Event>>, sent: seq<seq<Event>>, now: seq<seq<Event>>)
    requires |sent0| <= |sent| <= |now| && sent[..|sent0|] == sent0 && now[..|sent|] == sent
    ensures now[..|sent0|] == sent0
    ensures forall k :: 0 <= k < |sent| - |sent0| ==> StreamsOf(now[|sent0|..])[k] == StreamsOf(sent[|sent0|..])[k]
  {
    forall i | 0 <= i < |sent| ensures now[i] == sent[i] { assert now[..|sent|][i] == sent[i]; }
    assert now[..|sent0|] == sent[..|sent0|];
  }

  lemma AskedOfPrefix(streams: seq<Stream>, approvals: seq<string>, now: seq<Stream>, runId: string)
    requires Answers(streams, approvals, runId) && |streams| <= |now|
               && forall k :: 0 <= k < |streams| ==> now[k] == streams[k]
    ensures Asked(now, approvals, runId)
  {
  }

  lemma AskedOnce(streams: seq<Stream>, approvals: seq<string>, now: seq<Stream>, run: string, runId: string,
                  id: string)
    requires Answers(streams, approvals, runId) && |streams| == |approvals| + 1 && (approvals != [] ==> run == runId)
    requires PausesOnce(streams[|approvals|], run, id)
    requires |streams| <= |now| && forall k :: 0 <= k < |streams| ==> now[k] == streams[k]
    ensures Asked(now, approvals + [id], run)
  {
  }

  /** The state after a round that went well. */
  lemma RoundKept(sent0: seq<seq<Event>>, sent: seq<seq<Event>>, sentNow: seq<seq<Event>>, posts0: seq<string>,
                  posted: seq<string>,
                  streams: seq<Stream>, approvals: seq<string>, active: Option<string>, runId: string, model: string,
                  run: string, id: string, resumed: Stream)
    requires InTurn(sent0, sent, posts0, posted, streams, approvals, active, runId, model)
    requires |sentNow| == |sent| + 1 && sentNow[..|sent|] == sent && resumed == StreamOf(sentNow[|sent|])
    requires PausesOnce(streams[|approvals|], run, id) && (active == None || active == Some(run))
    requires Resumes(resumed, run, id) && RightRuntime(resumed, model)
    ensures InTurn(sent0, sentNow, posts0, posted + [id], streams + [resumed], approvals + [id], Some(run), run, model)
  {
    SentPrefix(sent0, sent, sentNow);
    OneMoreSent(sent0, sent, sentNow);
    Reassociate(posts0, approvals, id);
    assert approvals != [] ==> run == runId;
    AnswersGrow(streams, approvals, run, runId, id, resumed);
  }

  lemma OneMoreSent(sent0: seq<seq<Event>>, sent: seq<seq<Event>>, now: seq<seq<Event>>)
    requires |sent0| <= |sent| && |now| == |sent| + 1 && now[..|sent|] == sent
    ensures StreamsOf(now[|sent0|..]) == StreamsOf(sent[|sent0|..]) + [StreamOf(now[|sent|])]
  {
    assert now == sent + [now[|sent|]];
    assert now[|sent0|..] == sent[|sent0|..] + [now[|sent|]];
  }

  lemma AnswersGrow(streams: seq<Stream>, approvals: seq<string>, run: string, runId: string, id: string,
                    resumed: Stream)
    requires |streams| == |approvals| + 1 && Answers(streams, approvals, runId) && (approvals != [] ==> run == runId)
    requires PausesOnce(streams[|approvals|], run, id) && Resumes(resumed, run, id)
    ensures Answers(streams + [resumed], approvals + [id], run)
  {
  }

  // ---- Refused only for cause -------------------------------------------------------------------

  /** What the server was asked and what it answered is so far that of a good turn, which ends with its last stream or
      can go on from it. */
  ghost predicate Sound(streams: seq<Stream>, posts: seq<string>, decisions: seq<Option<Decision>>, model: string,
                        rounds: nat)
  {
    exists runId :: SoundIn(streams, posts, decisions, model, rounds, runId)
  }

  ghost predicate SoundIn(streams: seq<Stream>, posts: seq<string>, decisions: seq<Option<Decision>>, model: string,
                          rounds: nat, runId: string)
  {
    && 1 <= |streams| <= |posts| + 1
    && Answers(streams, posts, runId) && Granted(decisions, posts, runId)
    && (forall k :: 0 <= k < |streams| ==> RightRuntime(streams[k], model))
    && (|streams| == |posts| + 1 ==>
          Finishes(streams[|posts|]) || (|posts| < rounds && exists id :: PausesOnce(streams[|posts|], runId, id)))
  }

  /** A round that was refused leaves logs of no good turn. */
  lemma RefusedRound(streams: seq<Stream>, approvals: seq<string>, granted: seq<Option<Decision>>,
                     active: Option<string>, runId: string, model: string, rounds: nat, posts: seq<string>,
                     decisions: seq<Option<Decision>>, more: seq<Stream>, e: Error)
    requires |streams| == |approvals| + 1 && Answers(streams, approvals, runId) && Granted(granted, approvals, runId)
    requires active == if approvals == [] then None else Some(runId)
    requires Count(streams[|approvals|].types, ApprovalRequired) != 0
    requires RoundRefused(streams[|approvals|], active, model, posts, decisions, more, e)
    ensures !Sound(streams + more, approvals + posts, granted + decisions, model, rounds)
  {
    forall run ensures !SoundIn(streams + more, approvals + posts, granted + decisions, model, rounds, run) {
      RefusedInRun(streams, approvals, granted, active, runId, model, rounds, posts, decisions, more, e, run);
    }
  }

  lemma RefusedInRun(streams: seq<Stream>, approvals: seq<string>, granted: seq<Option<Decision>>,
                     active: Option<string>, runId: string, model: string, rounds: nat, posts: seq<string>,
                     decisions: seq<Option<Decision>>, more: seq<Stream>, e: Error, run: string)
    requires |streams| == |approvals| + 1 && Answers(streams, approvals, runId) && Granted(granted, approvals, runId)
    requires active == if approvals == [] then None else Some(runId)
    requires Count(streams[|approvals|].types, ApprovalRequired) != 0
    requires RoundRefused(streams[|approvals|], active, model, posts, decisions, more, e)
    ensures !SoundIn(streams + more, approvals + posts, granted + decisions, model, rounds, run)
  {
    var last, n := streams[|approvals|], |approvals|;
    CountExact(last.types, ApprovalRequired);
    assert (streams + more)[n] == last;
    assert approvals != [] ==> (approvals + posts)[0] == approvals[0] && (streams + more)[0] == streams[0];
    if posts != [] {
      assert (approvals + posts)[n] == posts[0] && (granted + decisions)[n] == decisions[0];
      assert more != [] ==> (streams + more)[n + 1] == more[0];
    }
  }

  /** A stream that is no good start, or no good end, is that of no good turn. */
  lemma RefusedStream(streams: seq<Stream>, approvals: seq<string>, granted: seq<Option<Decision>>, model: string,
                      rounds: nat)
    requires |streams| == |approvals| + 1
    requires var last := streams[|approvals|];
             || !RightRuntime(last, model)
             || (!Finishes(last) && (Count(last.types, ApprovalRequired) == 0 || |approvals| >= rounds))
    ensures !Sound(streams, approvals, granted, model, rounds)
  {
  }

  /** The decisions since the start are the ones that granted the approvals. */
  ghost predicate Decided(decisions0: seq<Option<Decision>>, decisions: seq<Option<Decision>>, approvals: seq<string>,
                          runId: string)
  {
    decisions0 <= decisions && Granted(decisions[|decisions0|..], approvals, runId)
  }

  /** After a round that went well. */
  lemma OneMoreGranted(decisions0: seq<Option<Decision>>, was: seq<Option<Decision>>, now: seq<Option<Decision>>,
                       approvals: seq<string>, runId: string, run: string, id: string)
    requires Decided(decisions0, was, approvals, runId) && (approvals != [] ==> run == runId)
    requires was <= now && |now| == |was| + 1 && Grants(now[|was|], run, id)
    ensures Decided(decisions0, now, approvals + [id], run)
  {
    assert now[|decisions0|..] == was[|decisions0|..] + [now[|was|]];
  }

  /** The logs of a call grow by what its last round added. */
  lemma LogsJoin<T>(start: seq<T>, was: seq<T>, now: seq<T>)
    requires start <= was <= now
    ensures now[|start|..] == was[|start|..] + now[|was|..]
  {
  }

  lemma StreamsJoin(start: seq<seq<Event>>, was: seq<seq<Event>>, now: seq<seq<Event>>)
    requires start <= was <= now
    ensures StreamsOf(now[|start|..]) == StreamsOf(was[|start|..]) + StreamsOf(now[|was|..])
  {
    LogsJoin(start, was, now);
  }

  /** A wrong receipt ends a turn, and nothing else is called one: the last decision does not grant the last post in the
      run of the last stream. */
  ghost predicate WrongReceipt(streams: seq<Stream>, posts: seq<string>, decisions: seq<Option<Decision>>, e: Error) {
    var n := |posts| - 1;
    && |streams| == |posts| == |decisions| > 0
    && e == (if decisions[n].None? then ReceiptMissing else ReceiptMismatch)
    && exists runId :: PausesOnce(streams[n], runId, posts[n]) && !Grants(decisions[n], runId, posts[n])
  }

  lemma RefusedReceipt(streams: seq<Stream>, approvals: seq<string>, granted: seq<Option<Decision>>,
                       active: Option<string>, model: string, posts: seq<string>, decisions: seq<Option<Decision>>,
                       more: seq<Stream>, e: Error)
    requires |streams| == |approvals| + 1 && |granted| == |approvals|
    requires RoundRefused(streams[|approvals|], active, model, posts, decisions, more, e)
    ensures e in {ReceiptMissing, ReceiptMismatch} ==>
              WrongReceipt(streams + more, approvals + posts, granted + decisions, e)
    ensures e != RoundLimit
  {
    if posts != [] {
      var n := |approvals|;
      var runId :| RoundBroken(streams[n], active, model, runId, posts[0], decisions[0], more, e);
      assert (streams + more)[n] == streams[n] && (approvals + posts)[n] == posts[0];
      assert (granted + decisions)[n] == decisions[0];
    }
  }

  /** A refused round, seen on the logs of the whole call. */
  lemma TurnRefused(sent0: seq<seq<Event>>, sent: seq<seq<Event>>, sentNow: seq<seq<Event>>, posts0: seq<string>,
                    posted: seq<string>, postsNow: seq<string>, decisions0: seq<Option<Decision>>,
                    decided: seq<Option<Decision>>, decisionsNow: seq<Option<Decision>>, streams: seq<Stream>,
                    approvals: seq<string>, active: Option<string>, runId: string, model: string, rounds: nat, e: Error)
    requires InTurn(sent0, sent, posts0, posted, streams, approvals, active, runId, model)
    requires Decided(decisions0, decided, approvals, runId)
    requires |sent| <= |sentNow| && sentNow[..|sent|] == sent && posted <= postsNow && decided <= decisionsNow
    requires Count(streams[|approvals|].types, ApprovalRequired) != 0
    requires RoundRefused(streams[|approvals|], active, model, postsNow[|posted|..], decisionsNow[|decided|..],
                          StreamsOf(sentNow[|sent|..]), e)
    ensures !Sound(StreamsOf(sentNow[|sent0|..]), postsNow[|posts0|..], decisionsNow[|decisions0|..], model, rounds)
    ensures e in {ReceiptMissing, ReceiptMismatch} ==>
              WrongReceipt(StreamsOf(sentNow[|sent0|..]), postsNow[|posts0|..], decisionsNow[|decisions0|..], e)
    ensures e != RoundLimit
  {
    var posts, decisions, more := postsNow[|posted|..], decisionsNow[|decided|..], StreamsOf(sentNow[|sent|..]);
    StreamsJoin(sent0, sent, sentNow);
    LogsJoin(posts0, posted, postsNow);
    LogsJoin(decisions0, decided, decisionsNow);
    RefusedRound(streams, approvals, decided[|decisions0|..], active, runId, model, rounds, posts, decisions, more, e);
    RefusedReceipt(streams, approvals, decided[|decisions0|..], active, model, posts, decisions, more, e);
  }

  /** `run_turn`, for every behaviour of the server. A turn is refused only for a broken request or for cause: what the
      server answered is then not that of a good turn. */
  method RunTurn(server: Server, rounds: nat, model: string) returns (r: Result<TurnResult, Error>)
    modifies server
    ensures Logged(old(server.sent), server.sent, old(server.posts), server.posts, rounds)
    ensures old(server.decisions) <= server.decisions && server.broken >= old(server.broken)
    ensures r.Ok? ==>
              r.value.streams == StreamsOf(server.sent[|old(server.sent)|..])
                  && r.value.approvals == server.posts[|old(server.posts)|..]
    ensures r.Ok? ==> Completed(r.value, server.decisions[|old(server.decisions)|..], model)
    ensures r == Err(Transport) <==> server.broken > old(server.broken)
    ensures r.Err? && r.error != Transport ==>
              !Sound(StreamsOf(server.sent[|old(server.sent)|..]), server.posts[|old(server.posts)|..],
                     server.decisions[|old(server.decisions)|..], model, rounds)
    ensures r.Err? && r.error in {ReceiptMissing, ReceiptMismatch} ==>
              WrongReceipt(StreamsOf(server.sent[|old(server.sent)|..]), server.posts[|old(server.posts)|..],
                           server.decisions[|old(server.decisions)|..], r.error)
    ensures r == Err(RoundLimit) ==> |server.posts| == |old(server.posts)| + rounds
  {
    ghost var sent0, posts0, decisions0 := server.sent, server.posts, server.decisions;
    var initial := FirstStream(server, model);
    FirstLogs(sent0, server.sent, posts0, decisions0, rounds, model);
    if initial.Err? { return Err(initial.error); }
    var current, streams, approvals: seq<string>, active: Option<string> := initial.value, [initial.value], [], None;
    ghost var runId := "";
    TurnStarts(sent0, server.sent, posts0, initial.value, model);
    while Count(current.types, ApprovalRequired) != 0
      invariant |approvals| <= rounds && |streams| == |approvals| + 1 && current == streams[|approvals|]
      invariant InTurn(sent0, server.sent, posts0, server.posts, streams, approvals, active, runId, model)
      invariant Decided(decisions0, server.decisions, approvals, runId) && server.broken == old(server.broken)
      decreases rounds - |approvals|
    {
      InTurnLogged(sent0, server.sent, posts0, server.posts, streams, approvals, active, runId, model, rounds);
      if |approvals| >= rounds {
        CountExact(current.types, ApprovalRequired);
        RefusedStream(streams, approvals, server.decisions[|decisions0|..], model, rounds);
        return Err(RoundLimit);
      }
      ghost var sent, posted, decided := server.sent, server.posts, server.decisions;
      var step := ApproveAndResume(server, current, active, model);
      if step.Err? {
        FailedRound(sent0, sent, server.sent, posts0, posted, server.posts, streams, approvals, active, runId, model,
            rounds);
        if step.error != Transport {
          TurnRefused(sent0, sent, server.sent, posts0, posted, server.posts, decisions0, decided, server.decisions,
                      streams, approvals, active, runId, model, rounds, step.error);
        }
        return Err(step.error);
      }
      var (run, id, resumed) := step.value;
      RoundKept(sent0, sent, server.sent, posts0, posted, streams, approvals, active, runId, model, run, id, resumed);
      OneMoreGranted(decisions0, decided, server.decisions, approvals, runId, run, id);
      runId := run;
      active, current, streams, approvals := Some(run), resumed, streams + [resumed], approvals + [id];
    }
    InTurnLogged(sent0, server.sent, posts0, server.posts, streams, approvals, active, runId, model, rounds);
    var problem := SuccessProblem(current);
    if problem.Some? {
      RefusedStream(streams, approvals, server.decisions[|decisions0|..], model, rounds);
      return Err(problem.value);
    }
    r := Ok(TurnResult(Strip(Concat(AllChunks(streams))), streams, approvals));
  }
}
