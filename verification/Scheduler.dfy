/** The load scheduler (scripts/ppr00_resource_profile.py:208-210, 602-668, 713-794, 1115-1239). The clock, the sampler
    thread, the completion of streams and the operator's interrupts are nondeterministic choices. */
module Scheduler {
  import opened Prelude

  datatype Reason = WallClock | MaxCalls | NoSamples
  datatype Abort = MemLimit | SamplerDocker | Interrupted | Preflight | LoginFailed | WarmupFailed | InspectFailed
                 | ContainerChanged
  datatype Record = Record(ordinal: nat, success: bool)
  datatype Block = Block(level: nat, target: nat, issued: nat, maxOutstanding: nat, records: seq<Record>)
  datatype Outcome = Outcome(exitCode: nat, completedAllLevels: bool, warmups: seq<Record>, blocks: seq<Block>)

  /** `_level_target`. */
  function LevelTarget(level: nat): (r: nat)
    ensures r >= 2 * level && r >= 10 && (r == 2 * level || r == 10)
  {
    if 2 * level >= 10 then 2 * level else 10
  }

  function Lesser(a: nat, b: nat): nat { if a <= b then a else b }

  function Greater(a: nat, b: nat): nat { if a >= b then a else b }

  // ---- The run state ----------------------------------------------------------------------------

  class RunState {
    const maxCalls: nat
    var callsIssued: nat
    var incomplete: bool
    var reasons: set<Reason>
    var interrupted: bool
    var abort: Option<Abort>
    var memGuard: bool
    var dockerError: bool
    var stop: bool
    /** What befell the run: guard trips, docker errors, a passed deadline, interrupts, failed preflights, logins,
        warm-ups and inspections, changed containers, and a sampler without samples. */
    ghost var troubles: nat

    /** Whatever stops the run is on record, the call cap holds and is blamed only when it is used up, and nothing else
        is blamed unless something befell the run. */
    ghost predicate Sound()
      reads this
    {
      && callsIssued <= maxCalls
      && (stop ==> incomplete || interrupted || abort.Some?)
      && (incomplete || interrupted || memGuard || dockerError ==> stop)
      && (incomplete <==> reasons != {})
      && (MaxCalls in reasons ==> callsIssued == maxCalls)
      && (troubles == 0 ==> abort.None? && !interrupted && reasons <= {MaxCalls})
    }

    /** And whatever befell the run has stopped or aborted it. */
    ghost predicate Valid()
      reads this
    {
      Sound() && (troubles > 0 ==> stop || abort.Some?)
    }

    /** The call count is untouched, and a stop and its reasons stay. */
    twostate predicate OnlyFlags()
      reads this
    {
      && callsIssued == old(callsIssued) && (old(stop) ==> stop) && (old(abort).Some? ==> abort.Some?)
      && old(reasons) <= reasons
    }

    constructor (maxCalls: nat)
      ensures Valid() && this.maxCalls == maxCalls && callsIssued == 0 && !stop && abort.None? && reasons == {}
      ensures troubles == 0
    {
      this.maxCalls := maxCalls;
      callsIssued, incomplete, reasons, interrupted, abort := 0, false, {}, false, None;
      memGuard, dockerError, stop, troubles := false, false, false, 0;
    }

    method MarkIncomplete(reason: Reason)
      requires Sound() && if reason.MaxCalls? then callsIssued == maxCalls else troubles > 0
      modifies this
      ensures Valid() && OnlyFlags() && stop && incomplete && reasons == old(reasons) + {reason}
      ensures troubles == old(troubles)
    {
      incomplete, reasons, stop := true, reasons + {reason}, true;
      assert reason in reasons;
    }

    method Interrupt()
      requires Sound() && troubles > 0
      modifies this
      ensures Valid() && OnlyFlags() && stop && interrupted && reasons == old(reasons)
    {
      interrupted, stop := true, true;
      if abort.None? { abort := Some(Interrupted); }
    }

    /** The sampler may have reported a memory violation or a docker error since the last look. */
    method CheckSamplerAbort()
      requires Valid()
      modifies this
      ensures Valid() && OnlyFlags() && reasons == old(reasons)
    {
      var violation: bool, error: bool := *, *;
      if violation || error { troubles := troubles + 1; }
      if violation && !memGuard {
        memGuard, abort, stop := true, Some(MemLimit), true;
      }
      if error && !dockerError {
        dockerError, stop := true, true;
        if abort.None? { abort := Some(SamplerDocker); }
      }
    }

    /** A refusal always leaves the stop flag set, and blames the call cap only when the last call is used up. */
    method CanIssue() returns (ok: bool)
      requires Valid()
      modifies this
      ensures Valid() && OnlyFlags()
      ensures ok == !stop && (ok ==> callsIssued < maxCalls)
      ensures MaxCalls in reasons && MaxCalls !in old(reasons) ==> callsIssued == maxCalls
    {
      if stop { return false; }
      CheckSamplerAbort();
      if stop { return false; }
      var late: bool := *;
      if late {
        troubles := troubles + 1;
        MarkIncomplete(WallClock);
        return false;
      }
      if callsIssued >= maxCalls {
        MarkIncomplete(MaxCalls);
        return false;
      }
      ok := true;
    }

    /** The look at sampler and deadline in the drain loop. */
    method CheckDrain()
      requires Valid()
      modifies this
      ensures Valid() && OnlyFlags() && (MaxCalls in reasons <==> MaxCalls in old(reasons))
    {
      CheckSamplerAbort();
      var late: bool := *;
      if late {
        troubles := troubles + 1;
        MarkIncomplete(WallClock);
      }
    }

    /** The wait ends early on a guard trip, on a stop or on an interrupt; `ticks` bounds its polls. */
    method SleepGuarded(ticks: nat)
      requires Valid()
      modifies this
      ensures Valid() && OnlyFlags() && reasons == old(reasons)
    {
      var left := ticks;
      while true
        invariant Valid() && OnlyFlags() && reasons == old(reasons)
        decreases left
      {
        CheckSamplerAbort();
        if left == 0 || stop { return; }
        var pressed: bool := *;
        if pressed {
          troubles := troubles + 1;
          Interrupt();
          return;
        }
        left := left - 1;
      }
    }
  }

  // ---- One level --------------------------------------------------------------------------------

  /** If the cap was blamed since, then with streams left to issue. */
  twostate predicate CapLeaves(state: RunState, left: bool)
    reads state
  {
    MaxCalls in state.reasons && MaxCalls !in old(state.reasons) ==> left
  }

  /** Every ordinal 1..n occurs in the records exactly once. */
  ghost predicate ExactlyOnce(records: seq<Record>, n: nat) {
    && |records| == n
    && (forall i, j :: 0 <= i < j < n ==> records[i].ordinal != records[j].ordinal)
    && (forall i :: 0 <= i < n ==> 1 <= records[i].ordinal <= n)
  }

  /** The bookkeeping of a level: what was issued is either returned or outstanding, never both. */
  ghost predicate Accounted(records: seq<Record>, pending: set<nat>, issued: nat) {
    && (forall i, j :: 0 <= i < j < |records| ==> records[i].ordinal != records[j].ordinal)
    && (forall i :: 0 <= i < |records| ==> records[i].ordinal !in pending && 1 <= records[i].ordinal <= issued)
    && (forall k :: k in pending ==> 1 <= k <= issued)
    && |records| + |pending| == issued
  }

  /** `wait(pending, timeout, FIRST_COMPLETED)`: some streams, or none after a timeout, or an interrupt. A wait can
      come back empty-handed only `idle` more times, since every stream ends by itself. */
  method Wait(pending: set<nat>, idle: nat) returns (done: set<nat>, pressed: bool, idleLeft: nat)
    requires pending != {}
    ensures done <= pending && (pressed ==> done == {})
    ensures if done == {} then idleLeft < idle else idleLeft == idle
  {
    var empty: bool := *;
    if empty && idle > 0 {
      pressed := *;
      return {}, pressed, idle - 1;
    }
    var k :| k in pending;
    done := *;
    if !(done <= pending && done != {}) { done := {k}; }
    pressed, idleLeft := false, idle;
  }

  /** `spawn`: one more stream, if the target and the run state allow it. */
  method Spawn(state: RunState, target: nat, issued: nat, pending: set<nat>, tasks: seq<string>,
               ghost records: seq<Record>)
    returns (issuedNow: nat, pendingNow: set<nat>, tasksLeft: seq<string>)
    requires state.Valid() && Accounted(records, pending, issued)
    requires issued <= target && |tasks| >= target - issued
    modifies state
    ensures state.Valid() && (old(state.stop) ==> state.stop)
    ensures Accounted(records, pendingNow, issuedNow)
    ensures issued <= issuedNow <= issued + 1 && issuedNow <= target
    ensures issuedNow == issued + 1 <==> issued < target && !state.stop
    ensures state.callsIssued == old(state.callsIssued) + (issuedNow - issued)
    ensures tasksLeft == tasks[issuedNow - issued..]
    ensures pendingNow == (if issuedNow > issued then pending + {issuedNow} else pending)
    ensures |pendingNow| == |pending| + (issuedNow - issued)
    ensures state.abort.None? ==> old(state.abort).None?
    ensures old(state.reasons) <= state.reasons && CapLeaves(state, issuedNow < target)
  {
    issuedNow, pendingNow, tasksLeft := issued, pending, tasks;
    if issued >= target { return; }
    var ok := state.CanIssue();
    if !ok { return; }
    issuedNow := issued + 1;
    state.callsIssued := state.callsIssued + 1;
    assert issuedNow !in pending;
    pendingNow, tasksLeft := pending + {issuedNow}, tasks[1..];
  }

  /** `future.result()` for each completed stream, in some order. */
  method Collect(done: set<nat>, pending: set<nat>, records: seq<Record>, ghost issued: nat) returns (all: seq<Record>)
    requires Accounted(records, done + pending, issued) && done !! pending
    ensures Accounted(all, pending, issued) && |all| == |records| + |done|
    ensures records <= all
  {
    all := records;
    var left := done;
    while left != {}
      invariant left <= done && Accounted(all, left + pending, issued) && left !! pending
      invariant |all| + |left| == |records| + |done| && records <= all
      decreases |left|
    {
      var k :| k in left;
      var success: bool := *;
      ghost var before := left + pending;
      assert left - {k} + pending == before - {k};
      all, left := all + [Record(k, success)], left - {k};
    }
    assert left + pending == pending;
  }

  lemma AllReturned(records: seq<Record>, issued: nat)
    requires Accounted(records, {}, issued)
    ensures ExactlyOnce(records, issued)
  {
  }

  /** What a finished level says: the cap on outstanding streams, and each issued stream returned once. */
  ghost predicate BlockSound(b: Block) {
    && b.target == LevelTarget(b.level) && b.issued <= b.target
    && b.maxOutstanding <= b.level
    && ExactlyOnce(b.records, b.issued)
  }

  /** The staggered ramp: spawn up to the pool's size. */
  method Ramp(state: RunState, level: nat, target: nat, tasks: seq<string>, stagger: nat)
    returns (issued: nat, pending: set<nat>, tasksLeft: seq<string>)
    requires state.Valid() && level >= 1 && target == LevelTarget(level) && |tasks| >= target
    modifies state
    ensures state.Valid() && (old(state.stop) ==> state.stop) && (state.abort.None? ==> old(state.abort).None?)
    ensures Accounted([], pending, issued) && issued <= Lesser(level, target)
    ensures !state.stop ==> issued == Lesser(level, target)
    ensures state.callsIssued == old(state.callsIssued) + issued
    ensures tasksLeft == tasks[issued..]
    ensures old(state.reasons) <= state.reasons && CapLeaves(state, issued < target)
  {
    issued, pending, tasksLeft := 0, {}, tasks;
    var initial, position := Lesser(level, target), 0;
    while position < initial
      invariant 0 <= position <= initial && issued <= position
      invariant state.Valid() && (old(state.stop) ==> state.stop) && (state.abort.None? ==> old(state.abort).None?)
      invariant Accounted([], pending, issued)
      invariant !state.stop ==> issued == position
      invariant state.callsIssued == old(state.callsIssued) + issued
      invariant tasksLeft == tasks[issued..]
      invariant old(state.reasons) <= state.reasons && CapLeaves(state, issued < target)
    {
      issued, pending, tasksLeft := Spawn(state, target, issued, pending, tasksLeft, []);
      if position + 1 < initial && !state.stop { state.SleepGuarded(stagger); }
      position := position + 1;
    }
  }

  /** One replacement for each completed stream. */
  method Replace(state: RunState, level: nat, target: nat, count: nat, issuedBefore: nat, pendingBefore: set<nat>,
                 tasks: seq<string>,
                 ghost records: seq<Record>)
    returns (issued: nat, pending: set<nat>, tasksLeft: seq<string>)
    requires state.Valid() && Accounted(records, pendingBefore, issuedBefore) && issuedBefore <= target
    requires |tasks| >= target - issuedBefore && |pendingBefore| + count <= level
    modifies state
    ensures state.Valid() && (old(state.stop) ==> state.stop) && (state.abort.None? ==> old(state.abort).None?)
    ensures Accounted(records, pending, issued) && issuedBefore <= issued <= target && issued <= issuedBefore + count
    ensures |pending| == |pendingBefore| + (issued - issuedBefore)
    ensures !state.stop ==> issued == target || issued == issuedBefore + count
    ensures state.callsIssued == old(state.callsIssued) + (issued - issuedBefore)
    ensures tasksLeft == tasks[issued - issuedBefore..]
    ensures old(state.reasons) <= state.reasons && CapLeaves(state, issued < target)
  {
    issued, pending, tasksLeft := issuedBefore, pendingBefore, tasks;
    var n := 0;
    while n < count
      invariant 0 <= n <= count
      invariant state.Valid() && (old(state.stop) ==> state.stop) && (state.abort.None? ==> old(state.abort).None?)
      invariant Accounted(records, pending, issued) && issuedBefore <= issued <= target && issued <= issuedBefore + n
      invariant |pending| == |pendingBefore| + (issued - issuedBefore)
      invariant !state.stop ==> issued == target || issued == issuedBefore + n
      invariant state.callsIssued == old(state.callsIssued) + (issued - issuedBefore)
      invariant tasksLeft == tasks[issued - issuedBefore..]
      invariant old(state.reasons) <= state.reasons && CapLeaves(state, issued < target)
    {
      issued, pending, tasksLeft := Spawn(state, target, issued, pending, tasksLeft, records);
      n := n + 1;
    }
  }

  /** After a wait: look around, collect what came back, and replace it unless the run stopped. */
  method Refill(state: RunState, level: nat, target: nat, done: set<nat>, issuedBefore: nat, pendingBefore: set<nat>,
                tasks: seq<string>, recordsBefore: seq<Record>)
    returns (issued: nat, pending: set<nat>, tasksLeft: seq<string>, records: seq<Record>)
    requires state.Valid() && done <= pendingBefore && Accounted(recordsBefore, pendingBefore, issuedBefore)
    requires issuedBefore <= target && |tasks| >= target - issuedBefore && |pendingBefore| <= level
    requires !state.stop ==> issuedBefore == target || |pendingBefore| == level
    modifies state
    ensures state.Valid() && (old(state.stop) ==> state.stop) && (state.abort.None? ==> old(state.abort).None?)
    ensures Accounted(records, pending, issued) && issuedBefore <= issued <= target && |pending| <= level
    ensures !state.stop ==> issued == target || |pending| == level
    ensures state.callsIssued == old(state.callsIssued) + (issued - issuedBefore)
    ensures tasksLeft == tasks[issued - issuedBefore..]
    ensures old(state.reasons) <= state.reasons && CapLeaves(state, issued < target)
    ensures |pending| == |pendingBefore| - |done| + (issued - issuedBefore) && issued - issuedBefore <= |done|
  {
    assert done + (pendingBefore - done) == pendingBefore;
    assert |pendingBefore| == |done| + |pendingBefore - done|;
    issued, pending, tasksLeft := issuedBefore, pendingBefore - done, tasks;
    state.CheckDrain();
    records := Collect(done, pending, recordsBefore, issued);
    if state.stop { return; }
    issued, pending, tasksLeft := Replace(state, level, target, |done|, issued, pending, tasksLeft, records);
  }

  /** `_run_level`: ramp, replace each completed stream until the target is issued, drain. A level that does not stop
      fills its pool and issues its target. */
  method RunLevel(state: RunState, level: nat, tasks: seq<string>, stagger: nat, idleWaits: nat)
    returns (b: Block, tasksLeft: seq<string>)
    requires state.Valid() && level >= 1 && |tasks| >= LevelTarget(level)
    modifies state
    ensures state.Valid() && (old(state.stop) ==> state.stop) && (state.abort.None? ==> old(state.abort).None?)
    ensures b.level == level && BlockSound(b)
    ensures (b.issued == b.target && b.maxOutstanding == level) || state.stop
    ensures state.callsIssued == old(state.callsIssued) + b.issued
    ensures tasksLeft == tasks[b.issued..]
    ensures old(state.reasons) <= state.reasons && CapLeaves(state, b.issued < b.target)
  {
    var target := LevelTarget(level);
    var issued, pending, left := Ramp(state, level, target, tasks, stagger);
    tasksLeft := left;
    var records: seq<Record>, most: nat, idle := [], |pending|, idleWaits;
    while pending != {}
      invariant state.Valid() && (old(state.stop) ==> state.stop) && (state.abort.None? ==> old(state.abort).None?)
      invariant Accounted(records, pending, issued) && issued <= target
      invariant |pending| <= level && most <= level && (!state.stop ==> most == level)
      invariant old(state.reasons) <= state.reasons && CapLeaves(state, issued < target)
      invariant !state.stop ==> issued == target || |pending| == level
      invariant state.callsIssued == old(state.callsIssued) + issued
      invariant tasksLeft == tasks[issued..]
      decreases 2 * (target - issued) + |pending|, idle
    {
      var done, pressed, idleLeft := Wait(pending, idle);
      idle := idleLeft;
      if pressed {
        state.troubles := state.troubles + 1;
        state.Interrupt();
        continue;
      }
      issued, pending, tasksLeft, records :=
        Refill(state, level, target, done, issued, pending, tasksLeft, records);
      most := Greater(most, |pending|);
    }
    AllReturned(records, issued);
    b := Block(level, target, issued, most, records);
  }

  // ---- The staircase ----------------------------------------------------------------------------

  function TotalTarget(levels: seq<nat>): nat {
    if levels == [] then 0 else TotalTarget(levels[..|levels| - 1]) + LevelTarget(levels[|levels| - 1])
  }

  function TotalIssued(blocks: seq<Block>): nat {
    if blocks == [] then 0 else TotalIssued(blocks[..|blocks| - 1]) + blocks[|blocks| - 1].issued
  }

  lemma {:induction false} PrefixTarget(levels: seq<nat>, n: nat)
    requires n < |levels|
    ensures TotalTarget(levels[..n]) + LevelTarget(levels[n]) <= TotalTarget(levels)
  {
    var init := levels[..|levels| - 1];
    if n < |init| {
      PrefixTarget(init, n);
      assert levels[..n] == init[..n];
    } else {
      assert levels[..n] == init;
    }
  }

  /** The blocks are those of the first levels, each sound. */
  ghost predicate BlocksSound(blocks: seq<Block>, levels: seq<nat>) {
    |blocks| <= |levels| && forall i :: 0 <= i < |blocks| ==> blocks[i].level == levels[i] && BlockSound(blocks[i])
  }

  ghost predicate AllFull(blocks: seq<Block>) {
    forall i :: 0 <= i < |blocks| ==> blocks[i].issued == blocks[i].target
  }

  lemma AppendBlock(blocks: seq<Block>, b: Block, levels: seq<nat>)
    requires BlocksSound(blocks, levels) && |blocks| < |levels| && b.level == levels[|blocks|] && BlockSound(b)
    ensures BlocksSound(blocks + [b], levels)
    ensures TotalIssued(blocks + [b]) == TotalIssued(blocks) + b.issued
    ensures TotalTarget(levels[..|blocks| + 1]) == TotalTarget(levels[..|blocks|]) + b.target
    ensures AllFull(blocks) && b.issued == b.target ==> AllFull(blocks + [b])
  {
    OneMoreIssued(blocks, b);
    OneMoreTarget(levels, |blocks|);
    OneMoreSound(blocks, b, levels);
  }

  lemma OneMoreSound(blocks: seq<Block>, b: Block, levels: seq<nat>)
    requires BlocksSound(blocks, levels) && |blocks| < |levels| && b.level == levels[|blocks|] && BlockSound(b)
    ensures BlocksSound(blocks + [b], levels)
  {
    var all := blocks + [b];
    forall i | 0 <= i < |all| ensures all[i].level == levels[i] && BlockSound(all[i]) {
      assert all[i] == if i < |blocks| then blocks[i] else b;
    }
  }

  lemma OneMoreIssued(blocks: seq<Block>, b: Block)
    ensures TotalIssued(blocks + [b]) == TotalIssued(blocks) + b.issued
  {
    assert (blocks + [b])[..|blocks|] == blocks;
  }

  lemma OneMoreTarget(levels: seq<nat>, n: nat)
    requires n < |levels|
    ensures TotalTarget(levels[..n + 1]) == TotalTarget(levels[..n]) + LevelTarget(levels[n])
  {
    assert levels[..n + 1][..n] == levels[..n];
  }

  /** Two sequential warm-up streams. */
  method WarmUp(state: RunState, tasks: seq<string>) returns (ok: bool, warmups: seq<Record>, tasksLeft: seq<string>)
    requires state.Valid() && |tasks| >= 2
    modifies state
    ensures state.Valid()
    ensures ok ==>
              |warmups| == 2 && warmups[0].success && warmups[1].success && (state.abort.None? ==>
                  old(state.abort).None?)
    ensures !ok ==> state.stop || state.abort.Some?
    ensures |warmups| <= 2 && state.callsIssued == old(state.callsIssued) + |warmups|
    ensures forall k :: 0 <= k < |warmups| ==> warmups[k].ordinal == k + 1
    ensures tasksLeft == tasks[|warmups|..]
    ensures old(state.reasons) <= state.reasons && CapLeaves(state, |warmups| < 2)
    ensures MaxCalls in state.reasons && MaxCalls !in old(state.reasons) ==> !ok
  {
    ok, warmups, tasksLeft := true, [], tasks;
    var ordinal := 1;
    while ordinal <= 2
      invariant 1 <= ordinal <= 3 && |warmups| == ordinal - 1
      invariant state.Valid() && (state.abort.None? ==> old(state.abort).None?)
      invariant ok && forall k :: 0 <= k < |warmups| ==> warmups[k].success && warmups[k].ordinal == k + 1
      invariant state.callsIssued == old(state.callsIssued) + |warmups|
      invariant tasksLeft == tasks[|warmups|..] && state.reasons == old(state.reasons)
    {
      state.CheckSamplerAbort();
      if state.stop { return false, warmups, tasksLeft; }
      if state.callsIssued >= state.maxCalls {
        state.MarkIncomplete(MaxCalls);
        return false, warmups, tasksLeft;
      }
      state.callsIssued := state.callsIssued + 1;
      tasksLeft := tasksLeft[1..];
      var success: bool := *;
      warmups := warmups + [Record(ordinal, success)];
      if !success {
        state.troubles := state.troubles + 1;
        state.abort := Some(WarmupFailed);
        return false, warmups, tasksLeft;
      }
      ordinal := ordinal + 1;
    }
  }

  /** After a level: the stop flag, a second look at the containers, and the settle gap before the next level. */
  method BetweenLevels(state: RunState, more: bool, settle: nat) returns (go: bool)
    requires state.Valid()
    modifies state
    ensures state.Valid() && state.callsIssued == old(state.callsIssued) && (state.abort.None? ==>
              old(state.abort).None?)
    ensures go ==> !old(state.stop)
    ensures state.reasons == old(state.reasons)
    ensures !go ==> state.stop || state.abort.Some?
  {
    if state.stop { return false; }
    var inspected: bool, changed: bool := *, *;
    if !inspected || changed { state.troubles := state.troubles + 1; }
    if !inspected {
      state.abort := Some(InspectFailed);
      return false;
    }
    if changed {
      state.abort := Some(ContainerChanged);
      return false;
    }
    if more {
      state.SleepGuarded(settle);
      state.CheckSamplerAbort();
      if state.stop { return false; }
    }
    go := true;
  }

  /** The levels in order, until one is stopped or the containers changed under it. */
  method Staircase(state: RunState, levels: seq<nat>, tasks: seq<string>, stagger: nat, settle: nat, idleWaits: nat)
    returns (completed: bool, blocks: seq<Block>)
    requires state.Valid() && |tasks| >= TotalTarget(levels) && forall k :: k in levels ==> k >= 1
    modifies state
    ensures state.Valid() && (state.abort.None? ==> old(state.abort).None?)
    ensures BlocksSound(blocks, levels)
    ensures state.callsIssued == old(state.callsIssued) + TotalIssued(blocks)
    ensures !completed ==> state.stop || state.abort.Some?
    ensures completed ==> |blocks| == |levels| && AllFull(blocks)
    ensures completed ==> TotalIssued(blocks) == TotalTarget(levels)
    ensures CapLeaves(state, TotalIssued(blocks) < TotalTarget(levels))
  {
    completed, blocks := true, [];
    var left, i := tasks, 0;
    while i < |levels|
      invariant 0 <= i <= |levels| && |blocks| == i && completed
      invariant state.Valid() && (state.abort.None? ==> old(state.abort).None?)
      invariant BlocksSound(blocks, levels) && AllFull(blocks)
      invariant state.callsIssued == old(state.callsIssued) + TotalIssued(blocks)
      invariant TotalIssued(blocks) == TotalTarget(levels[..i])
      invariant |left| == |tasks| - TotalTarget(levels[..i])
      invariant old(state.reasons) <= state.reasons && CapLeaves(state, false)
    {
      PrefixTarget(levels, i);
      assert levels[i] in levels;
      var b, rest := RunLevel(state, levels[i], left, stagger, idleWaits);
      AppendBlock(blocks, b, levels);
      blocks, left := blocks + [b], rest;
      var go := BetweenLevels(state, i + 1 < |levels|, settle);
      if !go { return false, blocks; }
      i := i + 1;
    }
    assert levels[..i] == levels;
  }

  /** `finalize`: the exit code. */
  method Finalize(state: RunState, completed: bool) returns (exitCode: nat)
    requires state.Valid()
    modifies state
    ensures state.Valid() && state.callsIssued == old(state.callsIssued)
    ensures MaxCalls in state.reasons <==> MaxCalls in old(state.reasons)
    ensures (old(state.stop) ==> state.stop) && (old(state.abort).Some? ==> state.abort.Some?)
    ensures exitCode == 0 || exitCode == 2
    ensures exitCode == 0 <==> completed && !state.incomplete && !state.interrupted && state.abort.None?
    ensures exitCode == 0 ==> !state.stop && old(state.abort).None?
  {
    var sampled: bool := *;
    if !sampled {
      state.troubles := state.troubles + 1;
      state.MarkIncomplete(NoSamples);
    }
    state.CheckSamplerAbort();
    exitCode := if !completed || state.incomplete || state.interrupted || state.abort.Some? then 2 else 0;
  }

  /** The warm-up streams for which a call was issued: a failed login is recorded under ordinal 0, without a call. */
  function WarmupCalls(warmups: seq<Record>): nat {
    if warmups != [] && warmups[0].ordinal == 0 then 0 else |warmups|
  }

  /** `run_profile`, from the preflight on. A run that exits with 0 issued and got back every stream of every level and
      of the warm-up, within the call cap; whatever happens, the cap holds and every issued call is accounted for. */
  method RunProfile(maxCalls: nat, levels: seq<nat>, tasks: seq<string>, preflight: bool, login: bool, quiet: nat,
                    idleBaseline: nat, stagger: nat, settle: nat, idleWaits: nat) returns (r: Outcome, state: RunState)
    requires maxCalls >= 1 && levels != [] && forall k :: k in levels ==> k >= 1
    requires |tasks| == 2 + TotalTarget(levels)
    ensures fresh(state) && state.Valid() && state.maxCalls == maxCalls
    ensures state.callsIssued == WarmupCalls(r.warmups) + TotalIssued(r.blocks) <= maxCalls
    ensures preflight && !login ==> r.warmups == [Record(0, false)] && r.blocks == [] && state.callsIssued == 0
    ensures BlocksSound(r.blocks, levels)
    ensures r.exitCode == 0 || r.exitCode == 2
    ensures r.exitCode == 0 <==> r.completedAllLevels && !state.incomplete && !state.interrupted && state.abort.None?
    ensures r.exitCode == 0 ==> |r.blocks| == |levels| && AllFull(r.blocks)
    ensures r.exitCode == 0 ==> |r.warmups| == 2 && r.warmups[0].success && r.warmups[1].success
    ensures r.exitCode == 0 ==> 2 + TotalTarget(levels) <= maxCalls
    ensures MaxCalls in state.reasons ==> state.callsIssued == maxCalls < 2 + TotalTarget(levels)
    ensures r.exitCode == 0 <==> state.troubles == 0 && 2 + TotalTarget(levels) <= maxCalls
  {
    state := new RunState(maxCalls);
    var warmups: seq<Record>, blocks: seq<Block>, completed := [], [], false;
    if !preflight || !login { state.troubles := state.troubles + 1; }
    if !preflight {
      state.abort := Some(Preflight);
    } else if !login {
      state.abort := Some(LoginFailed);
      warmups := [Record(0, false)];
    } else {
      var ok, left;
      ok, warmups, left := WarmUp(state, tasks);
      if ok && !state.stop {
        state.SleepGuarded(quiet);
        state.CheckSamplerAbort();
        if !state.stop {
          state.SleepGuarded(idleBaseline);
          state.CheckSamplerAbort();
          if !state.stop { completed, blocks := Staircase(state, levels, left, stagger, settle, idleWaits); }
        }
      }
    }
    var exitCode := Finalize(state, completed);
    r := Outcome(exitCode, completed, warmups, blocks);
  }
}
