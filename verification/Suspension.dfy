/**
 Pausing and stopping the company: the cleanup loop that runs against a deadline,
 and what the company's status is in the end.
 */
module Suspension {
  import opened SessionOwnership
  import SessionManagement
  import opened Wrappers

  datatype StopStatus = Stopped | StopFailed | StopAborted

  datatype StopOutcome = StopOutcome(employeeId: EmployeeId, status: StopStatus)

  datatype Snapshot = Snapshot(version: nat, owners: seq<SessionManagement.Owner>)

  /** How an awaited `stopAllBounded` ends. */
  datatype Stops = Outcomes(outcomes: seq<StopOutcome>) | Rejected

  /** What the loop reads: the clock, the owners and the ends of its stops, graceful
      or forced, each as a sequence of answers. */
  datatype Environment = Environment(clock: nat -> int, snapshot: nat -> Snapshot, stop: (nat, bool) -> Stops)

  /** How many answers were read. */
  datatype Cursor = Cursor(ticks: nat, snapshots: nat, stops: nat)

  datatype Cleanup = Cleaned(failed: seq<StopOutcome>) | Crashed

  ghost predicate IsClock(clock: nat -> int) {
    forall i, j :: 0 <= i <= j ==> clock(i) <= clock(j)
  }

  predicate AllStopped(outcomes: seq<StopOutcome>) {
    forall o :: o in outcomes ==> o.status == Stopped
  }

  function NotStopped(outcomes: seq<StopOutcome>): (failed: seq<StopOutcome>)
    ensures failed == [] <==> AllStopped(outcomes)
    ensures forall o :: o in failed <==> o in outcomes && o.status != Stopped
  {
    if outcomes == [] then []
    else if outcomes[0].status == Stopped then NotStopped(outcomes[1..])
    else [outcomes[0]] + NotStopped(outcomes[1..])
  }

  function AbortedOwners(owners: seq<SessionManagement.Owner>): (failed: seq<StopOutcome>)
    ensures |failed| == |owners|
    ensures forall i :: 0 <= i < |owners| ==> failed[i] == StopOutcome(owners[i].employeeId, StopAborted)
  {
    seq(|owners|, i requires 0 <= i < |owners| => StopOutcome(owners[i].employeeId, StopAborted))
  }

  function LateOutcomes(outcomes: seq<StopOutcome>): (failed: seq<StopOutcome>)
    ensures failed != [] && forall o :: o in failed ==> o.status == StopAborted
    ensures outcomes != [] ==> |failed| == |outcomes|
    ensures forall i :: 0 <= i < |outcomes| && |failed| == |outcomes| ==> failed[i].employeeId == outcomes[i].employeeId
  {
    if outcomes == [] then [StopOutcome("unknown", StopAborted)]
    else seq(|outcomes|, i requires 0 <= i < |outcomes| => outcomes[i].(status := StopAborted))
  }

  /** The last two snapshots had no owners and the same version. */
  predicate StablyEmpty(env: Environment, c: Cursor) {
    && 2 <= c.snapshots
    && env.snapshot(c.snapshots - 2).owners == [] && env.snapshot(c.snapshots - 1).owners == []
    && env.snapshot(c.snapshots - 2).version == env.snapshot(c.snapshots - 1).version
  }

  /** Nothing is owned and nothing changes. */
  ghost predicate IsQuiet(env: Environment) {
    && (forall k :: 0 <= k ==> env.snapshot(k).owners == [])
    && (forall k, l :: 0 <= k && 0 <= l ==> env.snapshot(k).version == env.snapshot(l).version)
  }

  predicate DeadlinePassed(env: Environment, deadline: int, c: Cursor) {
    0 < c.ticks && deadline <= env.clock(c.ticks - 1)
  }

  predicate EndedRejected(env: Environment, k: nat) {
    env.stop(k, false).Rejected? || env.stop(k, true).Rejected?
  }

  /** What a result of the cleanup means. An empty list of failures is returned
      only over an empty snapshot; before the deadline, only when the ownership
      did not move. Failures are reported only after the deadline, or when a
      forced stop failed. */
  predicate IsHonest(env: Environment, deadline: int, before: Cursor, result: Cleanup, after: Cursor) {
    && before.snapshots < after.snapshots && before.stops <= after.stops
    && match result
       case Crashed => before.stops < after.stops && EndedRejected(env, after.stops - 1)
       case Cleaned(failed) =>
         if failed == [] then
           && env.snapshot(after.snapshots - 1).owners == []
           && (StablyEmpty(env, after) || DeadlinePassed(env, deadline, after))
         else
           && (forall o :: o in failed ==> o.status != Stopped)
           && (|| DeadlinePassed(env, deadline, after)
               || (&& before.stops + 2 <= after.stops && env.stop(after.stops - 1, true).Outcomes?
                   && failed == NotStopped(env.stop(after.stops - 1, true).outcomes)))
  }

  // What one turn of the loop does, told by what it reads. It starts at a cursor
  // `from` and leaves the loop with a result, or goes on.

  predicate IsLateAt(env: Environment, deadline: int, tick: nat) {
    deadline <= env.clock(tick)
  }

  predicate IsEmptyAt(env: Environment, i: nat) {
    env.snapshot(i).owners == []
  }

  /** Two looks at the ownership from `i` on find nothing, and no change between them. */
  predicate IsStableAt(env: Environment, i: nat) {
    IsEmptyAt(env, i) && IsEmptyAt(env, i + 1) && env.snapshot(i).version == env.snapshot(i + 1).version
  }

  /** The look after a check for stable emptiness that began with look `i`. */
  function AfterCheck(env: Environment, i: nat): nat {
    if IsEmptyAt(env, i) then i + 2 else i + 1
  }

  /** The first look after the stops of a turn. */
  function AfterStops(env: Environment, from: Cursor): nat {
    if IsEmptyAt(env, from.snapshots) then AfterCheck(env, from.snapshots + 1) else from.snapshots + 1
  }

  /** How many employees each stop left, if it told. */
  predicate LeftNothing(end: Stops) {
    end.Outcomes? && AllStopped(end.outcomes)
  }

  predicate LeftSomething(end: Stops) {
    end.Outcomes? && !AllStopped(end.outcomes)
  }

  /** A turn that begins late stops nothing: what is owned then has failed. */
  ghost predicate LateTurnsOnlyLook(env: Environment, deadline: int, from: Cursor, end: Option<Cleanup>, to: Cursor) {
    IsLateAt(env, deadline, from.ticks) ==>
      && to.stops == from.stops
      && end == Some(Cleaned(
           if !IsEmptyAt(env, from.snapshots) then AbortedOwners(env.snapshot(from.snapshots).owners)
           else if IsStableAt(env, from.snapshots + 1) then []
           else if !IsEmptyAt(env, AfterStops(env, from)) then AbortedOwners(env.snapshot(AfterStops(env, from)).owners)
           else [StopOutcome("unknown", StopAborted)]))
  }

  /** A turn begins a stop before the deadline, exactly unless there is nothing to stop. */
  ghost predicate OwnersAreStopped(env: Environment, deadline: int, from: Cursor, end: Option<Cleanup>, to: Cursor) {
    !IsLateAt(env, deadline, from.ticks) ==>
      if IsEmptyAt(env, from.snapshots) && IsStableAt(env, from.snapshots + 1) then
        to.stops == from.stops && end == Some(Cleaned([]))
      else if IsLateAt(env, deadline, from.ticks + 1) then
        to.stops == from.stops && end == Some(Cleaned(AbortedOwners(env.snapshot(AfterStops(env, from)).owners)))
      else
        from.stops < to.stops <= from.stops + 2
  }

  /** A turn stops by force exactly if its graceful stop left something in time. */
  ghost predicate RestIsForced(env: Environment, deadline: int, from: Cursor, end: Option<Cleanup>, to: Cursor) {
    from.stops < to.stops ==>
      var graceful := env.stop(from.stops, false);
      if graceful.Rejected? then
        to.stops == from.stops + 1 && end == Some(Crashed)
      else if IsLateAt(env, deadline, from.ticks + 2) then
        to.stops == from.stops + 1 && end == Some(Cleaned(LateOutcomes(graceful.outcomes)))
      else if LeftSomething(graceful) && IsLateAt(env, deadline, from.ticks + 3) then
        to.stops == from.stops + 1 && end == Some(Cleaned(NotStopped(graceful.outcomes)))
      else
        (LeftSomething(graceful) <==> to.stops == from.stops + 2)
  }

  /** What a forced stop leaves is what the cleanup fails on. */
  ghost predicate RestHasFailed(env: Environment, deadline: int, from: Cursor, end: Option<Cleanup>, to: Cursor) {
    to.stops == from.stops + 2 ==>
      var forced := env.stop(from.stops + 1, true);
      if forced.Rejected? then end == Some(Crashed)
      else if IsLateAt(env, deadline, from.ticks + 4) then end == Some(Cleaned(LateOutcomes(forced.outcomes)))
      else if LeftSomething(forced) then end == Some(Cleaned(NotStopped(forced.outcomes)))
      else forced.outcomes != [] ==> end == None
  }

  /** The last stop of a turn, in time, that left nothing. */
  predicate StoppedEverything(env: Environment, deadline: int, from: Cursor, to: Cursor) {
    || (to.stops == from.stops + 1 && !IsLateAt(env, deadline, from.ticks + 2)
        && LeftNothing(env.stop(from.stops, false)))
    || (to.stops == from.stops + 2 && !IsLateAt(env, deadline, from.ticks + 4)
        && env.stop(from.stops + 1, true) == Outcomes([]))
  }

  /** After such a stop the loop ends if nothing is owned any more and that is stable. */
  ghost predicate NothingIsLeft(env: Environment, deadline: int, from: Cursor, end: Option<Cleanup>, to: Cursor) {
    StoppedEverything(env, deadline, from, to) ==>
      var look, tick := AfterStops(env, from), from.ticks + (if to.stops == from.stops + 1 then 3 else 5);
      if IsStableAt(env, look) then end == Some(Cleaned([]))
      else if IsLateAt(env, deadline, tick) then
        end == Some(Cleaned(AbortedOwners(env.snapshot(AfterCheck(env, look)).owners)))
      else end == None
  }

  ghost predicate IsTurn(env: Environment, deadline: int, from: Cursor, end: Option<Cleanup>, to: Cursor) {
    && from.snapshots < to.snapshots && from.ticks < to.ticks && from.stops <= to.stops
    && LateTurnsOnlyLook(env, deadline, from, end, to)
    && OwnersAreStopped(env, deadline, from, end, to)
    && RestIsForced(env, deadline, from, end, to)
    && RestHasFailed(env, deadline, from, end, to)
    && NothingIsLeft(env, deadline, from, end, to)
  }

  ghost predicate GoOn(env: Environment, deadline: int, turns: seq<Cursor>) {
    forall i, j :: 0 <= i && j == i + 1 < |turns| ==> IsTurn(env, deadline, turns[i], None, turns[j])
  }

  /** The turns of one cleanup: each goes on where the one before ended, and the
      last one ends it. */
  ghost predicate AreTurns(env: Environment, deadline: int, before: Cursor, turns: seq<Cursor>, result: Cleanup,
                           after: Cursor) {
    && turns != [] && turns[0] == before
    && GoOn(env, deadline, turns)
    && IsTurn(env, deadline, turns[|turns| - 1], Some(result), after)
  }

  method OwnershipIsStablyEmpty(env: Environment, before: Cursor) returns (empty: bool, c: Cursor)
    ensures empty <==> IsStableAt(env, before.snapshots)
    ensures c == before.(snapshots := AfterCheck(env, before.snapshots))
    ensures empty ==> StablyEmpty(env, c)
  {
    c := before.(snapshots := before.snapshots + 1);
    var first := env.snapshot(before.snapshots);
    if first.owners != [] {
      return false, c;
    }
    var second := env.snapshot(c.snapshots);
    c := c.(snapshots := c.snapshots + 1);
    empty := second.owners == [] && second.version == first.version;
  }

  /** `#remaining` is zero. */
  method IsLate(env: Environment, deadline: int, before: Cursor) returns (late: bool, c: Cursor)
    ensures c == before.(ticks := before.ticks + 1)
    ensures late <==> IsLateAt(env, deadline, before.ticks)
  {
    late := deadline <= env.clock(before.ticks);
    c := before.(ticks := before.ticks + 1);
  }

  /** After the deadline nothing is stopped any more: what is owned has failed. */
  method CleanupAfterDeadline(env: Environment, deadline: int, before: Cursor, owners: seq<SessionManagement.Owner>)
    returns (result: Cleanup, c: Cursor)
    requires 0 < before.snapshots && owners == env.snapshot(before.snapshots - 1).owners
             && DeadlinePassed(env, deadline, before)
    ensures before.snapshots <= c.snapshots && c.stops == before.stops && c.ticks == before.ticks
    ensures LateTurnsOnlyLook(env, deadline, before.(ticks := before.ticks - 1, snapshots := before.snapshots - 1),
              Some(result), c)
    ensures result.Cleaned? && (result.failed == [] ==> StablyEmpty(env, c))
    ensures forall o :: o in result.failed ==> o.status == StopAborted
  {
    c := before;
    if owners != [] {
      return Cleaned(AbortedOwners(owners)), c;
    }
    var empty;
    empty, c := OwnershipIsStablyEmpty(env, c);
    if empty {
      return Cleaned([]), c;
    }
    var raced := env.snapshot(c.snapshots).owners;
    c := c.(snapshots := c.snapshots + 1);
    return Cleaned(if raced != [] then AbortedOwners(raced) else [StopOutcome("unknown", StopAborted)]), c;
  }

  datatype Progress = Finished(result: Cleanup) | GoesOn

  function EndOf(progress: Progress): Option<Cleanup> {
    if progress.Finished? then Some(progress.result) else None
  }

  /** Nothing is left to stop: the loop ends if that is stable or if it is late. */
  method EndIfEmpty(env: Environment, deadline: int, before: Cursor) returns (progress: Progress, c: Cursor)
    ensures before.snapshots < c.snapshots && c.stops == before.stops && before.ticks <= c.ticks
    ensures EndOf(progress) == if IsStableAt(env, before.snapshots) then Some(Cleaned([]))
            else if IsLateAt(env, deadline, before.ticks) then
              Some(Cleaned(AbortedOwners(env.snapshot(AfterCheck(env, before.snapshots)).owners)))
            else None
    ensures progress.Finished? ==> IsHonest(env, deadline, before, progress.result, c)
  {
    var empty, late;
    empty, c := OwnershipIsStablyEmpty(env, before);
    if empty {
      return Finished(Cleaned([])), c;
    }
    late, c := IsLate(env, deadline, c);
    if late {
      c := c.(snapshots := c.snapshots + 1);
      return Finished(Cleaned(AbortedOwners(env.snapshot(c.snapshots - 1).owners))), c;
    }
    return GoesOn, c;
  }

  /** One call of `stopAllBounded`, and what can be decided from it alone. */
  method StopAndLook(env: Environment, deadline: int, before: Cursor, force: bool)
    returns (outcomes: seq<StopOutcome>, progress: Progress, c: Cursor)
    requires 0 < before.snapshots
    ensures c == before.(stops := before.stops + 1,
                         ticks := before.ticks + (if env.stop(before.stops, force).Rejected? then 0 else 1))
    ensures progress.GoesOn? ==> env.stop(before.stops, force) == Outcomes(outcomes)
    ensures EndOf(progress) == if env.stop(before.stops, force).Rejected? then Some(Crashed)
            else if IsLateAt(env, deadline, before.ticks) then
              Some(Cleaned(LateOutcomes(env.stop(before.stops, force).outcomes)))
            else None
    ensures progress.Finished? ==>
              IsHonest(env, deadline, before.(snapshots := before.snapshots - 1), progress.result, c)
  {
    outcomes := [];
    var end := env.stop(before.stops, force);
    c := before.(stops := before.stops + 1);
    if end.Rejected? {
      return outcomes, Finished(Crashed), c;
    }
    outcomes := end.outcomes;
    var late;
    late, c := IsLate(env, deadline, c);
    if late {
      return outcomes, Finished(Cleaned(LateOutcomes(outcomes))), c;
    }
    return outcomes, GoesOn, c;
  }

  /** The forced stop of a turn, and what is left to do after it. */
  method ForceRest(env: Environment, deadline: int, before: Cursor, ghost from: Cursor)
    returns (progress: Progress, c: Cursor)
    requires before == Cursor(from.ticks + 4, AfterStops(env, from), from.stops + 1)
    ensures before.snapshots <= c.snapshots && before.ticks <= c.ticks && c.stops == before.stops + 1
    ensures RestHasFailed(env, deadline, from, EndOf(progress), c)
    ensures NothingIsLeft(env, deadline, from, EndOf(progress), c)
    ensures progress.Finished? ==>
              IsHonest(env, deadline, before.(snapshots := before.snapshots - 1, stops := from.stops),
                  progress.result, c)
  {
    var forced;
    forced, progress, c := StopAndLook(env, deadline, before, true);
    if progress.Finished? {
      return;
    }
    if forced == [] {
      progress, c := EndIfEmpty(env, deadline, c);
    } else if !AllStopped(forced) {
      progress := Finished(Cleaned(NotStopped(forced)));
    }
  }

  /** One turn of the loop before the deadline: a graceful stop, then a forced one. */
  method StopSessions(env: Environment, deadline: int, before: Cursor, ghost from: Cursor)
    returns (progress: Progress, c: Cursor)
    requires before == Cursor(from.ticks + 2, AfterStops(env, from), from.stops)
    ensures before.snapshots <= c.snapshots && before.ticks <= c.ticks
    ensures before.stops < c.stops <= before.stops + 2
    ensures RestIsForced(env, deadline, from, EndOf(progress), c)
    ensures RestHasFailed(env, deadline, from, EndOf(progress), c)
    ensures NothingIsLeft(env, deadline, from, EndOf(progress), c)
    ensures progress.Finished? ==>
              IsHonest(env, deadline, before.(snapshots := before.snapshots - 1), progress.result, c)
  {
    var graceful, late;
    graceful, progress, c := StopAndLook(env, deadline, before, false);
    if progress.Finished? {
      return;
    }
    if AllStopped(graceful) {
      progress, c := EndIfEmpty(env, deadline, c);
      return;
    }
    late, c := IsLate(env, deadline, c);
    if late {
      return Finished(Cleaned(NotStopped(graceful))), c;
    }
    progress, c := ForceRest(env, deadline, c, from);
  }

  /** One turn of the loop: a look, then the stops, unless it is late or nothing is owned. */
  method CleanupTurn(env: Environment, deadline: int, from: Cursor) returns (progress: Progress, c: Cursor)
    ensures IsTurn(env, deadline, from, EndOf(progress), c)
    ensures progress.Finished? ==> IsHonest(env, deadline, from, progress.result, c)
  {
    var initial := env.snapshot(from.snapshots);
    c := from.(snapshots := from.snapshots + 1);
    var late, empty, result;
    late, c := IsLate(env, deadline, c);
    if late {
      result, c := CleanupAfterDeadline(env, deadline, c, initial.owners);
      return Finished(result), c;
    }
    if initial.owners == [] {
      empty, c := OwnershipIsStablyEmpty(env, c);
      if empty {
        return Finished(Cleaned([])), c;
      }
    }
    late, c := IsLate(env, deadline, c);
    if late {
      c := c.(snapshots := c.snapshots + 1);
      return Finished(Cleaned(AbortedOwners(env.snapshot(c.snapshots - 1).owners))), c;
    }
    progress, c := StopSessions(env, deadline, c, from);
  }

  /** `#cleanupWithinDeadline`. It ends because the clock passes the deadline. */
  method CleanupWithinDeadline(env: Environment, deadline: int, before: Cursor, ghost horizon: nat)
    returns (result: Cleanup, c: Cursor, ghost turns: seq<Cursor>)
    requires IsClock(env.clock) && deadline <= env.clock(horizon)
    ensures IsHonest(env, deadline, before, result, c)
    ensures AreTurns(env, deadline, before, turns, result, c)
    ensures IsQuiet(env) ==> result == Cleaned([])
  {
    c, turns := before, [];
    while true
      invariant before.snapshots <= c.snapshots && before.stops <= c.stops && before.ticks <= c.ticks
      invariant turns == [] <==> c == before
      invariant turns != [] ==> turns[0] == before && IsTurn(env, deadline, turns[|turns| - 1], None, c)
      invariant GoOn(env, deadline, turns)
      decreases horizon - c.ticks
    {
      turns := turns + [c];
      var progress;
      progress, c := CleanupTurn(env, deadline, c);
      if progress.Finished? {
        return progress.result, c, turns;
      }
    }
  }

  // What the cleanup does in all.

  /** Where a turn ends, and how. */
  function TurnEnd(turns: seq<Cursor>, i: nat, result: Cleanup, after: Cursor): (end: (Option<Cleanup>, Cursor))
    requires i < |turns|
  {
    if i + 1 < |turns| then (None, turns[i + 1]) else (Some(result), after)
  }

  /** The next `n` readings of the clock are before the deadline. */
  ghost predicate InTime(env: Environment, deadline: int, tick: nat, n: nat) {
    forall t :: tick <= t < tick + n ==> env.clock(t) < deadline
  }

  lemma TurnAt(env: Environment, deadline: int, before: Cursor, turns: seq<Cursor>, result: Cleanup, after: Cursor,
               i: nat)
    requires AreTurns(env, deadline, before, turns, result, after) && i < |turns|
    ensures var (end, to) := TurnEnd(turns, i, result, after);
            IsTurn(env, deadline, turns[i], end, to)
  {
  }

  lemma {:induction false} TurnsThatGoOnStop(env: Environment, deadline: int, turns: seq<Cursor>)
    requires turns != [] && GoOn(env, deadline, turns)
    ensures turns[0].stops + |turns| - 1 <= turns[|turns| - 1].stops
  {
    var last := |turns| - 1;
    if 0 < last {
      TurnsThatGoOnStop(env, deadline, turns[..last]);
      assert IsTurn(env, deadline, turns[last - 1], None, turns[last]);
    }
  }

  /** A cleanup begins a stop in every turn but the last, and in its first if that
      finds owners in time. */
  lemma CleanupStopsWhatIsOwned(env: Environment, deadline: int, before: Cursor, turns: seq<Cursor>, result: Cleanup,
                                after: Cursor)
    requires AreTurns(env, deadline, before, turns, result, after)
    ensures before.stops + |turns| - 1 <= after.stops
    ensures !IsEmptyAt(env, before.snapshots) && InTime(env, deadline, before.ticks, 2) ==> before.stops < after.stops
  {
    TurnsThatGoOnStop(env, deadline, turns);
  }

  /** A graceful stop that leaves something in time is followed by a forced one, and
      what that leaves in time is what the cleanup fails on. */
  lemma WhatIsLeftIsForced(env: Environment, deadline: int, before: Cursor, turns: seq<Cursor>, result: Cleanup,
                           after: Cursor, i: nat)
    requires AreTurns(env, deadline, before, turns, result, after) && i < |turns|
    requires var (end, to) := TurnEnd(turns, i, result, after);
             turns[i].stops < to.stops
    requires LeftSomething(env.stop(turns[i].stops, false))
    requires InTime(env, deadline, turns[i].ticks + 2, 2)
    ensures TurnEnd(turns, i, result, after).1.stops == turns[i].stops + 2
    ensures LeftSomething(env.stop(turns[i].stops + 1, true)) && InTime(env, deadline, turns[i].ticks + 4, 1) ==>
              i == |turns| - 1 && result == Cleaned(NotStopped(env.stop(turns[i].stops + 1, true).outcomes))
  {
    TurnAt(env, deadline, before, turns, result, after, i);
  }

  /** Stops that leave nothing in time, and two looks that find nothing and no change
      between them, end the cleanup without failures. */
  lemma StableCleanupSucceeds(env: Environment, deadline: int, before: Cursor, turns: seq<Cursor>, result: Cleanup,
                              after: Cursor, i: nat)
    requires AreTurns(env, deadline, before, turns, result, after) && i < |turns|
    requires var (end, to) := TurnEnd(turns, i, result, after);
             StoppedEverything(env, deadline, turns[i], to)
    requires IsStableAt(env, AfterStops(env, turns[i]))
    ensures i == |turns| - 1 && result == Cleaned([])
  {
    TurnAt(env, deadline, before, turns, result, after, i);
  }

  /** The first turn stops owners that it finds in time. */
  lemma FirstTurnStops(env: Environment, deadline: int, before: Cursor, turns: seq<Cursor>, result: Cleanup,
                       after: Cursor)
    requires AreTurns(env, deadline, before, turns, result, after)
    requires !IsEmptyAt(env, before.snapshots) && InTime(env, deadline, before.ticks, 2)
    ensures before.stops < TurnEnd(turns, 0, result, after).1.stops
  {
    TurnAt(env, deadline, before, turns, result, after, 0);
  }

  /** If the first two stops leave something in time, they are the only ones, the
      second is forced, and what it leaves has failed. */
  lemma StuckCleanupStopsTwice(env: Environment, deadline: int, before: Cursor, turns: seq<Cursor>, result: Cleanup,
                               after: Cursor)
    requires AreTurns(env, deadline, before, turns, result, after)
    requires !IsEmptyAt(env, before.snapshots) && InTime(env, deadline, before.ticks, 5)
    requires LeftSomething(env.stop(before.stops, false)) && LeftSomething(env.stop(before.stops + 1, true))
    ensures after.stops == before.stops + 2
    ensures result == Cleaned(NotStopped(env.stop(before.stops + 1, true).outcomes))
  {
    FirstTurnStops(env, deadline, before, turns, result, after);
    WhatIsLeftIsForced(env, deadline, before, turns, result, after, 0);
  }

  /** If the first stop leaves nothing in time, and the ownership is found stably
      empty then, it is the only one, and nothing has failed. */
  lemma StoppedCleanupStopsOnce(env: Environment, deadline: int, before: Cursor, turns: seq<Cursor>, result: Cleanup,
                                after: Cursor)
    requires AreTurns(env, deadline, before, turns, result, after)
    requires !IsEmptyAt(env, before.snapshots) && InTime(env, deadline, before.ticks, 3)
    requires LeftNothing(env.stop(before.stops, false)) && IsStableAt(env, before.snapshots + 1)
    ensures after.stops == before.stops + 1 && result == Cleaned([])
  {
    FirstTurnStops(env, deadline, before, turns, result, after);
    TurnAt(env, deadline, before, turns, result, after, 0);
    StableCleanupSucceeds(env, deadline, before, turns, result, after, 0);
  }

  // The suspension around the cleanup.

  datatype CompanyStatus = Running | Pausing | Paused | Stopping | StoppedStatus | Starting | Blocked

  datatype Goal = ToPause | ToStop

  function TransitionalStatus(goal: Goal): CompanyStatus {
    if goal == ToPause then Pausing else Stopping
  }

  function TerminalStatus(goal: Goal): CompanyStatus {
    if goal == ToPause then Paused else StoppedStatus
  }

  /** Which of the store's writes succeed. `facts` are the checkpoint and the
      terminal status, `prepared` everything between the first write and them. */
  datatype Writes = Writes(transition: bool, prepared: bool, facts: bool, failure: bool, lastFailure: bool)

  datatype Ended = Ended(status: CompanyStatus, suspended: bool)

  /** The `catch` of `#suspend`: a second cleanup, and one more try to block the company. */
  function FallBack(status: CompanyStatus, writes: Writes, second: Cleanup): Ended {
    if second.Cleaned? && writes.lastFailure then Ended(Blocked, false) else Ended(status, false)
  }

  function EndOfSuspension(status: CompanyStatus, goal: Goal, writes: Writes, first: Cleanup, second: Cleanup): Ended {
    if !writes.transition then FallBack(status, writes, second)
    else if !writes.prepared || !writes.facts then FallBack(TransitionalStatus(goal), writes, second)
    else if first == Cleaned([]) then Ended(TerminalStatus(goal), true)
    else if first.Cleaned? && writes.failure then Ended(Blocked, false)
    else FallBack(TerminalStatus(goal), writes, second)
  }

  predicate ReachesFallBack(writes: Writes, first: Cleanup) {
    !writes.transition || !writes.prepared || !writes.facts || first.Crashed?
        || (first != Cleaned([]) && !writes.failure)
  }

  /** One call of `#suspend`: how it ends, what its cleanups return, and what was
      read between them and in all. */
  datatype Suspension = Suspension(ended: Ended, first: Cleanup, second: Cleanup, between: Cursor, after: Cursor)

  predicate IsSuspension(status: CompanyStatus, goal: Goal, writes: Writes, env: Environment, deadline: int,
                         s: Suspension) {
    && s.ended == EndOfSuspension(status, goal, writes, s.first, s.second)
    && (if writes.transition && writes.prepared && writes.facts
         then IsHonest(env, deadline, Cursor(0, 0, 0), s.first, s.between)
        else s.first == Crashed && s.between == Cursor(0, 0, 0))
    && (if ReachesFallBack(writes, s.first) then IsHonest(env, deadline, s.between, s.second, s.after)
         else s.after == s.between)
  }

  /** The `try` of `#suspend`: the company's status, and what the first cleanup returns. */
  method TrySuspend(status: CompanyStatus, goal: Goal, writes: Writes, env: Environment, deadline: int,
                    ghost horizon: nat)
    returns (current: CompanyStatus, first: Cleanup, c: Cursor)
    requires IsClock(env.clock) && deadline <= env.clock(horizon)
    ensures current == if !writes.transition then status
                       else if writes.prepared && writes.facts then TerminalStatus(goal) else TransitionalStatus(goal)
    ensures if writes.transition && writes.prepared && writes.facts then
              IsHonest(env, deadline, Cursor(0, 0, 0), first, c) && (IsQuiet(env) ==> first == Cleaned([]))
            else first == Crashed && c == Cursor(0, 0, 0)
  {
    current, first, c := status, Crashed, Cursor(0, 0, 0);
    if writes.transition {
      current := TransitionalStatus(goal);
      if writes.prepared && writes.facts {
        current := TerminalStatus(goal);
        ghost var turns;
        first, c, turns := CleanupWithinDeadline(env, deadline, c, horizon);
      }
    }
  }

  /** `#suspend`, with the cleanups that it runs. */
  method Suspend(status: CompanyStatus, goal: Goal, writes: Writes, env: Environment, deadline: int, ghost horizon: nat)
    returns (s: Suspension)
    requires IsClock(env.clock) && deadline <= env.clock(horizon)
    ensures IsSuspension(status, goal, writes, env, deadline, s)
    ensures IsQuiet(env) && writes.transition && writes.prepared && writes.facts ==>
              s.ended == Ended(TerminalStatus(goal), true)
  {
    var current, first, between := TrySuspend(status, goal, writes, env, deadline, horizon);
    var ended, second, after := Ended(Blocked, false), Crashed, between;
    if !ReachesFallBack(writes, first) {
      if first == Cleaned([]) {
        ended := Ended(current, true);
      }
    } else {
      ghost var turns;
      second, after, turns := CleanupWithinDeadline(env, deadline, between, horizon);
      if !second.Cleaned? || !writes.lastFailure {
        ended := Ended(current, false);
      }
    }
    assert ended == EndOfSuspension(status, goal, writes, first, second);
    s := Suspension(ended, first, second, between, after);
  }

  // The snapshots show the ownership of a run of the session manager.

  /** The `k`-th snapshot is taken after `history(k)`. */
  ghost predicate ShowsOwners(env: Environment, history: nat -> seq<Step>) {
    && (forall k :: 0 <= k ==>
          var m := After(START, history(k)).manager;
          env.snapshot(k).version == m.version && (env.snapshot(k).owners == [] <==> NothingIsOwned(m)))
    && (forall k, l :: 0 <= k && l == k + 1 ==> history(k) <= history(l))
  }

  /** When the cleanup reports no failure, exactly the superseded handles are still
      alive; so none is if and only if none was left. */
  lemma OnlyLeftLivesAfterCleanup(env: Environment, deadline: int, before: Cursor, c: Cursor, history: nat -> seq<Step>)
    requires IsHonest(env, deadline, before, Cleaned([]), c) && ShowsOwners(env, history)
    ensures var m := After(START, history(c.snapshots - 1)).manager;
            m.alive == m.left && (m.alive == {} <==> m.left == {})
  {
    WithoutOwnersOnlyLeftLive(history(c.snapshots - 1));
  }

  /** An ownership found stably empty was empty at every moment between the two looks. */
  lemma StablyEmptyStaysEmpty(env: Environment, c: Cursor, history: nat -> seq<Step>, k: nat)
    requires StablyEmpty(env, c) && ShowsOwners(env, history)
    requires |history(c.snapshots - 2)| <= k <= |history(c.snapshots - 1)|
    ensures NothingIsOwned(After(START, history(c.snapshots - 1)[..k]).manager)
  {
    var earlier, later := history(c.snapshots - 2), history(c.snapshots - 1);
    EqualVersionsAlongAHistory(earlier, later, k);
  }

  // How a suspension ends.

  /** What is owned when the suspension looks for the last time. */
  ghost function OwnedInTheEnd(s: Suspension, history: nat -> seq<Step>): Manager
    requires 0 < s.after.snapshots
  {
    After(START, history(s.after.snapshots - 1)).manager
  }

  /** In its terminal status with nothing owned, or blocked. */
  ghost predicate EndsWell(goal: Goal, s: Suspension, history: nat -> seq<Step>) {
    || s.ended.status == Blocked
    || (s.ended.status == TerminalStatus(goal) && 0 < s.after.snapshots && NothingIsOwned(OwnedInTheEnd(s, history)))
  }

  /** The cleanup that ran last. */
  function LastCleanup(writes: Writes, first: Cleanup, second: Cleanup): Cleanup {
    if ReachesFallBack(writes, first) then second else first
  }

  /** Whether the company is in its terminal status when the fallback begins. */
  predicate HasTerminalStatus(status: CompanyStatus, goal: Goal, writes: Writes) {
    if writes.transition then writes.prepared && writes.facts else status == TerminalStatus(goal)
  }

  lemma LastLook(status: CompanyStatus, goal: Goal, writes: Writes, env: Environment, deadline: int, s: Suspension)
    requires IsSuspension(status, goal, writes, env, deadline, s)
    ensures 0 < s.after.snapshots
    ensures LastCleanup(writes, s.first, s.second) == Cleaned([]) ==> env.snapshot(s.after.snapshots - 1).owners == []
  {
  }

  lemma EndIsDecided(status: CompanyStatus, goal: Goal, writes: Writes, first: Cleanup, second: Cleanup, empty: bool)
    requires LastCleanup(writes, first, second) == Cleaned([]) ==> empty
    ensures var end := EndOfSuspension(status, goal, writes, first, second).status;
            end == Blocked || (end == TerminalStatus(goal) && empty) <==>
            (ReachesFallBack(writes, first) ==>
              || (second.Cleaned? && writes.lastFailure)
              || (!writes.transition && status == Blocked)
              || (HasTerminalStatus(status, goal, writes) && empty))
  {
  }

  /** A suspension ends well exactly unless it falls back and the fallback cannot
      block a company that is not blocked, in another status or over owned handles. */
  lemma SuspensionEndsWellExactly(status: CompanyStatus, goal: Goal, writes: Writes, env: Environment, deadline: int,
                                  s: Suspension, history: nat -> seq<Step>)
    requires IsSuspension(status, goal, writes, env, deadline, s) && ShowsOwners(env, history)
    ensures 0 < s.after.snapshots
    ensures EndsWell(goal, s, history) <==>
            (ReachesFallBack(writes, s.first) ==>
              || (s.second.Cleaned? && writes.lastFailure)
              || (!writes.transition && status == Blocked)
              || (HasTerminalStatus(status, goal, writes) && env.snapshot(s.after.snapshots - 1).owners == []))
  {
    LastLook(status, goal, writes, env, deadline, s);
    EndIsDecided(status, goal, writes, s.first, s.second, env.snapshot(s.after.snapshots - 1).owners == []);
  }

  /** The same, judged by what the last cleanup reports; and a report without
      failures means that nothing is owned and only superseded handles live. */
  lemma SuspensionReportsWellExactly(status: CompanyStatus, goal: Goal, writes: Writes, env: Environment, deadline: int,
                                     s: Suspension, history: nat -> seq<Step>)
    requires IsSuspension(status, goal, writes, env, deadline, s) && ShowsOwners(env, history)
    ensures (s.ended.status == Blocked
              || (s.ended.status == TerminalStatus(goal) && LastCleanup(writes, s.first, s.second) == Cleaned([]))) <==>
            (ReachesFallBack(writes, s.first) ==>
              || (s.second.Cleaned? && writes.lastFailure)
              || (!writes.transition && status == Blocked)
              || (HasTerminalStatus(status, goal, writes) && s.second == Cleaned([])))
    ensures LastCleanup(writes, s.first, s.second) == Cleaned([]) ==>
              0 < s.after.snapshots && NothingIsOwned(OwnedInTheEnd(s, history))
              && OwnedInTheEnd(s, history).alive == OwnedInTheEnd(s, history).left
    ensures s.ended.suspended ==> LastCleanup(writes, s.first, s.second) == Cleaned([])
  {
    LastLook(status, goal, writes, env, deadline, s);
    EndIsDecided(status, goal, writes, s.first, s.second, LastCleanup(writes, s.first, s.second) == Cleaned([]));
    if LastCleanup(writes, s.first, s.second) == Cleaned([]) {
      WithoutOwnersOnlyLeftLive(history(s.after.snapshots - 1));
    }
  }

  ghost predicate StopsSettle(env: Environment) {
    forall k, force :: 0 <= k ==> env.stop(k, force).Outcomes?
  }

  /** Whatever the sessions do, the suspension ends well. */
  ghost predicate AlwaysEndsWell(status: CompanyStatus, goal: Goal, writes: Writes) {
    forall env, deadline, s, history {:trigger IsSuspension(status, goal, writes, env, deadline, s),
        ShowsOwners(env, history)} ::
      IsSuspension(status, goal, writes, env, deadline, s) && ShowsOwners(env, history) && StopsSettle(env) ==>
          EndsWell(goal, s, history)
  }

  // A session that cannot be stopped.

  const STUCK := Handle("adapter", "worker", "session")

  function StuckHistory(): nat -> seq<Step> {
    k => [StartsAll(["worker"], [Some(STUCK)], 1, [])]
  }

  /** The clock ticks once a reading, and every stop of the only session fails. */
  function StuckEnvironment(): Environment {
    Environment(k => k, k => Snapshot(1, [SessionManagement.Owner("worker", SessionManagement.ActiveSession)]),
                (k, force) => Outcomes([StopOutcome("worker", StopFailed)]))
  }

  lemma StuckSessionLives()
    ensures ShowsOwners(StuckEnvironment(), StuckHistory())
    ensures forall k: nat :: After(START, StuckHistory()(k)).manager.alive == {STUCK}
  {
    var step := StartsAll(["worker"], [Some(STUCK)], 1, []);
    var w := After(START, [step]);
    assert [step][..|[step]| - 1] == [];
    assert After(START, [step]) == Perform(After(START, []), step);
    OneStarts("worker", STUCK);
    assert w.manager == StartAll(INITIAL, ["worker"], [Some(STUCK)], 1, []);
    forall k: nat
      ensures After(START, StuckHistory()(k)).manager == w.manager
      ensures StuckEnvironment().snapshot(k).version == 1 && StuckEnvironment().snapshot(k).owners != []
    {
      assert StuckHistory()(k) == [step];
    }
    assert "worker" in w.manager.active;
  }

  /** A session that cannot be stopped makes a suspension end badly as soon as it
      falls back and cannot block the company. */
  lemma StuckSessionEndsBadly(status: CompanyStatus, goal: Goal, writes: Writes) returns (s: Suspension)
    requires !writes.lastFailure
    requires if writes.transition then !(writes.prepared && writes.facts && writes.failure) else status != Blocked
    ensures IsSuspension(status, goal, writes, StuckEnvironment(), 0, s) && !EndsWell(goal, s, StuckHistory())
  {
    var failed := Cleaned([StopOutcome("worker", StopAborted)]);
    var ran := writes.transition && writes.prepared && writes.facts;
    var first, between := if ran then failed else Crashed, if ran then Cursor(1, 1, 0) else Cursor(0, 0, 0);
    var after := Cursor(between.ticks + 1, between.snapshots + 1, 0);
    s := Suspension(EndOfSuspension(status, goal, writes, first, failed), first, failed, between, after);
    StuckSessionLives();
    assert StuckEnvironment().snapshot(between.snapshots).owners != [];
  }

  /** If stops settle, only the store decides: the suspension ends well whatever the
      sessions do exactly if the last write succeeds, or everything up to the first
      blocking write does, or the company was blocked and stays so. */
  lemma SuspensionAlwaysEndsWellExactly(status: CompanyStatus, goal: Goal, writes: Writes)
    ensures AlwaysEndsWell(status, goal, writes) <==>
            || writes.lastFailure
            || (if writes.transition then writes.prepared && writes.facts && writes.failure else status == Blocked)
  {
    if writes.lastFailure || (if writes.transition then writes.prepared && writes.facts && writes.failure
        else status == Blocked) {
      forall env, deadline, s, history |
        IsSuspension(status, goal, writes, env, deadline, s) && ShowsOwners(env, history) && StopsSettle(env)
        ensures EndsWell(goal, s, history)
      {
        SuspensionEndsWellExactly(status, goal, writes, env, deadline, s, history);
      }
    } else {
      var s := StuckSessionEndsBadly(status, goal, writes);
      StuckSessionLives();
    }
  }

  /** A run of `Suspend` in which it happens: the company stays paused over a live
      session that cannot be stopped, since the store refuses to block it. */
  method PausedOverLiveSessions() returns (s: Suspension)
    ensures IsSuspension(Running, ToPause, Writes(true, true, true, false, false), StuckEnvironment(), 10, s)
    ensures ShowsOwners(StuckEnvironment(), StuckHistory())
    ensures s.ended == Ended(Paused, false) && 0 < s.after.snapshots
            && OwnedInTheEnd(s, StuckHistory()).alive == {STUCK}
  {
    StuckSessionLives();
    s := Suspend(Running, ToPause, Writes(true, true, true, false, false), StuckEnvironment(), 10, 10);
    assert StuckEnvironment().snapshot(s.between.snapshots - 1).owners != [];
  }

  // A session that was replaced and never stopped.

  function RebuiltHistory(e: EmployeeId, first: Handle, second: Handle): nat -> seq<Step> {
    k => RebuildAndStop(e, first, second)
  }

  function RebuiltEnvironment(): Environment {
    Environment(k => k, k => Snapshot(7, []), (k, force) => Outcomes([]))
  }

  /** A run of `Suspend` that succeeds over a session that is alive: the session was
      replaced, nobody stopped it, and nobody owns it. */
  method PausedOverReplacedSession(e: EmployeeId, first: Handle, second: Handle) returns (s: Suspension)
    requires first != second
    ensures IsSuspension(Running, ToPause, Writes(true, true, true, true, true), RebuiltEnvironment(), 10, s)
    ensures ShowsOwners(RebuiltEnvironment(), RebuiltHistory(e, first, second))
    ensures s.ended == Ended(Paused, true) && 0 < s.after.snapshots
    ensures OwnedInTheEnd(s, RebuiltHistory(e, first, second)).alive == {first}
  {
    ReplacedSessionIsLeftAlive(e, first, second);
    ghost var steps := RebuildAndStop(e, first, second);
    assert forall k: nat :: RebuiltHistory(e, first, second)(k) == steps;
    assert forall k: nat :: RebuiltEnvironment().snapshot(k) == Snapshot(7, []);
    s := Suspend(Running, ToPause, Writes(true, true, true, true, true), RebuiltEnvironment(), 10, 10);
  }
}
