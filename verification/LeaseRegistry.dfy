/**
 The leases of connected clients, and the callback that runs once the last client
 is gone.
 */
module LeaseRegistry {
  import opened Wrappers

  type ClientId = string

  /** A promise chain around one call of the callback: it is scheduled, runs, settles,
      goes through `catch` if it failed, and through `finally`. */
  datatype Phase = Scheduled | Running | Settled(ok: bool) | Caught | Finished(ok: bool)

  /** `decided` and `invoked` count the heartbeats there had been by then. */
  datatype Trigger = Trigger(decided: nat, invoked: Option<nat>, phase: Phase)

  /** `waiting` holds the triggers that a disconnect or sweep waits for, to look again. */
  datatype Registry = Registry(
    leases: map<ClientId, int>, hadLease: bool, pauseTriggered: bool, inFlight: Option<nat>,
    triggers: seq<Trigger>, waiting: seq<nat>, heartbeats: nat)

  const INITIAL := Registry(map[], false, false, None, [], [], 0)

  function Beaten(r: Registry, c: ClientId, now: int, ttl: int): Registry {
    r.(leases := r.leases[c := now + ttl], hadLease := true, pauseTriggered := false, heartbeats := r.heartbeats + 1)
  }

  predicate ShouldTrigger(r: Registry) {
    r.inFlight.None? && r.hadLease && !r.pauseTriggered && r.leases == map[]
  }

  function Triggered(r: Registry): Registry {
    if r.inFlight.Some? then r.(waiting := r.waiting + [r.inFlight.value])
    else if !ShouldTrigger(r) then r
    else r.(pauseTriggered := true, inFlight := Some(|r.triggers|),
            triggers := r.triggers + [Trigger(r.heartbeats, None, Scheduled)])
  }

  function Disconnected(r: Registry, c: ClientId): Registry {
    Triggered(r.(leases := r.leases - {c}))
  }

  function Swept(r: Registry, now: int): Registry {
    Triggered(r.(leases := map c | c in r.leases && r.leases[c] > now :: r.leases[c]))
  }

  function SetPhase(r: Registry, n: nat, phase: Phase): Registry
    requires n < |r.triggers|
  {
    r.(triggers := r.triggers[n := r.triggers[n].(phase := phase)])
  }

  function Ended(r: Registry, n: nat, ok: bool): Registry
    requires n < |r.triggers|
  {
    SetPhase(r, n, Finished(ok)).(inFlight := if r.inFlight == Some(n) then None else r.inFlight)
  }

  /** The promise chain of a trigger goes on by one stretch; `ok` is how the callback ends. */
  function Advanced(r: Registry, n: nat, ok: bool): Registry
    requires n < |r.triggers|
  {
    match r.triggers[n].phase
    case Scheduled => r.(triggers := r.triggers[n := r.triggers[n].(phase := Running, invoked := Some(r.heartbeats))])
    case Running => SetPhase(r, n, Settled(ok))
    case Settled(true) => Ended(r, n, true)
    case Settled(false) => SetPhase(r, n, Caught).(pauseTriggered := false)
    case Caught => Ended(r, n, false)
    case Finished(_) => r
  }

  /** A call that waited for a trigger looks again, unless the trigger failed. */
  function LookedAgain(r: Registry, i: nat): Registry
    requires i < |r.waiting| && r.waiting[i] < |r.triggers| && r.triggers[r.waiting[i]].phase.Finished?
  {
    var rest := r.(waiting := r.waiting[..i] + r.waiting[i + 1..]);
    if r.triggers[r.waiting[i]].phase.ok then Triggered(rest) else rest
  }

  datatype Step =
    | Beats(client: ClientId, now: int)
    | Disconnects(client: ClientId)
    | Sweeps(now: int)
    | Advances(n: nat, ok: bool)
    | LooksAgain(i: nat)

  function Perform(ttl: int, r: Registry, step: Step): Registry {
    match step
    case Beats(c, now) => Beaten(r, c, now, ttl)
    case Disconnects(c) => Disconnected(r, c)
    case Sweeps(now) => Swept(r, now)
    case Advances(n, ok) => if n < |r.triggers| then Advanced(r, n, ok) else r
    case LooksAgain(i) =>
      if i < |r.waiting| && r.waiting[i] < |r.triggers| && r.triggers[r.waiting[i]].phase.Finished?
          then LookedAgain(r, i) else r
  }

  function After(ttl: int, r: Registry, steps: seq<Step>): Registry {
    if steps == [] then r else Perform(ttl, After(ttl, r, steps[..|steps| - 1]), steps[|steps| - 1])
  }

  // What every reachable registry satisfies.

  predicate HasFailed(t: Trigger) {
    t.phase == Caught || t.phase == Finished(false)
  }

  function Last(r: Registry): Trigger
    requires r.triggers != []
  {
    r.triggers[|r.triggers| - 1]
  }

  /** The flag stands for a callback that was decided since the last heartbeat and has not failed. */
  predicate FlagIsTrue(r: Registry) {
    r.pauseTriggered <==> r.triggers != [] && Last(r).decided == r.heartbeats && !HasFailed(Last(r))
  }

  predicate InFlightIsLast(r: Registry) {
    if r.triggers != [] && !Last(r).phase.Finished? then r.inFlight == Some(|r.triggers| - 1) else r.inFlight == None
  }

  /** A callback is decided when those before it are finished, and between the same
      heartbeats as one of them only if that one failed. */
  predicate ComesBefore(t: Trigger, u: Trigger) {
    && t.phase.Finished? && t.invoked.Some? && t.decided <= t.invoked.value <= u.decided
    && (t.decided == u.decided ==> HasFailed(t))
  }

  ghost predicate AreInOrder(triggers: seq<Trigger>) {
    forall n, m :: 0 <= n < m < |triggers| ==> ComesBefore(triggers[n], triggers[m])
  }

  predicate IsTimed(r: Registry, t: Trigger) {
    && 0 < t.decided <= r.heartbeats
    && (t.phase == Scheduled <==> t.invoked.None?)
    && (t.invoked.Some? ==> t.decided <= t.invoked.value <= r.heartbeats)
  }

  ghost predicate Invariant(r: Registry) {
    && (r.hadLease <==> r.heartbeats > 0)
    && FlagIsTrue(r)
    && InFlightIsLast(r)
    && AreInOrder(r.triggers)
    && (forall t :: t in r.triggers ==> IsTimed(r, t))
    && (r.heartbeats == 0 || (r.triggers != [] && Last(r).decided == r.heartbeats) ==> r.leases == map[])
    && (forall n :: n in r.waiting ==> n < |r.triggers|)
  }

  lemma LastIsTimed(r: Registry)
    requires Invariant(r)
    ensures r.triggers != [] ==> IsTimed(r, Last(r))
  {
    if r.triggers != [] {
      assert Last(r) in r.triggers;
    }
  }

  lemma TriggerKeepsInvariant(r: Registry)
    requires Invariant(r)
    ensures Invariant(Triggered(r))
  {
    var r' := Triggered(r);
    LastIsTimed(r);
    forall n, m | 0 <= n < m < |r'.triggers|
      ensures ComesBefore(r'.triggers[n], r'.triggers[m])
    {
      if m == |r.triggers| {
        assert r.triggers[n] in r.triggers;
        assert n + 1 < m ==> ComesBefore(r.triggers[n], r.triggers[m - 1]);
      }
    }
    forall t | t in r'.triggers
      ensures IsTimed(r', t)
    {
      assert t in r.triggers || t == Trigger(r.heartbeats, None, Scheduled);
    }
  }

  lemma FewerLeasesKeepInvariant(r: Registry, leases: map<ClientId, int>)
    requires Invariant(r) && leases.Keys <= r.leases.Keys
    ensures Invariant(r.(leases := leases))
  {
    if r.leases == map[] {
      assert leases.Keys == {};
      assert leases == map[];
    }
    forall t | t in r.triggers
      ensures IsTimed(r.(leases := leases), t)
    {
      assert IsTimed(r, t);
    }
  }

  lemma HeartbeatKeepsInvariant(r: Registry, c: ClientId, now: int, ttl: int)
    requires Invariant(r)
    ensures Invariant(Beaten(r, c, now, ttl))
  {
    LastIsTimed(r);
    forall t | t in r.triggers
      ensures IsTimed(Beaten(r, c, now, ttl), t)
    {
      assert IsTimed(r, t);
    }
  }

  lemma AdvanceKeepsInvariant(r: Registry, n: nat, ok: bool)
    requires Invariant(r) && n < |r.triggers|
    ensures Invariant(Advanced(r, n, ok))
  {
    var r' := Advanced(r, n, ok);
    assert r.triggers[n] in r.triggers;
    forall t | t in r'.triggers
      ensures IsTimed(r', t)
    {
      assert t == r'.triggers[n] || t in r.triggers;
    }
  }

  lemma LookAgainKeepsInvariant(r: Registry, i: nat)
    requires Invariant(r)
    requires i < |r.waiting| && r.waiting[i] < |r.triggers| && r.triggers[r.waiting[i]].phase.Finished?
    ensures Invariant(LookedAgain(r, i))
  {
    var rest := r.(waiting := r.waiting[..i] + r.waiting[i + 1..]);
    assert forall n :: n in rest.waiting ==> n in r.waiting;
    forall t | t in r.triggers
      ensures IsTimed(rest, t)
    {
      assert IsTimed(r, t);
    }
    TriggerKeepsInvariant(rest);
  }

  lemma StepKeepsInvariant(ttl: int, r: Registry, step: Step)
    requires Invariant(r)
    ensures Invariant(Perform(ttl, r, step))
  {
    match step
    case Beats(c, now) => HeartbeatKeepsInvariant(r, c, now, ttl);
    case Disconnects(c) =>
      FewerLeasesKeepInvariant(r, r.leases - {c});
      TriggerKeepsInvariant(r.(leases := r.leases - {c}));
    case Sweeps(now) =>
      var leases := map c | c in r.leases && r.leases[c] > now :: r.leases[c];
      FewerLeasesKeepInvariant(r, leases);
      TriggerKeepsInvariant(r.(leases := leases));
    case Advances(n, ok) => if n < |r.triggers| { AdvanceKeepsInvariant(r, n, ok); }
    case LooksAgain(i) =>
      if i < |r.waiting| && r.waiting[i] < |r.triggers| && r.triggers[r.waiting[i]].phase.Finished? {
        LookAgainKeepsInvariant(r, i);
      }
  }

  lemma {:induction false} RunKeepsInvariant(ttl: int, r: Registry, steps: seq<Step>)
    requires Invariant(r)
    ensures Invariant(After(ttl, r, steps))
  {
    if steps != [] {
      RunKeepsInvariant(ttl, r, steps[..|steps| - 1]);
      StepKeepsInvariant(ttl, After(ttl, r, steps[..|steps| - 1]), steps[|steps| - 1]);
    }
  }

  lemma EveryRunKeepsInvariant(ttl: int, steps: seq<Step>)
    ensures Invariant(After(ttl, INITIAL, steps))
  {
    RunKeepsInvariant(ttl, INITIAL, steps);
  }

  // The main results, for every run.

  predicate IsInFlight(r: Registry, n: nat) {
    n < |r.triggers| && !r.triggers[n].phase.Finished?
  }

  /** At most one callback is in flight. */
  lemma OneCallbackAtATime(ttl: int, steps: seq<Step>, n: nat, m: nat)
    requires IsInFlight(After(ttl, INITIAL, steps), n) && IsInFlight(After(ttl, INITIAL, steps), m)
    ensures n == m && After(ttl, INITIAL, steps).inFlight == Some(n)
  {
    EveryRunKeepsInvariant(ttl, steps);
    var r := After(ttl, INITIAL, steps);
    OnlyTheLastIsInFlight(r, n);
    OnlyTheLastIsInFlight(r, m);
  }

  lemma OnlyTheLastIsInFlight(r: Registry, n: nat)
    requires InFlightIsLast(r) && AreInOrder(r.triggers) && IsInFlight(r, n)
    ensures n == |r.triggers| - 1 && r.inFlight == Some(n)
  {
    assert n < |r.triggers| - 1 ==> ComesBefore(r.triggers[n], Last(r));
  }

  /** Somebody waits for the trigger `k`, which may still succeed, to look again. */
  predicate WaitsFor(r: Registry, i: nat, k: nat) {
    i < |r.waiting| && r.waiting[i] == k && k < |r.triggers| && !HasFailed(r.triggers[k])
  }

  /** Where nobody has a lease any more, the flag is set, or the last callback has
      failed, or somebody will look again. */
  ghost predicate NothingIsForgotten(r: Registry) {
    r.hadLease && r.leases == map[] && !r.pauseTriggered ==>
        (r.triggers != [] && HasFailed(Last(r))) || exists i: nat, k: nat :: WaitsFor(r, i, k)
  }

  lemma LookForgetsNothing(r: Registry)
    requires Invariant(r)
    ensures NothingIsForgotten(Triggered(r))
  {
    if r.inFlight.Some? && !HasFailed(Last(r)) {
      assert WaitsFor(Triggered(r), |r.waiting|, r.inFlight.value);
    }
  }

  lemma AdvanceForgetsNothing(r: Registry, n: nat, ok: bool)
    requires Invariant(r) && NothingIsForgotten(r) && n < |r.triggers|
    ensures NothingIsForgotten(Advanced(r, n, ok))
  {
    var r' := Advanced(r, n, ok);
    if !r.triggers[n].phase.Finished? {
      OnlyTheLastIsInFlight(r, n);
    }
    if i: nat, k: nat :| WaitsFor(r, i, k) {
      assert WaitsFor(r', i, k) || (k == n && HasFailed(r'.triggers[n]));
    }
  }

  lemma LookAgainForgetsNothing(r: Registry, i: nat)
    requires Invariant(r) && NothingIsForgotten(r)
    requires i < |r.waiting| && r.waiting[i] < |r.triggers| && r.triggers[r.waiting[i]].phase.Finished?
    ensures NothingIsForgotten(LookedAgain(r, i))
  {
    var rest := r.(waiting := r.waiting[..i] + r.waiting[i + 1..]);
    if r.triggers[r.waiting[i]].phase.ok {
      assert forall n :: n in rest.waiting ==> n in r.waiting;
      assert forall t :: t in rest.triggers ==> IsTimed(r, t) && IsTimed(rest, t);
      LookForgetsNothing(rest);
    } else if j: nat, k: nat :| WaitsFor(r, j, k) {
      assert j != i;
      assert WaitsFor(rest, if j < i then j else j - 1, k);
    }
  }

  lemma StepForgetsNothing(ttl: int, r: Registry, step: Step)
    requires Invariant(r) && NothingIsForgotten(r)
    ensures NothingIsForgotten(Perform(ttl, r, step))
  {
    match step
    case Beats(c, now) => assert c in Beaten(r, c, now, ttl).leases;
    case Disconnects(c) =>
      FewerLeasesKeepInvariant(r, r.leases - {c});
      LookForgetsNothing(r.(leases := r.leases - {c}));
    case Sweeps(now) =>
      var leases := map c | c in r.leases && r.leases[c] > now :: r.leases[c];
      FewerLeasesKeepInvariant(r, leases);
      LookForgetsNothing(r.(leases := leases));
    case Advances(n, ok) => if n < |r.triggers| { AdvanceForgetsNothing(r, n, ok); }
    case LooksAgain(i) =>
      if i < |r.waiting| && r.waiting[i] < |r.triggers| && r.triggers[r.waiting[i]].phase.Finished? {
        LookAgainForgetsNothing(r, i);
      }
  }

  lemma {:induction false} RunForgetsNothing(ttl: int, steps: seq<Step>)
    ensures NothingIsForgotten(After(ttl, INITIAL, steps))
  {
    if steps != [] {
      RunForgetsNothing(ttl, steps[..|steps| - 1]);
      EveryRunKeepsInvariant(ttl, steps[..|steps| - 1]);
      StepForgetsNothing(ttl, After(ttl, INITIAL, steps[..|steps| - 1]), steps[|steps| - 1]);
    }
  }

  /** The last client is never forgotten: when there was a lease, none remains, and
      nobody waits to look again, then a callback was decided since the last
      heartbeat, or the last one decided has failed and the next look retries it. */
  lemma LastClientIsNotForgotten(ttl: int, steps: seq<Step>)
    requires var r := After(ttl, INITIAL, steps); 0 < r.heartbeats && r.leases == map[] && r.waiting == []
    ensures var t := After(ttl, INITIAL, steps).triggers;
            t != [] && (t[|t| - 1].decided == After(ttl, INITIAL, steps).heartbeats || HasFailed(t[|t| - 1]))
  {
    RunForgetsNothing(ttl, steps);
    EveryRunKeepsInvariant(ttl, steps);
  }

  predicate IsCall(step: Step) {
    step.Disconnects? || step.Sweeps?
  }

  function Calls(steps: seq<Step>): nat {
    if steps == [] then 0 else Calls(steps[..|steps| - 1]) + (if IsCall(steps[|steps| - 1]) then 1 else 0)
  }

  lemma StepWaitsOnce(ttl: int, r: Registry, step: Step)
    ensures |Perform(ttl, r, step).waiting| <= |r.waiting| + (if IsCall(step) then 1 else 0)
  {
    if step.LooksAgain? && step.i < |r.waiting| {
      assert |r.waiting[..step.i] + r.waiting[step.i + 1..]| == |r.waiting| - 1;
    }
  }

  /** Every disconnect or sweep waits in one place at most. */
  lemma {:induction false} CallsWaitOnce(ttl: int, steps: seq<Step>)
    ensures |After(ttl, INITIAL, steps).waiting| <= Calls(steps)
  {
    if steps != [] {
      CallsWaitOnce(ttl, steps[..|steps| - 1]);
      StepWaitsOnce(ttl, After(ttl, INITIAL, steps[..|steps| - 1]), steps[|steps| - 1]);
    }
  }

  /** Between two heartbeats at most one callback is decided that does not fail. */
  lemma OneSuccessBetweenHeartbeats(ttl: int, steps: seq<Step>, n: nat, m: nat)
    requires var t := After(ttl, INITIAL, steps).triggers;
             && n < |t| && m < |t| && t[n].decided == t[m].decided
             && !HasFailed(t[n]) && !HasFailed(t[m])
    ensures n == m
  {
    EveryRunKeepsInvariant(ttl, steps);
  }

  /** Which steps look whether the last client is gone: a disconnect, a sweep, and a
      call that goes on after the callback it waited for succeeded. */
  predicate Looks(r: Registry, step: Step) {
    || step.Disconnects? || step.Sweeps?
    || (step.LooksAgain? && step.i < |r.waiting| && r.waiting[step.i] < |r.triggers|
        && r.triggers[r.waiting[step.i]].phase == Finished(true))
  }

  /** A step decides on a callback exactly when it looks, nothing is in flight, there
      was a lease and none remains, and since the last heartbeat every callback has
      failed. So a failure is retried, and a success is not repeated. */
  lemma CallbackIsDecidedExactly(ttl: int, steps: seq<Step>, step: Step)
    ensures var r := After(ttl, INITIAL, steps);
            var r' := Perform(ttl, r, step);
            |r'.triggers| > |r.triggers| <==>
              && Looks(r, step)
              && (forall n :: 0 <= n < |r.triggers| ==> r.triggers[n].phase.Finished?)
              && r.heartbeats > 0 && r'.leases == map[]
              && (forall n :: 0 <= n < |r.triggers| && r.triggers[n].decided == r.heartbeats ==>
                   HasFailed(r.triggers[n]))
  {
    EveryRunKeepsInvariant(ttl, steps);
    LastIsTimed(After(ttl, INITIAL, steps));
    LookDecidesExactly(ttl, After(ttl, INITIAL, steps), step);
  }

  lemma LookDecidesExactly(ttl: int, r: Registry, step: Step)
    requires Invariant(r)
    ensures var r' := Perform(ttl, r, step);
            |r'.triggers| > |r.triggers| <==>
              Looks(r, step) && r.inFlight.None? && r.hadLease && !r.pauseTriggered && r'.leases == map[]
    ensures r.inFlight.None? <==> forall n :: 0 <= n < |r.triggers| ==> r.triggers[n].phase.Finished?
    ensures !r.pauseTriggered <==> forall n ::
              0 <= n < |r.triggers| && r.triggers[n].decided == r.heartbeats ==> HasFailed(r.triggers[n])
  {
    LastIsTimed(r);
    if !r.pauseTriggered {
      forall n | 0 <= n < |r.triggers| && r.triggers[n].decided == r.heartbeats
        ensures HasFailed(r.triggers[n])
      {
        assert n + 1 < |r.triggers| ==> ComesBefore(r.triggers[n], Last(r));
      }
    }
  }

  // Which leases there are.

  /** Nothing takes the lease of `c` away that runs out at `expiry`. */
  predicate Spares(step: Step, c: ClientId, expiry: int) {
    && !(step.Beats? && step.client == c)
    && !(step.Disconnects? && step.client == c)
    && !(step.Sweeps? && expiry <= step.now)
  }

  /** Step `k` is the last heartbeat of `c`, and `c` was neither disconnected nor
      swept since. */
  ghost predicate HoldsLease(ttl: int, steps: seq<Step>, k: nat, c: ClientId) {
    && k < |steps| && steps[k].Beats? && steps[k].client == c
    && (forall j :: k < j < |steps| ==> Spares(steps[j], c, steps[k].now + ttl))
  }

  lemma StepDecidesLease(ttl: int, r: Registry, step: Step, c: ClientId)
    ensures c in Perform(ttl, r, step).leases <==>
            (step.Beats? && step.client == c) || (c in r.leases && Spares(step, c, r.leases[c]))
    ensures c in r.leases && Spares(step, c, r.leases[c]) ==> Perform(ttl, r, step).leases[c] == r.leases[c]
    ensures step.Beats? && step.client == c ==> Perform(ttl, r, step).leases[c] == step.now + ttl
  {
  }

  lemma LeaseIsKeptByAStep(ttl: int, before: seq<Step>, step: Step, k: nat, c: ClientId)
    ensures HoldsLease(ttl, before + [step], k, c) <==>
              || (k == |before| && step.Beats? && step.client == c)
              || (HoldsLease(ttl, before, k, c) && Spares(step, c, before[k].now + ttl))
  {
    var steps := before + [step];
    if k < |before| && HoldsLease(ttl, steps, k, c) {
      assert Spares(steps[|before|], c, steps[k].now + ttl);
      assert forall j :: k < j < |before| ==> before[j] == steps[j];
    }
  }

  lemma {:induction false} HeldLeaseIsThere(ttl: int, steps: seq<Step>, k: nat, c: ClientId)
    requires HoldsLease(ttl, steps, k, c)
    ensures var leases := After(ttl, INITIAL, steps).leases; c in leases && leases[c] == steps[k].now + ttl
    decreases |steps|
  {
    var last := |steps| - 1;
    var before := steps[..last];
    assert steps == before + [steps[last]];
    LeaseIsKeptByAStep(ttl, before, steps[last], k, c);
    StepDecidesLease(ttl, After(ttl, INITIAL, before), steps[last], c);
    if k < last {
      HeldLeaseIsThere(ttl, before, k, c);
    }
  }

  lemma {:induction false} LeaseWasBeaten(ttl: int, steps: seq<Step>, c: ClientId) returns (k: nat)
    requires c in After(ttl, INITIAL, steps).leases
    ensures HoldsLease(ttl, steps, k, c)
    decreases |steps|
  {
    k := |steps| - 1;
    var before := steps[..k];
    assert steps == before + [steps[k]];
    StepDecidesLease(ttl, After(ttl, INITIAL, before), steps[k], c);
    if !(steps[k].Beats? && steps[k].client == c) {
      k := LeaseWasBeaten(ttl, before, c);
      HeldLeaseIsThere(ttl, before, k, c);
    }
    LeaseIsKeptByAStep(ttl, before, steps[|before|], k, c);
  }

  /** A client holds a lease exactly from its last heartbeat until it is disconnected
      or swept. */
  lemma LeaseIsHeldExactly(ttl: int, steps: seq<Step>, c: ClientId)
    ensures c in After(ttl, INITIAL, steps).leases <==> exists k: nat :: HoldsLease(ttl, steps, k, c)
  {
    if c in After(ttl, INITIAL, steps).leases {
      var k := LeaseWasBeaten(ttl, steps, c);
    }
    if k: nat :| HoldsLease(ttl, steps, k, c) {
      HeldLeaseIsThere(ttl, steps, k, c);
    }
  }

  /** The number of callbacks decided in a run. */
  function Decided(ttl: int, steps: seq<Step>): nat {
    |After(ttl, INITIAL, steps).triggers|
  }

  lemma DecisionFindsNoLease(ttl: int, r: Registry, step: Step)
    ensures |r.triggers| <= |Perform(ttl, r, step).triggers|
    ensures |r.triggers| < |Perform(ttl, r, step).triggers| ==> Perform(ttl, r, step).leases == map[] && !step.Beats?
  {
  }

  /** A lease held since before the decision contradicts it. */
  lemma {:induction false} LeaseIsYounger(ttl: int, steps: seq<Step>, n: nat, k: nat, c: ClientId)
    requires HoldsLease(ttl, steps, k, c) && n < Decided(ttl, steps)
    ensures n < Decided(ttl, steps[..k])
    decreases |steps|
  {
    var last := |steps| - 1;
    var before := steps[..last];
    DecisionFindsNoLease(ttl, After(ttl, INITIAL, before), steps[last]);
    HeldLeaseIsThere(ttl, steps, k, c);
    assert n < Decided(ttl, before);
    if k < last {
      assert HoldsLease(ttl, before, k, c);
      LeaseIsYounger(ttl, before, n, k, c);
      assert before[..k] == steps[..k];
    }
  }

  /** A callback finds a lease, when its turn comes or at any other time after its
      decision, exactly if some client beat since the decision and was neither
      disconnected nor swept since. */
  lemma CallbackFindsALeaseExactly(ttl: int, steps: seq<Step>, n: nat)
    requires n < Decided(ttl, steps)
    ensures After(ttl, INITIAL, steps).leases != map[] <==>
            exists k: nat, c :: HoldsLease(ttl, steps, k, c) && n < Decided(ttl, steps[..k])
  {
    var leases := After(ttl, INITIAL, steps).leases;
    if leases != map[] {
      var c :| c in leases;
      var k := LeaseWasBeaten(ttl, steps, c);
      LeaseIsYounger(ttl, steps, n, k, c);
    }
    if k: nat, c :| HoldsLease(ttl, steps, k, c) && n < Decided(ttl, steps[..k]) {
      HeldLeaseIsThere(ttl, steps, k, c);
    }
  }

  /** So a callback whose turn comes before any new heartbeat finds no lease. */
  lemma CallbackRunsWithoutLeases(ttl: int, steps: seq<Step>, n: nat)
    requires var r := After(ttl, INITIAL, steps); n < |r.triggers| && r.triggers[n].phase == Scheduled
    ensures var r := After(ttl, INITIAL, steps); r.triggers[n].decided == r.heartbeats ==> r.leases == map[]
  {
    EveryRunKeepsInvariant(ttl, steps);
    OnlyTheLastIsInFlight(After(ttl, INITIAL, steps), n);
  }

  lemma Then(ttl: int, steps: seq<Step>, step: Step) returns (more: seq<Step>)
    ensures more == steps + [step] && After(ttl, INITIAL, more) == Perform(ttl, After(ttl, INITIAL, steps), step)
  {
    more := steps + [step];
    assert more[..|steps|] == steps;
  }

  /** The decision comes one stretch before the call: a client can come back in
      between, and then the callback runs although a lease is there. */
  lemma CallbackCanRunOverALease(ttl: int, a: ClientId, b: ClientId) returns (steps: seq<Step>)
    ensures var r := After(ttl, INITIAL, steps);
            r == Registry(map[b := ttl], true, false, Some(0), [Trigger(1, Some(2), Running)], [], 2)
  {
    steps := Then(ttl, [], Beats(a, 0));
    steps := Then(ttl, steps, Disconnects(a));
    assert After(ttl, INITIAL, steps).leases == map[];
    steps := Then(ttl, steps, Beats(b, 0));
    steps := Then(ttl, steps, Advances(0, true));
    assert After(ttl, INITIAL, steps).leases == map[b := ttl];
  }

  /** If two callbacks that do not fail are called between the same heartbeats, the
      second is decided between them too, and a client came back between the decision
      of the first and its call. */
  lemma SecondCallNeedsAReturn(ttl: int, steps: seq<Step>, n: nat, m: nat)
    requires var t := After(ttl, INITIAL, steps).triggers;
             n < m < |t| && !HasFailed(t[n]) && t[n].invoked == t[m].invoked
    ensures var t := After(ttl, INITIAL, steps).triggers;
            && t[n].invoked.Some? && t[m].invoked == Some(t[m].decided)
            && t[n].decided < t[n].invoked.value == t[m].decided
  {
    var r := After(ttl, INITIAL, steps);
    EveryRunKeepsInvariant(ttl, steps);
    SecondCallIsOrdered(r, n, m);
  }

  lemma SecondCallIsOrdered(r: Registry, n: nat, m: nat)
    requires AreInOrder(r.triggers) && (forall t :: t in r.triggers ==> IsTimed(r, t))
    requires n < m < |r.triggers| && !HasFailed(r.triggers[n]) && r.triggers[n].invoked == r.triggers[m].invoked
    ensures var t := r.triggers;
            && t[n].invoked.Some? && t[m].invoked == Some(t[m].decided)
            && t[n].decided < t[n].invoked.value == t[m].decided
  {
    assert r.triggers[n] in r.triggers && r.triggers[m] in r.triggers;
    assert ComesBefore(r.triggers[n], r.triggers[m]);
  }

  /** Callback `n` has been called, and no client beat since. */
  predicate WasJustCalled(r: Registry, n: nat) {
    n < |r.triggers| && r.triggers[n].phase == Running && r.triggers[n].invoked == Some(r.heartbeats)
  }

  /** Without a heartbeat, callback `n` succeeds and another one is called. */
  ghost predicate CalledTwice(ttl: int, r: Registry, n: nat, more: seq<Step>) {
    && (forall step :: step in more ==> !step.Beats?)
    && var t := After(ttl, r, more).triggers;
       n < |t| && t[n].phase == Finished(true) && exists m :: n < m < |t| && t[m].invoked.Some?
  }

  lemma StepKeepsDecision(ttl: int, r: Registry, n: nat, step: Step)
    requires n < |r.triggers|
    ensures var r' := Perform(ttl, r, step); n < |r'.triggers| && r'.triggers[n].decided == r.triggers[n].decided
    ensures !step.Beats? ==> Perform(ttl, r, step).heartbeats == r.heartbeats
  {
    match step
    case Beats(c, now) =>
    case Disconnects(c) =>
    case Sweeps(now) =>
    case Advances(m, ok) =>
    case LooksAgain(i) =>
  }

  lemma {:induction false} DecisionsStay(ttl: int, r: Registry, n: nat, more: seq<Step>)
    requires n < |r.triggers|
    ensures var r' := After(ttl, r, more); n < |r'.triggers| && r'.triggers[n].decided == r.triggers[n].decided
    ensures (forall step :: step in more ==> !step.Beats?) ==> After(ttl, r, more).heartbeats == r.heartbeats
  {
    if more != [] {
      var last := |more| - 1;
      assert more == more[..last] + [more[last]];
      DecisionsStay(ttl, r, n, more[..last]);
      StepKeepsDecision(ttl, After(ttl, r, more[..last]), n, more[last]);
    }
  }

  lemma {:induction false} SomeTimeIsLate(leases: map<ClientId, int>) returns (late: int)
    ensures forall c :: c in leases ==> leases[c] <= late
    decreases leases.Keys
  {
    if c :| c in leases {
      var rest := leases - {c};
      var restLate := SomeTimeIsLate(rest);
      late := if restLate < leases[c] then leases[c] else restLate;
      assert forall d :: d in leases && d != c ==> d in rest && leases[d] == rest[d];
    } else {
      late := 0;
    }
  }

  lemma OneMore(ttl: int, r: Registry, steps: seq<Step>, step: Step)
    ensures After(ttl, r, steps + [step]) == Perform(ttl, After(ttl, r, steps), step)
  {
    assert (steps + [step])[..|steps|] == steps;
  }

  /** The way to a second call: all leases run out, the first callback succeeds, and
      the sweep that waited for it looks again. */
  lemma SecondCallFollows(ttl: int, r: Registry, n: nat) returns (more: seq<Step>)
    requires Invariant(r) && WasJustCalled(r, n) && r.triggers[n].decided < r.heartbeats
    ensures CalledTwice(ttl, r, n, more)
  {
    OnlyTheLastIsInFlight(r, n);
    var late := SomeTimeIsLate(r.leases);
    var swept := r.(leases := map[], waiting := r.waiting + [n]);
    more := [Sweeps(late)];
    OneMore(ttl, r, [], Sweeps(late));
    assert After(ttl, r, more).leases == map[];
    assert After(ttl, r, more) == swept;
    OneMore(ttl, r, more, Advances(n, true));
    more := more + [Advances(n, true)];
    OneMore(ttl, r, more, Advances(n, true));
    more := more + [Advances(n, true)];
    var ended := After(ttl, r, more);
    assert ended == swept.(inFlight := None, triggers := r.triggers[n := r.triggers[n].(phase := Finished(true))]);
    OneMore(ttl, r, more, LooksAgain(|r.waiting|));
    more := more + [LooksAgain(|r.waiting|)];
    var looked := After(ttl, r, more);
    assert |looked.triggers| == n + 2 && looked.triggers[n + 1].phase == Scheduled;
    OneMore(ttl, r, more, Advances(n + 1, true));
    more := more + [Advances(n + 1, true)];
    var called := After(ttl, r, more);
    assert called.triggers[n + 1].invoked.Some? && called.triggers[n].phase == Finished(true);
  }

  lemma SecondCallMeansAReturn(ttl: int, r: Registry, n: nat, more: seq<Step>)
    requires Invariant(r) && n < |r.triggers| && CalledTwice(ttl, r, n, more)
    ensures r.triggers[n].decided < r.heartbeats
  {
    var r' := After(ttl, r, more);
    RunKeepsInvariant(ttl, r, more);
    DecisionsStay(ttl, r, n, more);
    var m :| n < m < |r'.triggers| && r'.triggers[m].invoked.Some?;
    assert r'.triggers[m] in r'.triggers && ComesBefore(r'.triggers[n], r'.triggers[m]);
  }

  /** When a callback has just been called: it can succeed and another one be called
      with no heartbeat between their calls exactly if a client came back between its
      decision and its call. */
  lemma SecondCallCanFollowExactly(ttl: int, steps: seq<Step>, n: nat)
    requires WasJustCalled(After(ttl, INITIAL, steps), n)
    ensures var r := After(ttl, INITIAL, steps);
            (exists more :: CalledTwice(ttl, r, n, more)) <==> r.triggers[n].decided < r.heartbeats
  {
    var r := After(ttl, INITIAL, steps);
    EveryRunKeepsInvariant(ttl, steps);
    if r.triggers[n].decided < r.heartbeats {
      var more := SecondCallFollows(ttl, r, n);
    }
    if more :| CalledTwice(ttl, r, n, more) {
      SecondCallMeansAReturn(ttl, r, n, more);
    }
  }

  /** That does happen: two callbacks can succeed with no heartbeat between their calls. */
  lemma TwoCallsCanSucceedBetweenHeartbeats(ttl: int, a: ClientId, b: ClientId) returns (steps: seq<Step>)
    ensures var t := After(ttl, INITIAL, steps).triggers;
            |t| == 2 && t[0].phase == Finished(true) && t[1].phase == Finished(true) && t[0].invoked == t[1].invoked
  {
    steps := CallbackCanRunOverALease(ttl, a, b);
    steps := Then(ttl, steps, Disconnects(b));
    assert After(ttl, INITIAL, steps).leases == map[] && After(ttl, INITIAL, steps).waiting == [0];
    steps := Then(ttl, steps, Advances(0, true));
    steps := Then(ttl, steps, Advances(0, true));
    steps := Then(ttl, steps, LooksAgain(0));
    assert |After(ttl, INITIAL, steps).triggers| == 2;
    steps := Then(ttl, steps, Advances(1, true));
    steps := Then(ttl, steps, Advances(1, true));
    steps := Then(ttl, steps, Advances(1, true));
  }

  // The registry, updated in place.

  class Leases {
    const ttlMs: int
    var leases: map<ClientId, int>
    var hadLease: bool
    var pauseTriggered: bool
    var triggerInFlight: Option<nat>
    var triggers: seq<Trigger>
    var waiting: seq<nat>
    var heartbeats: nat

    function State(): Registry
      reads this
    {
      Registry(leases, hadLease, pauseTriggered, triggerInFlight, triggers, waiting, heartbeats)
    }

    constructor (ttlMs: int)
      ensures State() == INITIAL && this.ttlMs == ttlMs
    {
      this.ttlMs := ttlMs;
      leases, hadLease, pauseTriggered, triggerInFlight, triggers, waiting, heartbeats := map[], false, false, None,
          [], [], 0;
    }

    method Heartbeat(client: ClientId, now: int)
      modifies this
      ensures State() == Beaten(old(State()), client, now, ttlMs)
    {
      leases := leases[client := now + ttlMs];
      hadLease := true;
      pauseTriggered := false;
      heartbeats := heartbeats + 1;
    }

    method Disconnect(client: ClientId)
      modifies this
      ensures State() == Disconnected(old(State()), client)
    {
      leases := leases - {client};
      TriggerIfEmpty();
    }

    method DeleteExpiredLeases(now: int)
      modifies this`leases
      ensures leases == map c | c in old(leases) && old(leases)[c] > now :: old(leases)[c]
    {
      var rest := leases.Keys;
      while rest != {}
        invariant rest <= leases.Keys <= old(leases).Keys
        invariant forall c :: c in old(leases) && (c in rest || old(leases)[c] > now) ==> c in leases
        invariant forall c :: c in leases ==> leases[c] == old(leases)[c] && (c in rest || leases[c] > now)
        decreases |rest|
      {
        var client :| client in rest;
        rest := rest - {client};
        if leases[client] <= now {
          leases := leases - {client};
        }
      }
    }

    method Sweep(now: int)
      modifies this
      ensures State() == Swept(old(State()), now)
    {
      DeleteExpiredLeases(now);
      TriggerIfEmpty();
    }

    method TriggerIfEmpty()
      modifies this`pauseTriggered, this`triggerInFlight, this`triggers, this`waiting
      ensures State() == Triggered(old(State()))
    {
      if triggerInFlight.Some? {
        waiting := waiting + [triggerInFlight.value];
        return;
      }
      if !hadLease || pauseTriggered || leases != map[] {
        return;
      }
      pauseTriggered := true;
      triggerInFlight := Some(|triggers|);
      triggers := triggers + [Trigger(heartbeats, None, Scheduled)];
    }

    /** The promise chain of a trigger goes on by one stretch. */
    method Advance(n: nat, ok: bool)
      requires n < |triggers|
      modifies this`pauseTriggered, this`triggerInFlight, this`triggers
      ensures State() == Advanced(old(State()), n, ok)
    {
      match triggers[n].phase
      case Scheduled => triggers := triggers[n := triggers[n].(phase := Running, invoked := Some(heartbeats))];
      case Running => triggers := triggers[n := triggers[n].(phase := Settled(ok))];
      case Settled(true) => Finally(n, true);
      case Settled(false) =>
        pauseTriggered := false;
        triggers := triggers[n := triggers[n].(phase := Caught)];
      case Caught => Finally(n, false);
      case Finished(_) =>
    }

    method Finally(n: nat, ok: bool)
      requires n < |triggers|
      modifies this`triggerInFlight, this`triggers
      ensures State() == Ended(old(State()), n, ok)
    {
      if triggerInFlight == Some(n) {
        triggerInFlight := None;
      }
      triggers := triggers[n := triggers[n].(phase := Finished(ok))];
    }

    /** A call that waited for a trigger goes on. */
    method LookAgain(i: nat)
      requires i < |waiting| && waiting[i] < |triggers| && triggers[waiting[i]].phase.Finished?
      modifies this
      ensures State() == LookedAgain(old(State()), i)
    {
      var ok := triggers[waiting[i]].phase.ok;
      waiting := waiting[..i] + waiting[i + 1..];
      if ok {
        TriggerIfEmpty();
      }
    }
  }
}
