/**
 Requests of clients that retry, and a server that may crash: the durable claim
 ledger, the requests in flight and the memory of completed requests. Each
 transition is one stretch between two awaits, or a crash.
 */
module RequestProtocol {
  import opened RequestCache
  import opened Wrappers

  predicate IsMutating(f: Fingerprint) {
    f.operation in {"company.start", "company.pause", "company.resume", "company.stop", "action.dispatch"}
  }

  datatype Request = Request(key: Key, fingerprint: Fingerprint)

  datatype Refusal = HandshakeRequired | RequestIdConflict | ReplayIsUnavailable | LocalEffectFailed

  datatype Verdict = Original(response: Response) | Refused(refusal: Refusal)

  datatype Reply = Reply(request: Request, verdict: Verdict)

  datatype Completion = Completion(request: Request, response: Response)

  datatype Flight = Flight(id: nat, request: Request)

  datatype Claim = Claim(fingerprint: Fingerprint, completed: bool)

  /** What a crash loses. `settled` holds the responses that waiters still await. */
  datatype Server = Server(
    memory: Memory, pending: map<Key, Flight>, running: map<nat, Request>,
    settled: map<nat, Response>, waiters: seq<Flight>, nextFlight: nat)

  /** The server, the ledger that survives crashes, and what has happened so far. */
  datatype World = World(
    server: Server, ledger: map<Key, Claim>,
    executed: seq<Request>, completions: seq<Completion>, replies: seq<Reply>)

  datatype Limits = Limits(sizeLimit: nat, byteLimit: nat)

  const EMPTY_MEMORY := Memory(map[], map[], [], 0)
  const FRESH_SERVER := Server(EMPTY_MEMORY, map[], map[], map[], [], 0)
  const INITIAL := World(FRESH_SERVER, map[], [], [], [])

  function Say(w: World, request: Request, verdict: Verdict): World {
    w.(replies := w.replies + [Reply(request, verdict)])
  }

  /** Starting a request: it enters the map of requests in flight. */
  function Launch(s: Server, request: Request): Server {
    s.(pending := s.pending[request.key := Flight(s.nextFlight, request)],
       running := s.running[s.nextFlight := request],
       nextFlight := s.nextFlight + 1)
  }

  function Execute(w: World, request: Request): World {
    w.(server := Launch(w.server, request), executed := w.executed + [request])
  }

  /** A mutation is claimed in the ledger before it starts. */
  function Claiming(w: World, request: Request): World {
    if IsMutating(request.fingerprint) then w.(ledger := w.ledger[request.key := Claim(request.fingerprint, false)])
        else w
  }

  function Join(w: World, request: Request): World
    requires request.key in w.server.pending
  {
    w.(server := w.server.(waiters := w.server.waiters + [Flight(w.server.pending[request.key].id, request)]))
  }

  /** A replayed response. The handshake and the heartbeat repeat their effect on the
      connection first, and report it if that fails. */
  function Replayed(request: Request, response: Response, effectFails: bool): Verdict {
    if response.ok && request.fingerprint.operation in {"handshake", "client.heartbeat"} && effectFails
        then Refused(LocalEffectFailed)
    else Original(response)
  }

  /** A request line, up to its reply or its first await. */
  function Arrive(w: World, request: Request, handshaken: bool, effectFails: bool): World {
    var s := w.server;
    var k, f := request.key, request.fingerprint;
    if !handshaken && f.operation != "handshake" then Say(w, request, Refused(HandshakeRequired))
    else if k in s.memory.cache then
      if s.memory.cache[k].fingerprint != f then Say(w, request, Refused(RequestIdConflict))
      else Say(w, request, Replayed(request, s.memory.cache[k].response, effectFails))
    else if k in s.memory.tombstones then
      Say(w, request, Refused(if s.memory.tombstones[k] == f then ReplayIsUnavailable else RequestIdConflict))
    else if k in s.pending then
      if s.pending[k].request.fingerprint != f then Say(w, request, Refused(RequestIdConflict))
      else Join(w, request)
    else if IsMutating(f) && k in w.ledger then
      Say(w, request, Refused(if w.ledger[k].fingerprint == f then ReplayIsUnavailable else RequestIdConflict))
    else
      Execute(Claiming(w, request), request)
  }

  /** The flight `id` leaves the map of requests in flight, unless another one
      took its place, and its response is remembered. */
  ghost predicate Land(l: Limits, s: Server, s': Server, id: nat, request: Request, response: Response, bytes: nat) {
    && s' == s.(
         memory := s'.memory,
         pending := if request.key in s.pending && s.pending[request.key].id == id then s.pending - {request.key}
             else s.pending,
         running := s.running - {id},
         settled := s.settled[id := response])
    && Completed(s.memory, request.key, Entry(request.fingerprint, response, bytes), l.sizeLimit, l.byteLimit,
         s'.memory)
  }

  /** A request in flight gets its response; the store may fail to note it. */
  ghost predicate Finish(l: Limits, w: World, w': World, id: nat, response: Response, bytes: nat, noted: bool) {
    && id in w.server.running
    && var request := w.server.running[id];
       && Land(l, w.server, w'.server, id, request, response, bytes)
       && w'.ledger == (if IsMutating(request.fingerprint) && request.key in w.ledger && noted
                        then w.ledger[request.key := w.ledger[request.key].(completed := true)] else w.ledger)
       && w'.executed == w.executed
       && w'.completions == w.completions + [Completion(request, response)]
       && w'.replies == w.replies + [Reply(request, Original(response))]
  }

  /** A waiter is answered with the response of the flight it joined. */
  function Wake(w: World, i: nat, effectFails: bool): World
    requires i < |w.server.waiters| && w.server.waiters[i].id in w.server.settled
  {
    var waiter := w.server.waiters[i];
    Say(w.(server := w.server.(waiters := w.server.waiters[..i] + w.server.waiters[i + 1..])),
        waiter.request, Replayed(waiter.request, w.server.settled[waiter.id], effectFails))
  }

  function Crash(w: World): World {
    w.(server := FRESH_SERVER)
  }

  /** The claim is committed, and the process dies before it executes anything. */
  function CrashAfterClaim(w: World, request: Request): World {
    Crash(w.(ledger := w.ledger[request.key := Claim(request.fingerprint, false)]))
  }

  ghost predicate Next(l: Limits, w: World, w': World) {
    || (exists request, handshaken, effectFails :: w' == Arrive(w, request, handshaken, effectFails))
    || (exists id, response, bytes, noted :: Finish(l, w, w', id, response, bytes, noted))
    || (exists i: nat, effectFails ::
         i < |w.server.waiters| && w.server.waiters[i].id in w.server.settled && w' == Wake(w, i, effectFails))
    || w' == Crash(w)
    || (exists request: Request ::
         IsMutating(request.fingerprint) && request.key !in w.ledger && w' == CrashAfterClaim(w, request))
  }

  ghost predicate IsRun(l: Limits, run: seq<World>) {
    && run != [] && run[0] == INITIAL
    && forall i, j :: 0 <= i && j == i + 1 < |run| ==> Next(l, run[i], run[j])
  }

  // What every reachable world satisfies.

  /** A mutation that has started is the one that claimed the key. */
  ghost predicate Claimed(ledger: map<Key, Claim>, request: Request) {
    IsMutating(request.fingerprint) ==> request.key in ledger && ledger[request.key].fingerprint == request.fingerprint
  }

  ghost predicate AllClaimed(ledger: map<Key, Claim>, executed: seq<Request>) {
    forall r :: r in executed ==> Claimed(ledger, r)
  }

  ghost predicate HappenedOnce(executed: seq<Request>) {
    forall i, j :: 0 <= i < j < |executed| && IsMutating(executed[i].fingerprint) && IsMutating(executed[j].fingerprint)
      ==> executed[i].key != executed[j].key
  }

  ghost predicate IsCompletion(completions: seq<Completion>, request: Request, response: Response) {
    Completion(request, response) in completions
  }

  ghost predicate WasCompleted(completions: seq<Completion>, request: Request) {
    exists response :: IsCompletion(completions, request, response)
  }

  ghost predicate CacheIsTrue(m: Memory, completions: seq<Completion>) {
    forall k :: k in m.cache ==> IsCompletion(completions, Request(k, m.cache[k].fingerprint), m.cache[k].response)
  }

  /** Everything the server remembers about a key really completed. */
  ghost predicate MemoryIsTrue(m: Memory, completions: seq<Completion>) {
    && Consistent(m)
    && CacheIsTrue(m, completions)
    && (forall k :: k in m.tombstones ==> WasCompleted(completions, Request(k, m.tombstones[k])))
  }

  ghost predicate WaiterIsTrue(s: Server, completions: seq<Completion>, waiter: Flight) {
    if waiter.id in s.running then s.running[waiter.id] == waiter.request
    else waiter.id in s.settled && IsCompletion(completions, waiter.request, s.settled[waiter.id])
  }

  ghost predicate FlightsAreTrue(s: Server, executed: seq<Request>, completions: seq<Completion>) {
    && (forall id :: id in s.running ==> id < s.nextFlight && s.running[id] in executed)
    && (forall k :: k in s.pending ==>
          s.pending[k].request.key == k && s.pending[k].id in s.running
              && s.running[s.pending[k].id] == s.pending[k].request)
    && (forall id :: id in s.settled ==> id < s.nextFlight && id !in s.running)
    && (forall waiter :: waiter in s.waiters ==> WaiterIsTrue(s, completions, waiter))
  }

  ghost predicate RepliesAreTrue(replies: seq<Reply>, completions: seq<Completion>) {
    forall r :: r in replies && r.verdict.Original? ==> IsCompletion(completions, r.request, r.verdict.response)
  }

  ghost predicate Invariant(w: World) {
    && AllClaimed(w.ledger, w.executed)
    && HappenedOnce(w.executed)
    && (forall c :: c in w.completions ==> c.request in w.executed)
    && RepliesAreTrue(w.replies, w.completions)
    && MemoryIsTrue(w.server.memory, w.completions)
    && FlightsAreTrue(w.server, w.executed, w.completions)
  }

  lemma ClaimKeepsMutationsUnique(ledger: map<Key, Claim>, executed: seq<Request>, request: Request,
                                  ledger': map<Key, Claim>)
    requires AllClaimed(ledger, executed) && HappenedOnce(executed)
    requires IsMutating(request.fingerprint) ==> request.key !in ledger
    requires ledger' == if IsMutating(request.fingerprint)
               then ledger[request.key := Claim(request.fingerprint, false)] else ledger
    ensures AllClaimed(ledger', executed + [request]) && HappenedOnce(executed + [request])
  {
    forall r | r in executed + [request]
      ensures Claimed(ledger', r)
    {
      assert r == request || Claimed(ledger, r);
    }
    forall i | 0 <= i < |executed| && IsMutating(executed[i].fingerprint) && IsMutating(request.fingerprint)
      ensures executed[i].key != request.key
    {
      assert Claimed(ledger, executed[i]);
    }
  }

  lemma StartedFlightsAreTrue(s: Server, executed: seq<Request>, completions: seq<Completion>, request: Request,
                              s': Server)
    requires FlightsAreTrue(s, executed, completions)
    requires s' == Launch(s, request)
    ensures FlightsAreTrue(s', executed + [request], completions)
  {
    forall waiter | waiter in s'.waiters
      ensures WaiterIsTrue(s', completions, waiter)
    {
      assert WaiterIsTrue(s, completions, waiter);
    }
  }

  lemma ExecuteKeepsInvariant(w: World, request: Request)
    requires Invariant(w)
    requires IsMutating(request.fingerprint) ==> request.key !in w.ledger
    ensures Invariant(Execute(Claiming(w, request), request))
  {
    var w' := Execute(Claiming(w, request), request);
    ClaimKeepsMutationsUnique(w.ledger, w.executed, request, w'.ledger);
    StartedFlightsAreTrue(w.server, w.executed, w.completions, request, w'.server);
  }

  lemma JoinKeepsInvariant(w: World, request: Request)
    requires Invariant(w) && request.key in w.server.pending
    requires w.server.pending[request.key].request.fingerprint == request.fingerprint
    ensures Invariant(Join(w, request))
  {
    var s' := Join(w, request).server;
    assert w.server.pending[request.key].request == request;
    forall waiter | waiter in s'.waiters
      ensures WaiterIsTrue(s', w.completions, waiter)
    {
      if waiter in w.server.waiters {
        assert WaiterIsTrue(w.server, w.completions, waiter);
      }
    }
  }

  lemma SayKeepsInvariant(w: World, request: Request, verdict: Verdict)
    requires Invariant(w)
    requires verdict.Original? ==> IsCompletion(w.completions, request, verdict.response)
    ensures Invariant(Say(w, request, verdict))
  {
  }

  ghost predicate SaidTruthfully(w: World, request: Request, w': World) {
    exists verdict :: w' == Say(w, request, verdict)
        && (verdict.Original? ==> IsCompletion(w.completions, request, verdict.response))
  }

  ghost predicate Joined(w: World, request: Request, w': World) {
    && request.key in w.server.pending
    && w.server.pending[request.key].request.fingerprint == request.fingerprint
    && w' == Join(w, request)
  }

  ghost predicate Executed(w: World, request: Request, w': World) {
    && (IsMutating(request.fingerprint) ==> request.key !in w.ledger)
    && w' == Execute(Claiming(w, request), request)
  }

  lemma ArrivalCases(w: World, request: Request, handshaken: bool, effectFails: bool)
    requires CacheIsTrue(w.server.memory, w.completions)
    ensures var w' := Arrive(w, request, handshaken, effectFails);
            SaidTruthfully(w, request, w') || Joined(w, request, w') || Executed(w, request, w')
  {
    var w' := Arrive(w, request, handshaken, effectFails);
    if |w'.executed| <= |w.executed| && |w'.server.waiters| <= |w.server.waiters| {
      var verdict := w'.replies[|w.replies|].verdict;
      assert w' == Say(w, request, verdict);
    }
  }

  lemma ArrivalKeepsInvariant(w: World, request: Request, w': World)
    requires Invariant(w)
    requires SaidTruthfully(w, request, w') || Joined(w, request, w') || Executed(w, request, w')
    ensures Invariant(w')
  {
    if SaidTruthfully(w, request, w') {
      var verdict :| w' == Say(w, request, verdict)
          && (verdict.Original? ==> IsCompletion(w.completions, request, verdict.response));
      SayKeepsInvariant(w, request, verdict);
    } else if Joined(w, request, w') {
      JoinKeepsInvariant(w, request);
    } else {
      ExecuteKeepsInvariant(w, request);
    }
  }

  lemma CompletedMemoryIsTrue(m: Memory, completions: seq<Completion>, request: Request, response: Response,
                              bytes: nat, l: Limits, after: Memory)
    requires MemoryIsTrue(m, completions)
    requires Completed(m, request.key, Entry(request.fingerprint, response, bytes), l.sizeLimit, l.byteLimit, after)
    ensures MemoryIsTrue(after, completions + [Completion(request, response)])
  {
    var written := Remember(m, request.key, Entry(request.fingerprint, response, bytes), l.byteLimit);
    var more := completions + [Completion(request, response)];
    assert IsCompletion(more, request, response);
    forall k | k in after.cache
      ensures IsCompletion(more, Request(k, after.cache[k].fingerprint), after.cache[k].response)
    {
      KeyAfterCompletion(written, l.byteLimit, after, k);
      if k != request.key {
        assert IsCompletion(completions, Request(k, m.cache[k].fingerprint), m.cache[k].response);
      }
    }
    forall k | k in after.tombstones
      ensures WasCompleted(more, Request(k, after.tombstones[k]))
    {
      KeyAfterCompletion(written, l.byteLimit, after, k);
      if k != request.key {
        if k in m.cache {
          assert IsCompletion(more, Request(k, m.cache[k].fingerprint), m.cache[k].response);
        } else {
          var r :| IsCompletion(completions, Request(k, m.tombstones[k]), r);
          assert IsCompletion(more, Request(k, m.tombstones[k]), r);
        }
      }
    }
  }

  lemma FinishedFlightsAreTrue(l: Limits, w: World, w': World, id: nat, response: Response, bytes: nat, noted: bool)
    requires FlightsAreTrue(w.server, w.executed, w.completions) && Finish(l, w, w', id, response, bytes, noted)
    requires forall k :: k in w.server.pending && w.server.pending[k].id == id ==> k == w.server.running[id].key
    ensures FlightsAreTrue(w'.server, w'.executed, w'.completions)
  {
    forall waiter | waiter in w'.server.waiters
      ensures WaiterIsTrue(w'.server, w'.completions, waiter)
    {
      assert WaiterIsTrue(w.server, w.completions, waiter);
      assert Completion(w.server.running[id], response) in w'.completions;
    }
  }

  lemma FinishKeepsInvariant(l: Limits, w: World, w': World, id: nat, response: Response, bytes: nat, noted: bool)
    requires Invariant(w) && Finish(l, w, w', id, response, bytes, noted)
    ensures Invariant(w')
  {
    var request := w.server.running[id];
    CompletedMemoryIsTrue(w.server.memory, w.completions, request, response, bytes, l, w'.server.memory);
    FinishedFlightsAreTrue(l, w, w', id, response, bytes, noted);
    assert Completion(request, response) in w'.completions;
    forall r | r in w'.replies && r.verdict.Original?
      ensures IsCompletion(w'.completions, r.request, r.verdict.response)
    {
      if r in w.replies {
        assert IsCompletion(w.completions, r.request, r.verdict.response);
      }
    }
    forall r | r in w'.executed
      ensures Claimed(w'.ledger, r)
    {
      assert Claimed(w.ledger, r);
    }
  }

  lemma WakeKeepsInvariant(w: World, i: nat, effectFails: bool)
    requires Invariant(w) && i < |w.server.waiters| && w.server.waiters[i].id in w.server.settled
    ensures Invariant(Wake(w, i, effectFails))
  {
    var waiter := w.server.waiters[i];
    assert waiter in w.server.waiters;
    assert WaiterIsTrue(w.server, w.completions, waiter);
    var s' := Wake(w, i, effectFails).server;
    forall other | other in s'.waiters
      ensures WaiterIsTrue(s', w.completions, other)
    {
      assert other in w.server.waiters;
    }
  }

  lemma NextKeepsInvariant(l: Limits, w: World, w': World)
    requires Invariant(w) && Next(l, w, w')
    ensures Invariant(w')
  {
    if request, handshaken, effectFails :| w' == Arrive(w, request, handshaken, effectFails) {
      ArrivalCases(w, request, handshaken, effectFails);
      ArrivalKeepsInvariant(w, request, w');
    } else if id, response, bytes, noted :| Finish(l, w, w', id, response, bytes, noted) {
      FinishKeepsInvariant(l, w, w', id, response, bytes, noted);
    } else if i: nat, effectFails :|
        i < |w.server.waiters| && w.server.waiters[i].id in w.server.settled && w' == Wake(w, i, effectFails) {
      WakeKeepsInvariant(w, i, effectFails);
    } else {
      assert Consistent(EMPTY_MEMORY);
    }
  }

  lemma {:induction false} RunKeepsInvariant(l: Limits, run: seq<World>, n: nat)
    requires IsRun(l, run) && n < |run|
    ensures Invariant(run[n])
  {
    if n == 0 {
      assert Consistent(EMPTY_MEMORY);
    } else {
      RunKeepsInvariant(l, run, n - 1);
      NextKeepsInvariant(l, run[n - 1], run[n]);
    }
  }

  // The main results, for every run with any crashes, evictions and retries.

  /** A mutation runs at most once per client and request id, and only the one
      whose fingerprint claimed the id. */
  lemma MutationsRunAtMostOnce(l: Limits, run: seq<World>, n: nat, i: nat, j: nat)
    requires IsRun(l, run) && n < |run|
    requires i < |run[n].executed| && j < |run[n].executed|
    requires run[n].executed[i].key == run[n].executed[j].key
    requires IsMutating(run[n].executed[i].fingerprint) && IsMutating(run[n].executed[j].fingerprint)
    ensures i == j
    ensures run[n].executed[i].key in run[n].ledger
    ensures run[n].ledger[run[n].executed[i].key].fingerprint == run[n].executed[i].fingerprint
  {
    RunKeepsInvariant(l, run, n);
    assert run[n].executed[i] in run[n].executed;
    assert Claimed(run[n].ledger, run[n].executed[i]);
  }

  /** Every replayed response is the one an execution of that very request returned. */
  lemma RepliesComeFromExecutions(l: Limits, run: seq<World>, n: nat, r: Reply)
    requires IsRun(l, run) && n < |run| && r in run[n].replies && r.verdict.Original?
    ensures Completion(r.request, r.verdict.response) in run[n].completions && r.request in run[n].executed
  {
    RunKeepsInvariant(l, run, n);
    assert IsCompletion(run[n].completions, r.request, r.verdict.response);
    assert Completion(r.request, r.verdict.response) in run[n].completions;
  }

  lemma CompletedFingerprintIsTheClaim(w: World, request: Request)
    requires Invariant(w) && IsMutating(request.fingerprint) && WasCompleted(w.completions, request)
    ensures Claimed(w.ledger, request)
  {
    var response :| IsCompletion(w.completions, request, response);
    assert Completion(request, response) in w.completions;
  }

  /** Whatever the server still knows of a mutating request agrees with the ledger. */
  lemma KnownMutationIsTheClaim(w: World, request: Request)
    requires Invariant(w) && IsMutating(request.fingerprint)
    requires || (request.key in w.server.memory.cache
               && w.server.memory.cache[request.key].fingerprint == request.fingerprint)
             || (request.key in w.server.memory.tombstones
                  && w.server.memory.tombstones[request.key] == request.fingerprint)
             || (request.key in w.server.pending
                  && w.server.pending[request.key].request.fingerprint == request.fingerprint)
    ensures Claimed(w.ledger, request)
  {
    var m := w.server.memory;
    if request.key in m.cache && m.cache[request.key].fingerprint == request.fingerprint {
      assert IsCompletion(w.completions, request, m.cache[request.key].response);
      CompletedFingerprintIsTheClaim(w, request);
    } else if request.key in m.tombstones && m.tombstones[request.key] == request.fingerprint {
      assert WasCompleted(w.completions, Request(request.key, m.tombstones[request.key]));
      CompletedFingerprintIsTheClaim(w, request);
    } else {
      assert w.server.pending[request.key].request == request;
      assert w.server.running[w.server.pending[request.key].id] in w.executed;
    }
  }

  /** A later mutation that reuses a claimed id with another fingerprint is
      answered with a conflict, whatever the server still remembers. */
  lemma ReusedIdConflicts(l: Limits, run: seq<World>, n: nat, request: Request, effectFails: bool)
    requires IsRun(l, run) && n < |run|
    requires IsMutating(request.fingerprint) && request.key in run[n].ledger
    requires run[n].ledger[request.key].fingerprint != request.fingerprint
    ensures Arrive(run[n], request, true, effectFails) == Say(run[n], request, Refused(RequestIdConflict))
  {
    RunKeepsInvariant(l, run, n);
    var s := run[n].server;
    if || (request.key in s.memory.cache && s.memory.cache[request.key].fingerprint == request.fingerprint)
       || (request.key in s.memory.tombstones && s.memory.tombstones[request.key] == request.fingerprint)
       || (request.key in s.pending && s.pending[request.key].request.fingerprint == request.fingerprint)
    {
      KnownMutationIsTheClaim(run[n], request);
    }
  }

  /** A claimed mutation that comes again never runs again, whatever was forgotten. */
  lemma ClaimedMutationsNeverRunAgain(w: World, request: Request, handshaken: bool, effectFails: bool)
    requires IsMutating(request.fingerprint) && request.key in w.ledger
    ensures Arrive(w, request, handshaken, effectFails).executed == w.executed
    ensures Arrive(w, request, handshaken, effectFails).ledger == w.ledger
  {
  }

  /** Claims are permanent: no step, not even a crash, changes a claimed fingerprint. */
  lemma ClaimsStay(l: Limits, w: World, w': World, key: Key)
    requires Next(l, w, w') && key in w.ledger
    ensures key in w'.ledger && w'.ledger[key].fingerprint == w.ledger[key].fingerprint
    ensures w.executed <= w'.executed
  {
    if request, handshaken, effectFails :| w' == Arrive(w, request, handshaken, effectFails) {
    } else if id, response, bytes, noted :| Finish(l, w, w', id, response, bytes, noted) {
    }
  }

  // What each arrival is answered, told by what completed before.

  /** The last completion of a key. */
  function Latest(completions: seq<Completion>, key: Key): Option<Completion> {
    if completions == [] then None
    else if completions[|completions| - 1].request.key == key then Some(completions[|completions| - 1])
    else Latest(completions[..|completions| - 1], key)
  }

  lemma LatestAfter(completions: seq<Completion>, c: Completion, key: Key)
    ensures Latest(completions + [c], key) == if c.request.key == key then Some(c) else Latest(completions, key)
  {
    assert (completions + [c])[..|completions|] == completions;
  }

  /** The server remembers the last completion of a key, or at least its fingerprint. */
  ghost predicate MemoryIsLatest(m: Memory, completions: seq<Completion>) {
    && (forall k :: k in m.cache ==>
          Latest(completions, k) == Some(Completion(Request(k, m.cache[k].fingerprint), m.cache[k].response)))
    && (forall k :: k in m.tombstones ==>
          Latest(completions, k).Some? && Latest(completions, k).value.request == Request(k, m.tombstones[k]))
  }

  lemma CompletedMemoryIsLatest(m: Memory, completions: seq<Completion>, request: Request, response: Response,
                                bytes: nat, l: Limits, after: Memory)
    requires MemoryIsLatest(m, completions)
    requires Completed(m, request.key, Entry(request.fingerprint, response, bytes), l.sizeLimit, l.byteLimit, after)
    ensures MemoryIsLatest(after, completions + [Completion(request, response)])
  {
    var written := Remember(m, request.key, Entry(request.fingerprint, response, bytes), l.byteLimit);
    forall k | k in after.order
      ensures k in after.cache ==> k in written.cache && after.cache[k] == written.cache[k]
      ensures k in after.tombstones ==>
                if k in written.cache then after.tombstones[k] == written.cache[k].fingerprint
                else k in written.tombstones && after.tombstones[k] == written.tombstones[k]
    {
      KeyAfterCompletion(written, l.byteLimit, after, k);
    }
    forall k
      ensures Latest(completions + [Completion(request, response)], k)
           == if request.key == k then Some(Completion(request, response)) else Latest(completions, k)
    {
      LatestAfter(completions, Completion(request, response), k);
    }
  }

  lemma {:induction false} RunRemembersTheLatest(l: Limits, run: seq<World>, n: nat)
    requires IsRun(l, run) && n < |run|
    ensures MemoryIsLatest(run[n].server.memory, run[n].completions)
  {
    if 0 < n {
      RunRemembersTheLatest(l, run, n - 1);
      var w, w' := run[n - 1], run[n];
      if id, response, bytes, noted :| Finish(l, w, w', id, response, bytes, noted) {
        CompletedMemoryIsLatest(w.server.memory, w.completions, w.server.running[id], response, bytes, l,
            w'.server.memory);
      } else if request, handshaken, effectFails :| w' == Arrive(w, request, handshaken, effectFails) {
      }
    }
  }

  /** Every key is in flight at most once, and not while it is remembered. */
  ghost predicate OneFlightPerKey(s: Server) {
    && (forall id :: id in s.running ==> s.running[id].key in s.pending && s.pending[s.running[id].key].id == id)
    && (forall k :: k in s.pending ==> k !in s.memory.order)
  }

  lemma FinishKeepsOneFlight(l: Limits, w: World, w': World, id: nat, response: Response, bytes: nat, noted: bool)
    requires FlightsAreTrue(w.server, w.executed, w.completions) && OneFlightPerKey(w.server)
    requires Partitioned(w.server.memory)
    requires Finish(l, w, w', id, response, bytes, noted)
    ensures OneFlightPerKey(w'.server)
  {
    var s, s', request := w.server, w'.server, w.server.running[id];
    var written := Remember(s.memory, request.key, Entry(request.fingerprint, response, bytes), l.byteLimit);
    forall k | k in s'.pending
      ensures k !in s'.memory.order
    {
      assert k in s.pending && k != request.key;
      if k in s'.memory.order {
        KeyAfterCompletion(written, l.byteLimit, s'.memory, k);
        assert false;
      }
    }
  }

  lemma LaunchKeepsOneFlight(s: Server, executed: seq<Request>, completions: seq<Completion>, request: Request)
    requires FlightsAreTrue(s, executed, completions) && OneFlightPerKey(s)
    requires request.key !in s.pending && request.key !in s.memory.order
    ensures OneFlightPerKey(Launch(s, request))
  {
  }

  lemma ArrivalKeepsOneFlight(w: World, request: Request, handshaken: bool, effectFails: bool)
    requires FlightsAreTrue(w.server, w.executed, w.completions) && OneFlightPerKey(w.server)
    requires Partitioned(w.server.memory)
    ensures OneFlightPerKey(Arrive(w, request, handshaken, effectFails).server)
  {
    var s, s' := w.server, Arrive(w, request, handshaken, effectFails).server;
    if s'.nextFlight != s.nextFlight {
      LaunchKeepsOneFlight(s, w.executed, w.completions, request);
    } else {
      assert s' == s.(waiters := s'.waiters);
    }
  }

  lemma {:induction false} RunHasOneFlightPerKey(l: Limits, run: seq<World>, n: nat)
    requires IsRun(l, run) && n < |run|
    ensures OneFlightPerKey(run[n].server)
  {
    if 0 < n {
      RunHasOneFlightPerKey(l, run, n - 1);
      RunKeepsInvariant(l, run, n - 1);
      var w, w' := run[n - 1], run[n];
      if id, response, bytes, noted :| Finish(l, w, w', id, response, bytes, noted) {
        FinishKeepsOneFlight(l, w, w', id, response, bytes, noted);
      } else if request, handshaken, effectFails :| w' == Arrive(w, request, handshaken, effectFails) {
        ArrivalKeepsOneFlight(w, request, handshaken, effectFails);
      } else {
        assert w'.server == FRESH_SERVER || w'.server == w.server.(waiters := w'.server.waiters);
      }
    }
  }

  /** Of one client and request id, at most one execution is under way. */
  lemma NoTwoFlightsOfOneKey(l: Limits, run: seq<World>, n: nat, a: nat, b: nat)
    requires IsRun(l, run) && n < |run|
    requires a in run[n].server.running && b in run[n].server.running
    requires run[n].server.running[a].key == run[n].server.running[b].key
    ensures a == b
  {
    RunHasOneFlightPerKey(l, run, n);
  }

  /** One reply is added, and nothing else happens. */
  ghost predicate OnlySays(w: World, w': World, request: Request, verdict: Verdict) {
    && w'.replies == w.replies + [Reply(request, verdict)]
    && w'.server == w.server && w'.ledger == w.ledger
    && w'.executed == w.executed && w'.completions == w.completions
  }

  /** Before the handshake nothing else is answered, and nothing executes. */
  lemma NothingPrecedesTheHandshake(w: World, request: Request, effectFails: bool)
    requires request.fingerprint.operation != "handshake"
    ensures OnlySays(w, Arrive(w, request, false, effectFails), request, Refused(HandshakeRequired))
  {
  }

  predicate MayBeHandled(request: Request, handshaken: bool) {
    handshaken || request.fingerprint.operation == "handshake"
  }

  /** The handshake and the heartbeat act on the connection each time they succeed. */
  predicate ActsOnItsConnection(request: Request, response: Response) {
    response.ok && (request.fingerprint.operation == "handshake" || request.fingerprint.operation == "client.heartbeat")
  }

  /** A retry whose response is remembered gets one reply: the response of the last
      completion of its key, unless it acts on its connection and fails to. */
  lemma RetriesReplayTheLastResponse(l: Limits, run: seq<World>, n: nat, request: Request, handshaken: bool,
                                     effectFails: bool)
    requires IsRun(l, run) && n < |run| && MayBeHandled(request, handshaken)
    requires request.key in run[n].server.memory.cache
    ensures var w := run[n];
            var last := Latest(w.completions, request.key);
            && last.Some?
            && OnlySays(w, Arrive(w, request, handshaken, effectFails), request,
                if last.value.request != request then Refused(RequestIdConflict)
                else if effectFails && ActsOnItsConnection(request, last.value.response) then Refused(LocalEffectFailed)
                else Original(last.value.response))
  {
    RunRemembersTheLatest(l, run, n);
  }

  /** A retry of which only the fingerprint is remembered is told so; another
      request with its id conflicts with the last completion of that id. */
  lemma ForgottenResponsesAreUnavailable(l: Limits, run: seq<World>, n: nat, request: Request, handshaken: bool,
                                         effectFails: bool)
    requires IsRun(l, run) && n < |run| && MayBeHandled(request, handshaken)
    requires request.key in run[n].server.memory.tombstones
    ensures var w := run[n];
            var last := Latest(w.completions, request.key);
            && last.Some?
            && OnlySays(w, Arrive(w, request, handshaken, effectFails), request,
                Refused(if last.value.request == request then ReplayIsUnavailable else RequestIdConflict))
  {
    RunKeepsInvariant(l, run, n);
    RunRemembersTheLatest(l, run, n);
  }

  /** A request in flight is not executed again: the same request waits for the
      execution under way, another request with its id conflicts. */
  lemma RequestsInFlightAreJoined(l: Limits, run: seq<World>, n: nat, request: Request, handshaken: bool,
                                  effectFails: bool)
    requires IsRun(l, run) && n < |run| && MayBeHandled(request, handshaken)
    requires request.key in run[n].server.pending
    ensures var w, w' := run[n], Arrive(run[n], request, handshaken, effectFails);
            var id := w.server.pending[request.key].id;
            && id in w.server.running && w.server.running[id].key == request.key && w.server.running[id] in w.executed
            && if w.server.running[id] == request
               then w' == w.(server := w.server.(waiters := w.server.waiters + [Flight(id, request)]))
               else OnlySays(w, w', request, Refused(RequestIdConflict))
  {
    RunKeepsInvariant(l, run, n);
    RunHasOneFlightPerKey(l, run, n);
  }

  /** A request the server knows nothing of executes once, in a flight of its own,
      if it claims no effect that was claimed before. */
  lemma UnknownRequestsExecuteOnce(l: Limits, run: seq<World>, n: nat, request: Request, handshaken: bool,
                                   effectFails: bool)
    requires IsRun(l, run) && n < |run| && MayBeHandled(request, handshaken)
    requires request.key !in run[n].server.pending && request.key !in run[n].server.memory.order
    ensures var w, w' := run[n], Arrive(run[n], request, handshaken, effectFails);
            if IsMutating(request.fingerprint) && request.key in w.ledger
            then OnlySays(w, w', request, Refused(if w.ledger[request.key].fingerprint == request.fingerprint
                                                  then ReplayIsUnavailable else RequestIdConflict))
            else StartsAlone(w, w', request)
  {
    RunKeepsInvariant(l, run, n);
  }

  /** One more execution, in a flight nobody else has; a mutation is claimed with it. */
  ghost predicate StartsAlone(w: World, w': World, request: Request) {
    var id := w.server.nextFlight;
    && w'.executed == w.executed + [request]
    && id !in w.server.running && id !in w.server.settled
    && w'.server.running == w.server.running[id := request]
    && w'.server.pending == w.server.pending[request.key := Flight(id, request)]
    && w'.server.memory == w.server.memory && w'.server.settled == w.server.settled
    && w'.server.waiters == w.server.waiters
    && w'.replies == w.replies && w'.completions == w.completions
    && (forall k :: k != request.key ==> (k in w'.ledger <==> k in w.ledger))
    && (forall k :: k in w.ledger ==> k in w'.ledger && w'.ledger[k] == w.ledger[k])
    && (request.key in w'.ledger <==> request.key in w.ledger || IsMutating(request.fingerprint))
    && (IsMutating(request.fingerprint) ==> w'.ledger[request.key] == Claim(request.fingerprint, false))
  }

  /** A request line that was read and neither answered nor lost in a crash. */
  function Unanswered(s: Server): nat {
    |s.running| + |s.waiters|
  }

  /** Every line is answered once: it is answered when it arrives, or it waits until
      its flight ends, and then it is answered with what that flight returned. */
  lemma EachLineIsAnsweredOnce(l: Limits, w: World, request: Request, handshaken: bool, effectFails: bool)
    requires Invariant(w)
    ensures var w' := Arrive(w, request, handshaken, effectFails);
            |w'.replies| + Unanswered(w'.server) == |w.replies| + Unanswered(w.server) + 1
  {
    ArrivalCases(w, request, handshaken, effectFails);
  }

  /** The request of a flight is answered with the response of that flight. */
  lemma FlightsAreAnsweredOnce(l: Limits, run: seq<World>, n: nat, w': World, id: nat, response: Response,
                               bytes: nat, noted: bool)
    requires IsRun(l, run) && n < |run| && Finish(l, run[n], w', id, response, bytes, noted)
    ensures var w, request := run[n], run[n].server.running[id];
            && w'.replies == w.replies + [Reply(request, Original(response))]
            && w'.server.running == w.server.running - {id}
            && w'.server.pending == w.server.pending - {request.key}
            && w'.server.settled == w.server.settled[id := response]
            && |w'.replies| + Unanswered(w'.server) == |w.replies| + Unanswered(w.server)
  {
    var w, request := run[n], run[n].server.running[id];
    RunHasOneFlightPerKey(l, run, n);
    assert w.server.running == (w.server.running - {id})[id := request];
  }

  /** From then on a retry gets the same response, as long as it fits the memory at all. */
  lemma CompletedRequestsReplay(l: Limits, run: seq<World>, n: nat, w': World, id: nat, response: Response,
                                bytes: nat, noted: bool)
    requires IsRun(l, run) && n < |run| && Finish(l, run[n], w', id, response, bytes, noted)
    requires 0 < l.sizeLimit
    ensures var request := run[n].server.running[id];
            OnlySays(w', Arrive(w', request, true, false), request,
                if bytes <= l.byteLimit then Original(response) else Refused(ReplayIsUnavailable))
  {
    var w, request := run[n], run[n].server.running[id];
    RunRemembersTheLatest(l, run, n);
    LatestAfter(w.completions, Completion(request, response), request.key);
    CompletedMemoryIsLatest(w.server.memory, w.completions, request, response, bytes, l, w'.server.memory);
    NewestFittingResponseSurvives(w.server.memory, request.key, Entry(request.fingerprint, response, bytes),
        l.sizeLimit, l.byteLimit, w'.server.memory);
  }

  /** A waiter whose flight ended is answered once, with what an execution of that
      very request returned, unless it acts on its connection and fails to. */
  lemma WaitersAreAnsweredOnce(l: Limits, run: seq<World>, n: nat, i: nat, effectFails: bool)
    requires IsRun(l, run) && n < |run|
    requires i < |run[n].server.waiters| && run[n].server.waiters[i].id !in run[n].server.running
    ensures var w, waiter := run[n], run[n].server.waiters[i];
            && waiter.id in w.server.settled
            && var response, w' := w.server.settled[waiter.id], Wake(w, i, effectFails);
               && Completion(waiter.request, response) in w.completions
               && |w'.replies| + Unanswered(w'.server) == |w.replies| + Unanswered(w.server)
               && multiset(w'.server.waiters) == multiset(w.server.waiters) - multiset{waiter}
               && OnlySays(w, w'.(server := w.server), waiter.request,
                   if effectFails && ActsOnItsConnection(waiter.request, response) then Refused(LocalEffectFailed)
                   else Original(response))
  {
    RunKeepsInvariant(l, run, n);
    var waiters := run[n].server.waiters;
    assert waiters[i] in waiters;
    assert WaiterIsTrue(run[n].server, run[n].completions, waiters[i]);
    assert IsCompletion(run[n].completions, waiters[i].request, run[n].server.settled[waiters[i].id]);
    assert waiters == waiters[..i] + [waiters[i]] + waiters[i + 1..];
  }
}
