/**
 The request handling of the core server, with its maps updated in place. Every
 method is one stretch between two awaits.
 */
module RequestServer {
  import opened RequestCache
  import P = RequestProtocol

  class CoreServer {
    const requests: CompletedRequests
    var pending: map<Key, P.Flight>
    var running: map<nat, P.Request>
    var settled: map<nat, Response>
    var waiters: seq<P.Flight>
    var nextFlight: nat
    var ledger: map<Key, P.Claim>
    var replies: seq<P.Reply>
    ghost var executed: seq<P.Request>
    ghost var completions: seq<P.Completion>

    ghost function State(): P.World
      reads this, requests
    {
      P.World(P.Server(requests.State(), pending, running, settled, waiters, nextFlight), ledger, executed,
          completions, replies)
    }

    ghost predicate Valid()
      reads this, requests
    {
      requests.Valid()
    }

    function Limits(): P.Limits
      reads this, requests
    {
      P.Limits(requests.sizeLimit, requests.byteLimit)
    }

    /** A server that starts over the ledger its predecessors left. */
    constructor (sizeLimit: nat, byteLimit: nat, ghost before: P.World, ledger: map<Key, P.Claim>,
                 replies: seq<P.Reply>)
      requires 0 < sizeLimit && before.ledger == ledger && before.replies == replies
      ensures Valid() && fresh(requests)
      ensures requests.sizeLimit == sizeLimit && requests.byteLimit == byteLimit
      ensures State() == P.Crash(before)
    {
      requests := new CompletedRequests(sizeLimit, byteLimit);
      pending, running, settled, waiters, nextFlight := map[], map[], map[], [], 0;
      this.ledger, this.replies, executed, completions := ledger, replies, before.executed, before.completions;
    }

    method Send(request: P.Request, verdict: P.Verdict)
      modifies this`replies
      ensures State() == P.Say(old(State()), request, verdict)
    {
      replies := replies + [P.Reply(request, verdict)];
    }

    /** The store commits a claim, or tells what the id was claimed for. */
    method ClaimMutation(request: P.Request) returns (refusal: P.Verdict, claimed: bool)
      modifies this`ledger
      ensures claimed <==> request.key !in old(ledger)
      ensures ledger == if claimed then old(ledger)[request.key := P.Claim(request.fingerprint, false)] else old(ledger)
      ensures !claimed ==> refusal == P.Refused(if ledger[request.key].fingerprint == request.fingerprint
                                                then P.ReplayIsUnavailable else P.RequestIdConflict)
    {
      claimed := request.key !in ledger;
      refusal := P.Refused(P.ReplayIsUnavailable);
      if claimed {
        ledger := ledger[request.key := P.Claim(request.fingerprint, false)];
      } else if ledger[request.key].fingerprint != request.fingerprint {
        refusal := P.Refused(P.RequestIdConflict);
      }
    }

    method Launch(request: P.Request)
      modifies this`pending, this`running, this`nextFlight, this`executed
      ensures State() == P.Execute(old(State()), request)
    {
      pending := pending[request.key := P.Flight(nextFlight, request)];
      running := running[nextFlight := request];
      nextFlight := nextFlight + 1;
      executed := executed + [request];
    }

    /** One request line, up to its reply or its first await. */
    method ProcessLine(request: P.Request, handshaken: bool, effectFails: bool)
      requires Valid()
      modifies this
      ensures Valid() && State() == P.Arrive(old(State()), request, handshaken, effectFails)
    {
      if !handshaken && request.fingerprint.operation != "handshake" {
        Send(request, P.Refused(P.HandshakeRequired));
        return;
      }
      var answer := requests.Lookup(request.key, request.fingerprint);
      if !answer.Miss? {
        Send(request,
             if answer.Hit? then P.Replayed(request, answer.response, effectFails)
             else if answer.Conflict? then P.Refused(P.RequestIdConflict)
             else P.Refused(P.ReplayIsUnavailable));
        return;
      }
      if request.key in pending {
        if pending[request.key].request.fingerprint != request.fingerprint {
          Send(request, P.Refused(P.RequestIdConflict));
        } else {
          waiters := waiters + [P.Flight(pending[request.key].id, request)];
        }
        return;
      }
      if P.IsMutating(request.fingerprint) {
        var refusal, claimed := ClaimMutation(request);
        if !claimed {
          Send(request, refusal);
          return;
        }
      }
      Launch(request);
    }

    /** The flight `id` leaves the map of requests in flight, unless another one took its place. */
    method Land(id: nat, request: P.Request, response: Response, bytes: nat)
      requires Valid()
      modifies this`pending, this`running, this`settled, requests
      ensures Valid() && P.Land(Limits(), old(State()).server, State().server, id, request, response, bytes)
    {
      if request.key in pending && pending[request.key].id == id {
        pending := pending - {request.key};
      }
      running := running - {id};
      settled := settled[id := response];
      requests.Complete(request.key, Entry(request.fingerprint, response, bytes));
    }

    /** The store notes the completion of a claim, if it can. */
    method CompleteMutation(request: P.Request, noted: bool)
      modifies this`ledger
      ensures ledger == if P.IsMutating(request.fingerprint) && request.key in old(ledger) && noted
                        then old(ledger)[request.key := old(ledger)[request.key].(completed := true)] else old(ledger)
    {
      if P.IsMutating(request.fingerprint) && request.key in ledger && noted {
        ledger := ledger[request.key := ledger[request.key].(completed := true)];
      }
    }

    /** The response of the flight `id` arrives. */
    method Settle(id: nat, response: Response, bytes: nat, noted: bool)
      requires Valid() && id in running
      modifies this, requests
      ensures Valid() && P.Finish(Limits(), old(State()), State(), id, response, bytes, noted)
    {
      var request := running[id];
      Land(id, request, response, bytes);
      CompleteMutation(request, noted);
      completions := completions + [P.Completion(request, response)];
      replies := replies + [P.Reply(request, P.Original(response))];
    }

    /** A request that joined a flight continues after its await. */
    method Wake(i: nat, effectFails: bool)
      requires i < |waiters| && waiters[i].id in settled
      modifies this
      ensures State() == P.Wake(old(State()), i, effectFails)
    {
      var waiter := waiters[i];
      waiters := waiters[..i] + waiters[i + 1..];
      Send(waiter.request, P.Replayed(waiter.request, settled[waiter.id], effectFails));
    }
  }
}
