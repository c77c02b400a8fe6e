/** The relay server's `/relay` handler: it takes a claim (contract id and
    preimage), validates it against the HTLC record read from the ledger,
    submits the withdrawal and keeps the operator bookkeeping (recent
    requests, recent responses, pending contract ids, contract-details cache).

    The ledger read, the SHA-256 of the hex-decoded preimage and the outcome
    of the withdrawal are inputs of the model. */
module Relay {
  import opened Shared

  /** Capacity of the recent-requests and recent-responses lists. */
  const MaxRecent: nat := 10

  /** What the ledger read `getContractDetails` produced: a value (possibly
      empty, which the code treats as "not found") or a thrown error. */
  datatype LedgerRead = Returned(details: Option<ContractDetails>) | ReadFailed

  /** How the withdrawal went: confirmed with a transaction hash, followed by
      the re-read of the record; or rejected anywhere in the promise chain
      (submission, confirmation or the re-read). */
  datatype WithdrawOutcome = Confirmed(txHash: string, refreshed: Option<ContractDetails>) | WithdrawFailed

  /** Why `validateContractAndPreimage` accepted or rejected a claim; the
      source logs the reason and returns only whether it is `Accepted`. */
  datatype Verdict = Accepted | NotFound | PreimageMismatch | AlreadyWithdrawn | AlreadyRefunded

  /** HTTP answer of the handler. */
  datatype Reply = Success(response: RelayResponse) | BadRequest(message: string) | ServerError(message: string)

  /** The shape test at the top of the handler. */
  predicate IsRelayRequest(req: RelayRequest)
  {
    req.kind == RelayRequestKind && req.contractId != "" && req.preimage != ""
  }

  /** `list.unshift(x)` followed by one `pop()` when the list is longer than
      the capacity. */
  function PushRecent<T>(s: seq<T>, x: T): (r: seq<T>)
    requires |s| <= MaxRecent
    ensures |r| == if |s| < MaxRecent then |s| + 1 else MaxRecent
    ensures |r| <= MaxRecent && r[0] == x
    ensures r[1..] == s[..|r| - 1]
  {
    var t := [x] + s;
    if |t| > MaxRecent then t[..|t| - 1] else t
  }

  /** Pushing the elements of `xs` one after the other. */
  function PushAll<T>(s: seq<T>, xs: seq<T>): seq<T>
    requires |s| <= MaxRecent
    decreases |xs|
  {
    if xs == [] then s else PushAll(PushRecent(s, xs[0]), xs[1..])
  }

  function Reverse<T>(s: seq<T>): (r: seq<T>)
    ensures |r| == |s|
    ensures forall i :: 0 <= i < |s| ==> r[i] == s[|s| - 1 - i]
  {
    if s == [] then [] else Reverse(s[1..]) + [s[0]]
  }

  function Min(a: int, b: int): int
  {
    if a < b then a else b
  }

  /** Cutting the tail of `t` first does not change a prefix that stays within the cut. */
  lemma PrefixOfTruncated<T>(a: seq<T>, t: seq<T>, m: nat, k: nat)
    requires m <= |t| && k <= |a| + m
    ensures (a + t[..m])[..k] == (a + t)[..k]
  {
    assert forall i :: 0 <= i < k ==> (a + t[..m])[i] == (a + t)[i];
  }

  /** The bounded list, newest first, holds exactly the most recent
      `MaxRecent` insertions, in reverse insertion order. */
  lemma {:induction false} PushAllKeepsNewest<T>(s: seq<T>, xs: seq<T>)
    requires |s| <= MaxRecent
    ensures PushAll(s, xs) == (Reverse(xs) + s)[..Min(|xs| + |s|, MaxRecent)]
    decreases |xs|
  {
    if xs != [] {
      var t := [xs[0]] + s;
      var s' := PushRecent(s, xs[0]);
      var n := Min(|xs| + |s|, MaxRecent);
      assert s' == t[..|s'|];
      assert Min(|xs| - 1 + |s'|, MaxRecent) == n;
      calc {
        PushAll(s, xs);
        PushAll(s', xs[1..]);
        { PushAllKeepsNewest(s', xs[1..]); }
        (Reverse(xs[1..]) + s')[..n];
        { PrefixOfTruncated(Reverse(xs[1..]), t, |s'|, n); }
        (Reverse(xs[1..]) + t)[..n];
        { assert Reverse(xs) == Reverse(xs[1..]) + [xs[0]];
          assert Reverse(xs[1..]) + t == Reverse(xs) + s; }
        (Reverse(xs) + s)[..n];
      }
    }
  }

  /** Registering a contract id as pending: appended once, unless present. */
  function AddPending(pending: seq<string>, id: string): (r: seq<string>)
    ensures id in pending ==> r == pending
    ensures id !in pending ==> r == pending + [id]
    ensures id in r
  {
    if id in pending then pending else pending + [id]
  }

  /** `pending.filter(x => x !== id)`. */
  function RemovePending(pending: seq<string>, id: string): (r: seq<string>)
    ensures forall x :: x in r <==> x in pending && x != id
    ensures |r| <= |pending|
  {
    if pending == [] then []
    else if pending[0] == id then RemovePending(pending[1..], id)
    else [pending[0]] + RemovePending(pending[1..], id)
  }

  /** The filter keeps the other ids in order: it distributes over concatenation
      and leaves a list without `id` alone. */
  lemma {:induction false} RemovePendingAppend(p: seq<string>, q: seq<string>, id: string)
    ensures RemovePending(p + q, id) == RemovePending(p, id) + RemovePending(q, id)
  {
    if p != [] {
      assert (p + q)[0] == p[0];
      assert (p + q)[1..] == p[1..] + q;
      RemovePendingAppend(p[1..], q, id);
    } else {
      assert p + q == q;
    }
  }

  lemma {:induction false} RemovePendingAbsent(p: seq<string>, id: string)
    requires id !in p
    ensures RemovePending(p, id) == p
  {
    if p != [] {
      RemovePendingAbsent(p[1..], id);
    }
  }

  /** Register-then-remove leaves the other pending ids exactly as they were. */
  lemma AddThenRemovePending(p: seq<string>, id: string)
    ensures RemovePending(AddPending(p, id), id) == RemovePending(p, id)
  {
    if id !in p {
      RemovePendingAppend(p, [id], id);
    }
  }

  ghost predicate NoDuplicates(s: seq<string>)
  {
    forall i, j :: 0 <= i < j < |s| ==> s[i] != s[j]
  }

  lemma AddPendingNoDuplicates(p: seq<string>, id: string)
    requires NoDuplicates(p)
    ensures NoDuplicates(AddPending(p, id))
  {
  }

  lemma {:induction false} RemovePendingNoDuplicates(p: seq<string>, id: string)
    requires NoDuplicates(p)
    ensures NoDuplicates(RemovePending(p, id))
  {
    if p != [] {
      RemovePendingNoDuplicates(p[1..], id);
      assert p[0] !in p[1..];
    }
  }

  /** `validateContractAndPreimage` without its cache write: the four checks
      in the source's order, the first failing one deciding the verdict.
      `digest` is the hex SHA-256 of the hex-decoded preimage. */
  function CheckContract(details: Option<ContractDetails>, preimage: string, digest: string -> string): (v: Verdict)
    ensures v == Accepted <==>
              details.Some? && details.value.hashlock == "0x" + digest(preimage)
              && !details.value.withdrawn && !details.value.refunded
    ensures v == NotFound <==> details.None?
    ensures v == PreimageMismatch <==> details.Some? && details.value.hashlock != "0x" + digest(preimage)
    ensures v == AlreadyWithdrawn <==>
              details.Some? && details.value.hashlock == "0x" + digest(preimage) && details.value.withdrawn
    ensures v == AlreadyRefunded <==>
              details.Some? && details.value.hashlock == "0x" + digest(preimage)
              && !details.value.withdrawn && details.value.refunded
  {
    match details
    case None => NotFound
    case Some(d) =>
      if d.hashlock != "0x" + digest(preimage) then PreimageMismatch
      else if d.withdrawn then AlreadyWithdrawn
      else if d.refunded then AlreadyRefunded
      else Accepted
  }

  /** A second claim on a contract that the ledger now reports withdrawn is
      refused, whatever the preimage. */
  lemma SecondClaimRefused(d: ContractDetails, preimage: string, digest: string -> string)
    requires d.withdrawn
    ensures CheckContract(Some(d), preimage, digest) != Accepted
    ensures d.hashlock == "0x" + digest(preimage) ==> CheckContract(Some(d), preimage, digest) == AlreadyWithdrawn
  {
  }

  /** The success message sent back for a confirmed withdrawal. */
  function SuccessResponse(txHash: string, contractId: string): RelayResponse
  {
    RelayResponse(RelayResponseKind, "success", txHash, contractId)
  }

  /** The server's bookkeeping (`RelayServerState` without the connection handles). */
  class RelayServer {
    var contractDetails: map<string, Option<ContractDetails>>
    var recentRequests: seq<RelayRequest>
    var recentResponses: seq<RelayResponse>
    var pendingContracts: seq<string>

    ghost predicate Valid()
      reads this
    {
      |recentRequests| <= MaxRecent && |recentResponses| <= MaxRecent && NoDuplicates(pendingContracts)
    }

    constructor ()
      ensures Valid()
      ensures contractDetails == map[] && recentRequests == [] && recentResponses == [] && pendingContracts == []
    {
      contractDetails := map[];
      recentRequests := [];
      recentResponses := [];
      pendingContracts := [];
    }

    /** `validateContractAndPreimage`: caches what the ledger returned, before
        any check (an empty result is cached too), then runs the checks. */
    method ValidateContractAndPreimage(contractId: string, details: Option<ContractDetails>,
                                       preimage: string, digest: string -> string)
      returns (ok: bool)
      modifies this`contractDetails
      ensures contractDetails == old(contractDetails)[contractId := details]
      ensures ok <==> CheckContract(details, preimage, digest) == Accepted
    {
      contractDetails := contractDetails[contractId := details];
      if details.None? {
        return false;
      }
      var d := details.value;
      if d.hashlock != "0x" + digest(preimage) {
        return false;
      }
      if d.withdrawn {
        return false;
      }
      if d.refunded {
        return false;
      }
      return true;
    }

    /** The bookkeeping done for a well-formed request before validation:
        `recentRequests.unshift/pop` and the guarded `pendingContracts.push`. */
    method RecordRequest(req: RelayRequest)
      requires Valid()
      modifies this`recentRequests, this`pendingContracts
      ensures Valid()
      ensures recentRequests == PushRecent(old(recentRequests), req)
      ensures pendingContracts == AddPending(old(pendingContracts), req.contractId)
    {
      recentRequests := PushRecent(recentRequests, req);
      AddPendingNoDuplicates(pendingContracts, req.contractId);
      if !(req.contractId in pendingContracts) {
        pendingContracts := pendingContracts + [req.contractId];
      }
    }

    /** The withdrawal's continuation (`then`) and its `catch`. */
    method CompleteWithdrawal(contractId: string, outcome: WithdrawOutcome) returns (reply: Reply)
      requires Valid()
      modifies this`contractDetails, this`recentResponses, this`pendingContracts
      ensures Valid()
      ensures pendingContracts == RemovePending(old(pendingContracts), contractId)
      ensures outcome.Confirmed? ==>
                reply == Success(SuccessResponse(outcome.txHash, contractId))
                && contractDetails == old(contractDetails)[contractId := outcome.refreshed]
                && recentResponses == PushRecent(old(recentResponses), SuccessResponse(outcome.txHash, contractId))
      ensures outcome.WithdrawFailed? ==>
                reply == ServerError("Failed to withdraw contract")
                && contractDetails == old(contractDetails) && recentResponses == old(recentResponses)
    {
      RemovePendingNoDuplicates(pendingContracts, contractId);
      match outcome
      case Confirmed(txHash, refreshed) =>
        contractDetails := contractDetails[contractId := refreshed];
        var msg := SuccessResponse(txHash, contractId);
        recentResponses := PushRecent(recentResponses, msg);
        pendingContracts := RemovePending(pendingContracts, contractId);
        reply := Success(msg);
      case WithdrawFailed =>
        pendingContracts := RemovePending(pendingContracts, contractId);
        reply := ServerError("Failed to withdraw contract");
    }

    /** The `/relay` handler for one request; `withdrew` tells whether the
        withdrawal was submitted to the ledger. */
    method HandleRelay(req: RelayRequest, read: LedgerRead, digest: string -> string, outcome: WithdrawOutcome)
      returns (reply: Reply, withdrew: bool)
      requires Valid()
      modifies this
      ensures Valid()
      // A malformed request is answered 400 and changes nothing.
      ensures !IsRelayRequest(req) ==>
                reply == BadRequest("Invalid request") && !withdrew
                && contractDetails == old(contractDetails) && recentRequests == old(recentRequests)
                && recentResponses == old(recentResponses) && pendingContracts == old(pendingContracts)
      // A well-formed request becomes the newest recent request.
      ensures IsRelayRequest(req) ==> recentRequests == PushRecent(old(recentRequests), req)
      // The ledger read threw: the outer catch answers 500; the id stays pending.
      ensures IsRelayRequest(req) && read.ReadFailed? ==>
                reply == ServerError("Internal server error") && !withdrew
                && contractDetails == old(contractDetails) && recentResponses == old(recentResponses)
                && pendingContracts == AddPending(old(pendingContracts), req.contractId)
      // Validation failed: 400, the (possibly empty) record is cached, the id stays pending.
      ensures IsRelayRequest(req) && read.Returned?
              && CheckContract(read.details, req.preimage, digest) != Accepted ==>
                reply == BadRequest("Unable to validate contract and preimage") && !withdrew
                && contractDetails == old(contractDetails)[req.contractId := read.details]
                && recentResponses == old(recentResponses)
                && pendingContracts == AddPending(old(pendingContracts), req.contractId)
      // The withdrawal is submitted exactly when validation passed.
      ensures withdrew <==> IsRelayRequest(req) && read.Returned?
                            && CheckContract(read.details, req.preimage, digest) == Accepted
      // After the withdrawal resolved, either way, the id is no longer pending.
      ensures withdrew ==> pendingContracts == RemovePending(old(pendingContracts), req.contractId)
      // Confirmed: cache refreshed, success recorded.
      ensures withdrew && outcome.Confirmed? ==>
                reply == Success(SuccessResponse(outcome.txHash, req.contractId))
                && contractDetails == old(contractDetails)[req.contractId := outcome.refreshed]
                && recentResponses == PushRecent(old(recentResponses), SuccessResponse(outcome.txHash, req.contractId))
      // Rejected: 500, the validation read stays cached, no response recorded.
      ensures withdrew && outcome.WithdrawFailed? ==>
                reply == ServerError("Failed to withdraw contract")
                && contractDetails == old(contractDetails)[req.contractId := read.details]
                && recentResponses == old(recentResponses)
    {
      withdrew := false;
      if !IsRelayRequest(req) {
        reply := BadRequest("Invalid request");
        return;
      }
      RecordRequest(RelayRequest(req.kind, req.contractId, req.preimage));
      if read.ReadFailed? {
        reply := ServerError("Internal server error");
        return;
      }
      var ok := ValidateContractAndPreimage(req.contractId, read.details, req.preimage, digest);
      if !ok {
        reply := BadRequest("Unable to validate contract and preimage");
        return;
      }
      withdrew := true;
      AddThenRemovePending(old(pendingContracts), req.contractId);
      reply := CompleteWithdrawal(req.contractId, outcome);
    }
  }
}
