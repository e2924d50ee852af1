/** winner/broker/logic.ts and the response helpers of winner/broker/github-app.ts. */
module BrokerLogic {
  import opened Domain
  import opened C1Contract

  const MAX_SAFE_INTEGER := 0x1F_FFFF_FFFF_FFFF

  /** A transport answer: something that is not a JSON object, or a contract reply. */
  datatype Raw = Garbled | Object(reply: Reply)

  datatype Claimed = Claimed(id: ClaimId, version: int)
  datatype ClaimTarget = ClaimTarget(owner: string, repo: string, keyId: int, claim: Claimed)

  /** `Malformed` stands for a thrown error. */
  datatype Parsed<+T> = Malformed | Refused | Accepted(value: T)

  function ClaimIdentity(detail: Detail): Option<Claimed> {
    if detail.claim.Some? && detail.claimVersion.Some? && 0 < detail.claimVersion.value <= MAX_SAFE_INTEGER
    then Some(Claimed(detail.claim.value, detail.claimVersion.value))
    else None
  }

  /** No key other than the claim identity is present. */
  predicate OnlyClaimKeys(detail: Detail) {
    detail == NO_DETAIL.(claim := detail.claim, claimVersion := detail.claimVersion)
  }

  function ParseClaimProposal(raw: Raw): Parsed<Claimed> {
    if raw.Garbled? then Malformed
    else if raw.reply.result != Proposed then Refused
    else if !OnlyClaimKeys(raw.reply.detail) then Malformed
    else match ClaimIdentity(raw.reply.detail) {
      case Some(claimed) => Accepted(claimed)
      case None => Malformed
    }
  }

  function ParseClaimConfirmation(raw: Raw): Parsed<ClaimTarget> {
    if raw.Garbled? then Malformed
    else
      var detail := raw.reply.detail;
      if raw.reply.result != Confirmed then
        if detail != NO_DETAIL then Malformed else Refused
      else if !detail.revokesDeployKey || detail.owner.None? || detail.repo.None? || detail.keyId.None? then Malformed
      else if detail.owner.value == "" || detail.repo.value == "" || !(0 < detail.keyId.value <= MAX_SAFE_INTEGER) then Malformed
      else match ClaimIdentity(detail) {
        case Some(claimed) => Accepted(ClaimTarget(detail.owner.value, detail.repo.value, detail.keyId.value, claimed))
        case None => Malformed
      }
  }

  predicate TargetMatchesRepository(target: ClaimTarget, owner: string, repo: string) {
    target.owner == owner && target.repo == repo
  }

  /** A key listing: not an array at all, or one entry per row, `None` for a row whose id
      is not a safe integer. */
  type KeyListing = Option<seq<Option<int>>>

  predicate ListIsWellFormed(listing: KeyListing) {
    listing.Some? && forall row <- listing.value :: row.Some? && row.value > 0
  }

  predicate ListContains(listing: KeyListing, keyId: int) {
    listing.Some? && Some(keyId) in listing.value
  }

  /** `deleted` is None when the DELETE failed in transport; the statuses are None when the
      read after it failed. */
  function ClassifyProviderOutcome(deleted: Option<int>, exact: Option<int>, contains: bool, listed: Option<int>, listValid: bool): Classification {
    if deleted.None? then AttemptedOutcomeUnknown
    else if exact == Some(404) && listed == Some(200) && listValid && !contains then VerifiedAbsent
    else if deleted == Some(204) then ProviderAcknowledged
    else VerifiedPresent
  }

  // ---- The contract's replies, as the child reads them

  /** A PROPOSED reply of the contract is accepted with exactly the claim it would commit, as
      long as its version is a safe integer; any other reply to a claim is refused. */
  lemma ClaimRepliesParse(a: Authority, call: Call, operator: Did, now: nat)
    requires call.op.Claim?
    ensures
      var reply := ReplyFrom(Some(a), call, operator, now);
      var parsed := ParseClaimProposal(Object(reply));
      var next := Transact(a, call, now).0;
      && (reply.result == Proposed ==>
            && next.claim == Some(ClaimId(a.claimVersion + 1, call.op.contender))
            && parsed == if next.claimVersion <= MAX_SAFE_INTEGER then Accepted(Claimed(next.claim.value, next.claimVersion)) else Malformed)
      && (reply.result != Proposed ==> parsed == Refused && next.claim == a.claim)
  {
  }

  /** A CONFIRMED reply is accepted with exactly the target and claim on record, as long as
      its numbers are safe integers; any other reply to a confirmation is refused. */
  lemma ConfirmationRepliesParse(a: Authority, call: Call, operator: Did, now: nat)
    requires call.op.ConfirmClaim? && ValidShape(a) && a.owner == GITHUB_OWNER && a.repo == GITHUB_REPOSITORY
    ensures
      var reply := ReplyFrom(Some(a), call, operator, now);
      var parsed := ParseClaimConfirmation(Object(reply));
      && (reply.result == Confirmed ==>
            parsed == if a.claimVersion <= MAX_SAFE_INTEGER && a.request.keyId <= MAX_SAFE_INTEGER
                      then Accepted(ClaimTarget(a.owner, a.repo, a.request.keyId, Claimed(call.op.claim, a.claimVersion))) else Malformed)
      && (reply.result != Confirmed ==> parsed == Refused)
  {
  }
}
