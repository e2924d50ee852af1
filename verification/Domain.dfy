/** Identities and records that several components of BreakGlass exchange.

    SHA-256 and HMAC are modelled as injective: a digest is represented by the very
    value it commits to.  So an incident id carries the policy version, the delivery and
    the body it was derived from, and two ids are equal exactly when those are. */
module Domain {

  datatype Option<+T> = None | Some(value: T)

  type Did = nat          // a T3N principal
  type Nonce = nat        // sixteen random bytes
  type HandoffId = nat    // operator-handoff-<time>-<random>

  /** `claim-<version>-<nonce>` and `start-<version>-<nonce>` of the C1 contract. */
  datatype ClaimId = ClaimId(version: nat, nonce: Nonce)
  datatype StartId = StartId(version: nat, nonce: Nonce)

  datatype Classification =
    | NotAttempted
    | ProviderAcknowledged
    | AttemptedOutcomeUnknown
    | VerifiedAbsent
    | VerifiedPresent

  /** What a push is about: provider, event type, repository and ref. */
  datatype Source = Source(provider: string, eventType: string, repositoryId: nat, repository: string, ref: string)

  const PUSH_REPOSITORY := "Ticoworld/t3n-breakglass-sandbox"
  const PUSH_SOURCE := Source("github", "push", 1350596128, PUSH_REPOSITORY, "refs/heads/c2-breakglass-demo")
  const SECRET_PATH := ".breakglass-c2/exposed-deploy-key"

  /** The authenticated body of a push; it stands for its own raw-body digest. */
  datatype Body = Body(before: string, after: string, deleted: bool, forced: bool, created: bool, rest: string)

  datatype Event = Event(deliveryId: string, source: Source, body: Body)

  /** dedupe.ts: the digest of delivery id, event type, repository id and name. */
  datatype DedupeKey = DedupeKey(deliveryId: string, eventType: string, repositoryId: nat, repository: string)

  function KeyOf(event: Event): DedupeKey {
    DedupeKey(event.deliveryId, event.source.eventType, event.source.repositoryId, event.source.repository)
  }

  datatype PolicyRef = PolicyRef(id: string, version: int)

  /** push-c1.ts: the digest of policy id, policy version, delivery id and body digest. */
  datatype IncidentId = IncidentId(policy: PolicyRef, deliveryId: string, body: Body)

  datatype CreateRequest = CreateRequest(
    incident: IncidentId, remediation: Did, broker: Did, keyId: int, ttlSecs: int)
}
