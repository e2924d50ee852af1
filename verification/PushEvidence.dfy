/** From an authenticated push to bounded authority: the immutable read plan
    (push-read-plan.ts), the causal transition (push-transition.ts), the C1 create request
    (push-c1.ts) and the identity a policy is bound under (push-binding.ts).

    Commit ids are compared as they are; the source lower-cases them first. */
module PushEvidence {
  import opened Domain
  import opened PushPolicy

  const ZERO_SHA := "0000000000000000000000000000000000000000"

  // ---- Read plan

  datatype ReadPlan = ReadPlan(repository: string, before: string, after: string, path: string)

  predicate Eligible(event: Event) {
    && !event.body.created && !event.body.forced && !event.body.deleted
    && event.body.before != ZERO_SHA && event.body.after != ZERO_SHA && event.body.before != event.body.after
  }

  datatype Planned = Plan(plan: ReadPlan) | NotEligible | PolicyMismatch

  function PlanReads(event: Event, policy: Policy): Planned {
    if !Eligible(event) then NotEligible
    else if Select(event, [policy], {}) != Match(policy) then PolicyMismatch
    else Plan(ReadPlan(policy.source.repository, event.body.before, event.body.after, policy.path))
  }

  /** No field of the event selects the repository or the path that is read. */
  lemma PlansAreImmutable(event: Event, policy: Policy)
    requires PlanReads(event, policy).Plan?
    ensures PlanReads(event, policy).plan == ReadPlan(PUSH_REPOSITORY, event.body.before, event.body.after, SECRET_PATH)
    ensures Eligible(event) && Usable(policy, event, {})
  {
    SelectionIsUsable(event, [policy], {});
  }

  // ---- Observations

  datatype Observation = Observation(repository: string, commit: string, path: string, status: int, digest: Option<string>)

  datatype ReadOperation = ReadOperation(repository: string, path: string, commit: string)

  function BeforeRead(plan: ReadPlan): ReadOperation { ReadOperation(plan.repository, plan.path, plan.before) }
  function AfterRead(plan: ReadPlan): ReadOperation { ReadOperation(plan.repository, plan.path, plan.after) }

  /** assertImmutableObservation of push-source-reader.ts. */
  predicate Observes(o: Observation, op: ReadOperation) {
    && o.repository == op.repository && o.path == op.path && o.commit == op.commit
    && (o.status == 200 || o.status == 404)
    && (o.status == 200 ==> o.digest.Some? && IsSha256(o.digest.value))
  }

  // ---- Transition

  datatype Transition =
    | CausalSecretIntroduced | NoSecretTransition | SecretAlreadyPresentBefore
    | AfterMissing | AfterDigestMismatch | TargetPolicyMismatch

  datatype Judgement = Judgement(transition: Transition, before: Option<string>, after: Option<string>)

  predicate IsCommit(s: string) { |s| == 40 && forall c <- s :: IsLowerHex(c) || 'A' <= c <= 'F' }

  predicate OnTarget(o: Observation) { o.repository == PUSH_REPOSITORY && o.path == SECRET_PATH && IsCommit(o.commit) }

  function DigestOf(o: Observation): Option<string> {
    if o.status == 200 && o.digest.Some? && IsSha256(o.digest.value) then o.digest else None
  }

  function JudgeTransition(before: Observation, after: Observation, policy: Policy, plan: ReadPlan): Judgement {
    var b := DigestOf(before);
    var a := DigestOf(after);
    if !OnTarget(before) || !OnTarget(after) || before.commit != plan.before || after.commit != plan.after
    then Judgement(TargetPolicyMismatch, before.digest, after.digest)
    else if after.status == 404 then Judgement(AfterMissing, b, None)
    else if a != Some(policy.privateSha) then Judgement(AfterDigestMismatch, b, a)
    else if before.status == 200 && b == Some(policy.privateSha) then Judgement(SecretAlreadyPresentBefore, b, a)
    else if before.status == 404 && before.digest.None? then Judgement(CausalSecretIntroduced, b, a)
    else if before.status == 200 && b.Some? && b != Some(policy.privateSha) then Judgement(CausalSecretIntroduced, b, a)
    else Judgement(NoSecretTransition, b, a)
  }

  /** The secret the policy names is at the AFTER commit of exactly this push, and either the
      file or at least that secret was not there at its BEFORE commit. */
  predicate SecretIntroduced(before: Observation, after: Observation, policy: Policy, plan: ReadPlan) {
    && OnTarget(before) && OnTarget(after) && before.commit == plan.before && after.commit == plan.after
    && after.status == 200 && after.digest == Some(policy.privateSha)
    && ((before.status == 404 && before.digest.None?) ||
        (before.status == 200 && before.digest.Some? && IsSha256(before.digest.value) && before.digest != Some(policy.privateSha)))
  }

  lemma CausalMeansIntroduced(before: Observation, after: Observation, policy: Policy, plan: ReadPlan)
    requires Valid(policy)
    ensures JudgeTransition(before, after, policy, plan).transition == CausalSecretIntroduced
            <==> SecretIntroduced(before, after, policy, plan)
  {
  }

  /** And every other judgement: off the target, nothing at AFTER, another secret there, this one
      at BEFORE already, or a BEFORE that is neither present nor absent. */
  lemma JudgementsAreExact(before: Observation, after: Observation, policy: Policy, plan: ReadPlan)
    requires Valid(policy)
    ensures
      var t := JudgeTransition(before, after, policy, plan).transition;
      var onTarget := OnTarget(before) && OnTarget(after) && before.commit == plan.before && after.commit == plan.after;
      var there := after.status == 200 && after.digest == Some(policy.privateSha);
      var already := before.status == 200 && before.digest == Some(policy.privateSha);
      && (t == TargetPolicyMismatch <==> !onTarget)
      && (t == AfterMissing <==> onTarget && after.status == 404)
      && (t == AfterDigestMismatch <==> onTarget && after.status != 404 && !there)
      && (t == SecretAlreadyPresentBefore <==> onTarget && there && already)
      && (t == NoSecretTransition <==> onTarget && there && !already && !SecretIntroduced(before, after, policy, plan))
    ensures forall o: Observation :: OnTarget(o) <==>
              && o.repository == "Ticoworld/t3n-breakglass-sandbox" && o.path == ".breakglass-c2/exposed-deploy-key"
              && |o.commit| == 40 && forall c <- o.commit :: '0' <= c <= '9' || 'a' <= c <= 'f' || 'A' <= c <= 'F'
  {
  }

  /** digestPrivateMaterial: the digest stands for the material; the caller's buffer is wiped. */
  method DigestPrivateMaterial(material: array<int>) returns (digest: seq<int>)
    modifies material
    ensures digest == old(material[..])
    ensures forall i | 0 <= i < material.Length :: material[i] == 0
  {
    digest := material[..];
    for i := 0 to material.Length
      invariant forall j | 0 <= j < i :: material[j] == 0
    {
      material[i] := 0;
    }
  }

  // ---- Authority

  function IncidentOf(event: Event, policy: Policy): IncidentId {
    IncidentId(RefOf(policy), event.deliveryId, event.body)
  }

  function CreateRequestOf(event: Event, policy: Policy): CreateRequest {
    CreateRequest(IncidentOf(event, policy), policy.remediation, policy.broker, policy.keyId, policy.ttlSecs)
  }

  /** None when derivePushC1CreateRequest refuses. */
  function Derive(event: Event, policy: Policy, judgement: Judgement): Option<CreateRequest> {
    if !IsLive(policy) || !policy.enabled then None
    else if event.source != PUSH_SOURCE || event.body.deleted then None
    else if judgement.transition != CausalSecretIntroduced then None
    else Some(CreateRequestOf(event, policy))
  }

  /** The digest under which a policy is bound; the policy stands for its content hash. */
  datatype BindingIdentity = BindingIdentity(
    policy: PolicyRef, registryIdentity: string, content: Policy, key: DedupeKey, event: Event,
    judgement: Judgement, incident: IncidentId)
}
