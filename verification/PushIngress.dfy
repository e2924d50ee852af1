/** One webhook delivery, from the authenticated event to the remediation job:
    `acceptWebhook` of winner/runtime/coordinator.ts and the processor of
    winner/c2/push-ingress.ts, as a machine that makes one call at a time. */
module PushIngress {
  import opened Domain
  import opened PushPolicy
  import opened PushEvidence
  import opened R = PolicyRegistry
  import D = Dedupe
  import J = JobStore

  datatype Launch = Launch(event: Event, nonce: Nonce)

  datatype IngressCall =
    | FindReceipt(key: DedupeKey)
    | ListActive
    | FindBound(event: Event)
    | ListBound(event: Event)
    | ReserveReceipt(event: Event, nonce: Nonce)
    | ReadSource(plan: ReadPlan)
    | Bind(input: BindInput)
    | FinalizeReceipt(reservation: D.Reservation, next: D.State, recovering: bool)
    | CreateJob(frozen: J.Frozen)

  /** `due`: the reservation found is old enough to be resumed. */
  datatype IngressReply =
    | Threw
    | FoundReceipt(receipt: Option<D.Receipt>)
    | Records(records: seq<PolicyRecord>)
    | BoundRecord(record: Option<PolicyRecord>)
    | ReservedAs(reservation: D.Reservation, due: bool)
    | Observed(before: Observation, after: Observation)
    | BindReply(outcome: BindOutcome)
    | Finalized
    | JobReady(job: J.Job)

  datatype Exchange = Exchange(call: IngressCall, reply: IngressReply)

  datatype Outcome = Accepted(frozen: J.Frozen, replayed: bool) | Declined(decision: D.Decision) | Unresolved | ConflictingPayload | Failed

  /** A reservation this delivery may finalize. */
  datatype Hold = Hold(reservation: D.Reservation, recovering: bool)

  datatype Pc =
    | Finding
    | ListingActive(existing: Option<D.Receipt>)
    | FindingBound(active: seq<PolicyRecord>)
    | ListingBound(active: seq<PolicyRecord>)
    | Reserving(records: seq<PolicyRecord>, bound: bool)
    | ReadingSource(hold: Hold, policy: Policy, record: PolicyRecord, plan: ReadPlan)
    | BindingPolicy(hold: Hold, input: BindInput)
    | Finalizing(hold: Hold, next: D.State)
    | CreatingJob(frozen: J.Frozen, replayed: bool)
    | Ended(outcome: Outcome)

  datatype Ingress = Ingress(launch: Launch, pc: Pc)

  function Launched(l: Launch): Ingress { Ingress(l, Finding) }

  // ---- Choosing the records that are offered to the lookup

  predicate SameVersion(a: PolicyRecord, b: PolicyRecord) { RefOf(a.policy) == RefOf(b.policy) }

  predicate Offers(records: seq<PolicyRecord>, record: PolicyRecord) { exists r <- records :: SameVersion(r, record) }

  function AddNew(records: seq<PolicyRecord>, more: seq<PolicyRecord>): seq<PolicyRecord>
    decreases |more|
  {
    if more == [] then records
    else AddNew(if Offers(records, more[0]) then records else records + [more[0]], more[1..])
  }

  predicate CoversSource(records: seq<PolicyRecord>, event: Event) {
    exists r <- records :: r.policy.source == event.source
  }

  function PoliciesOf(records: seq<PolicyRecord>): seq<Policy> { seq(|records|, i requires 0 <= i < |records| => records[i].policy) }

  /** The registry metadata of a selected policy. */
  function RecordFor(records: seq<PolicyRecord>, policy: Policy): Option<PolicyRecord> {
    if records == [] then None
    else match RecordFor(records[1..], policy) {
      case Some(r) => Some(r)
      case None => if RefOf(records[0].policy) == RefOf(policy) then Some(records[0]) else None
    }
  }

  // ---- Freezing

  function AcceptanceOf(input: BindInput): D.Acceptance {
    D.Acceptance(RefOf(input.policy), input.registryIdentity, input.content, IdentityOf(input), input.policy.revokesDeployKey,
                 input.policy.title, input.incident, CreateRequestOf(input.event, input.policy))
  }

  function FrozenOf(key: DedupeKey, a: D.Acceptance): J.Frozen {
    J.Frozen(a.incident, key, a.policy, a.request.keyId, a.title, a.request)
  }

  /** validateAcceptedReceipt: the accepted receipt is this very event's and complete. */
  predicate ReceiptReplays(receipt: D.Receipt, event: Event) {
    && receipt.state.Accepted?
    && receipt.key == KeyOf(event)
    && receipt.event.deliveryId == event.deliveryId
    && receipt.event.source.eventType == event.source.eventType
    && receipt.event.source.repositoryId == event.source.repositoryId
    && receipt.event.source.repository == event.source.repository
    && receipt.event.source.ref == event.source.ref
    && receipt.event.body == event.body
    && var a := receipt.state.acceptance;
       a.policy.id != "" && 0 < a.policy.version <= MAX_SAFE_INTEGER && a.title != "" && D.StoredRequestOk(a.request, a.incident)
  }

  // ---- The machine

  function CallOf(p: Ingress): IngressCall
    requires !p.pc.Ended?
  {
    match p.pc {
      case Finding => FindReceipt(KeyOf(p.launch.event))
      case ListingActive(_) => ListActive
      case FindingBound(_) => FindBound(p.launch.event)
      case ListingBound(_) => ListBound(p.launch.event)
      case Reserving(_, _) => ReserveReceipt(p.launch.event, p.launch.nonce)
      case ReadingSource(_, _, _, plan) => ReadSource(plan)
      case BindingPolicy(_, input) => Bind(input)
      case Finalizing(hold, next) => FinalizeReceipt(hold.reservation, next, hold.recovering)
      case CreatingJob(frozen, _) => CreateJob(frozen)
    }
  }

  function End(p: Ingress, outcome: Outcome): Ingress { p.(pc := Ended(outcome)) }

  function Decline(p: Ingress, hold: Hold, decision: D.Decision): Ingress { p.(pc := Finalizing(hold, D.Refused(decision))) }

  function OnFound(p: Ingress, existing: Option<D.Receipt>): Ingress {
    if existing.Some? && !existing.value.state.Reserved? then p.(pc := Reserving([], false)) else p.(pc := ListingActive(existing))
  }

  function OnActive(p: Ingress, existing: Option<D.Receipt>, active: seq<PolicyRecord>): Ingress {
    if existing.Some? then p.(pc := FindingBound(active))
    else if CoversSource(active, p.launch.event) then p.(pc := Reserving(active, false))
    else p.(pc := ListingBound(active))
  }

  function Replay(p: Ingress, receipt: D.Receipt): Ingress {
    if receipt.state.Accepted? && ReceiptReplays(receipt, p.launch.event)
    then p.(pc := CreatingJob(FrozenOf(receipt.key, receipt.state.acceptance), true))
    else End(p, Declined(D.Rejected))
  }

  function OnReserved(p: Ingress, records: seq<PolicyRecord>, bound: bool, reservation: D.Reservation, due: bool): Ingress {
    var duplicate := reservation.status == D.DuplicateSame;
    var recovering := duplicate && (due || bound);
    if reservation.status == D.Conflict then End(p, ConflictingPayload)
    else if duplicate && !reservation.receipt.state.Reserved? then Replay(p, reservation.receipt)
    else if duplicate && !recovering then End(p, Unresolved)
    else Choose(p, records, Hold(reservation, recovering))
  }

  function Choose(p: Ingress, records: seq<PolicyRecord>, hold: Hold): Ingress {
    match Select(p.launch.event, PoliciesOf(records), {}) {
      case NoMatch => Decline(p, hold, D.NoMatchingPolicy)
      case Ambiguous => Decline(p, hold, D.PolicyAmbiguous)
      case Disabled(_) => Decline(p, hold, D.PolicyDisabled)
      case Match(policy) =>
        match PlanReads(p.launch.event, policy) {
          case NotEligible => Decline(p, hold, D.NotAuthorityEligible)
          case PolicyMismatch => Decline(p, hold, D.Rejected)
          case Plan(plan) =>
            match RecordFor(records, policy) {
              case Some(record) => p.(pc := ReadingSource(hold, policy, record, plan))
              case None => Decline(p, hold, D.Rejected)
            }
        }
    }
  }

  function OnObserved(p: Ingress, hold: Hold, policy: Policy, record: PolicyRecord, plan: ReadPlan, before: Observation, after: Observation): Ingress {
    var judgement := JudgeTransition(before, after, policy, plan);
    if judgement.transition != CausalSecretIntroduced then Decline(p, hold, D.TransitionRejected)
    else match Derive(p.launch.event, policy, judgement) {
      case None => Decline(p, hold, D.Rejected)
      case Some(request) =>
        p.(pc := BindingPolicy(hold, BindInput(policy, p.launch.event, judgement, request.incident, hold.reservation.receipt.key,
                                         record.registryIdentity, record.policy)))
    }
  }

  function Step(p: Ingress, r: IngressReply): (p': Ingress)
    requires !p.pc.Ended?
    ensures p'.launch == p.launch
  {
    match p.pc {
      case Finding => if r.FoundReceipt? then OnFound(p, r.receipt) else End(p, Failed)
      case ListingActive(existing) => if r.Records? then OnActive(p, existing, r.records) else End(p, Failed)
      case FindingBound(active) =>
        if !r.BoundRecord? then End(p, Failed)
        else if r.record.Some? then p.(pc := Reserving(AddNew(active, [r.record.value]), true))
        else p.(pc := Reserving(active, false))
      case ListingBound(active) => if r.Records? then p.(pc := Reserving(AddNew(active, r.records), false)) else End(p, Failed)
      case Reserving(records, bound) => if r.ReservedAs? then OnReserved(p, records, bound, r.reservation, r.due) else End(p, Failed)
      case ReadingSource(hold, policy, record, plan) =>
        if r.Observed? then OnObserved(p, hold, policy, record, plan, r.before, r.after) else Decline(p, hold, D.Rejected)
      case BindingPolicy(hold, input) =>
        if !r.BindReply? || r.outcome == R.Refused then End(p, Failed)
        else if r.outcome == AlreadyBound then Decline(p, hold, D.PolicyAlreadyBound)
        else p.(pc := Finalizing(hold, D.Accepted(AcceptanceOf(input))))
      case Finalizing(hold, next) =>
        if !r.Finalized? then End(p, Failed)
        else match next {
          case Accepted(a) => p.(pc := CreatingJob(FrozenOf(hold.reservation.receipt.key, a), false))
          case Refused(decision) => End(p, Declined(decision))
          case Reserved => End(p, Failed)
        }
      case CreatingJob(frozen, replayed) => if r.JobReady? then End(p, Accepted(frozen, replayed)) else End(p, Failed)
    }
  }
}
