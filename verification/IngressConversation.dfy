/** What the processing of a delivery must hear before each of its calls, and how every receipt
    ends, with every branch spelled out over exchanges. */
module IngressConversation {
  import opened Domain
  import opened PushPolicy
  import opened PushEvidence
  import opened R = PolicyRegistry
  import opened PushIngress
  import opened PushIngressTrace
  import D = Dedupe
  import J = JobStore

  function Prior(h: History): History
    requires h != []
  {
    h[..|h| - 1]
  }

  predicate EndsWith(h: History, call: IngressCall) { h != [] && h[|h| - 1].call == call }

  function Heard(h: History): IngressReply
    requires h != []
  {
    h[|h| - 1].reply
  }

  // ---- Which pushes carry authority

  predicate IsZero(commit: string) { |commit| == 40 && forall c <- commit :: c == '0' }

  /** A push that creates, deletes or forces the ref, or that is not between two commits. */
  predicate IsBarred(body: Body) {
    body.created || body.forced || body.deleted || IsZero(body.before) || IsZero(body.after) || body.before == body.after
  }

  lemma ZerosAreZero(s: string)
    ensures s == ZERO_SHA <==> IsZero(s)
  {
    assert |ZERO_SHA| == 40 && forall c <- ZERO_SHA :: c == '0';
    if IsZero(s) {
      assert forall i | 0 <= i < 40 :: s[i] in s && ZERO_SHA[i] in ZERO_SHA;
      assert s == ZERO_SHA;
    }
  }

  lemma EligibleExactly(event: Event)
    ensures Eligible(event) <==> !IsBarred(event.body)
  {
    ZerosAreZero(event.body.before);
    ZerosAreZero(event.body.after);
  }

  /** A plan is refused as not eligible exactly for a barred push, and made exactly for a usable
      policy of any other push; then it reads the two commits of the push at the fixed path. */
  lemma PlansExactly(event: Event, policy: Policy)
    ensures PlanReads(event, policy).NotEligible? <==> IsBarred(event.body)
    ensures PlanReads(event, policy).Plan? <==> !IsBarred(event.body) && Usable(policy, event, {})
    ensures PlanReads(event, policy).Plan? ==>
              PlanReads(event, policy).plan == ReadPlan(PUSH_REPOSITORY, event.body.before, event.body.after, SECRET_PATH)
  {
    hide Select, Eligible, IsBarred, IsLive;
    EligibleExactly(event);
    OneIsSelected(event, policy);
    if PlanReads(event, policy).Plan? {
      PlansAreImmutable(event, policy);
    }
  }

  lemma OneIsSelected(event: Event, policy: Policy)
    ensures Select(event, [policy], {}) == Match(policy) <==> Usable(policy, event, {})
  {
    hide Select, IsLive;
    SelectionIsUnique(event, [policy], {}, policy);
    assert policy in [policy];
  }

  /** The secret of the policy is at AFTER and was not at BEFORE, each read at the commit of this
      push, in the fixed file. */
  predicate Introduces(body: Body, before: Observation, after: Observation, policy: Policy) {
    && before.repository == PUSH_REPOSITORY && before.path == SECRET_PATH && before.commit == body.before && IsCommit(body.before)
    && after.repository == PUSH_REPOSITORY && after.path == SECRET_PATH && after.commit == body.after && IsCommit(body.after)
    && after.status == 200 && after.digest == Some(policy.privateSha)
    && ( || (before.status == 404 && before.digest.None?)
         || (before.status == 200 && before.digest.Some? && before.digest.value != policy.privateSha && IsSha256(before.digest.value)))
  }

  lemma IntroducesExactly(event: Event, before: Observation, after: Observation, policy: Policy, plan: ReadPlan)
    requires Valid(policy) && plan.before == event.body.before && plan.after == event.body.after
    ensures JudgeTransition(before, after, policy, plan).transition == CausalSecretIntroduced <==> Introduces(event.body, before, after, policy)
  {
    hide JudgeTransition, Valid, IsSha256, IsCommit;
    CausalMeansIntroduced(before, after, policy, plan);
  }

  // ---- Which records are offered

  /** Adding keeps what is there, offers every version of the rest, and no version twice. */
  lemma {:induction false} AddsNewVersions(records: seq<PolicyRecord>, more: seq<PolicyRecord>)
    ensures records <= AddNew(records, more)
    ensures forall r <- more :: Offers(AddNew(records, more), r)
    ensures forall i, j | 0 <= i < j < |AddNew(records, more)| && |records| <= j ::
              AddNew(records, more)[j] in more && !SameVersion(AddNew(records, more)[i], AddNew(records, more)[j])
    decreases |more|
  {
    if more != [] {
      var first := if Offers(records, more[0]) then records else records + [more[0]];
      AddsNewVersions(first, more[1..]);
      var all := AddNew(first, more[1..]);
      assert Offers(first, more[0]) by {
        if !Offers(records, more[0]) {
          assert first[|records|] == more[0] && SameVersion(first[|records|], more[0]);
        }
      }
      OffersStay(first, all, more[0]);
      forall r <- more ensures Offers(all, r) {
        assert r == more[0] || r in more[1..];
      }
      forall i, j | 0 <= i < j < |all| && |records| <= j ensures all[j] in more && !SameVersion(all[i], all[j]) {
        if j < |first| {
          assert all[j] == more[0] && all[i] == records[i];
          assert all[i] in records;
        } else {
          assert all[j] in more[1..];
        }
      }
    }
  }

  lemma OffersStay(records: seq<PolicyRecord>, longer: seq<PolicyRecord>, r: PolicyRecord)
    requires records <= longer && Offers(records, r)
    ensures Offers(longer, r)
  {
    var i :| 0 <= i < |records| && SameVersion(records[i], r);
    assert longer[i] == records[i];
  }

  /** The metadata of a version is that of its last record. */
  lemma {:induction false} FindsTheLast(records: seq<PolicyRecord>, policy: Policy, r: PolicyRecord)
    ensures RecordFor(records, policy) == Some(r) <==>
            exists i | 0 <= i < |records| ::
              && records[i] == r && RefOf(r.policy) == RefOf(policy)
              && forall j | i < j < |records| :: RefOf(records[j].policy) != RefOf(policy)
    ensures RecordFor(records, policy).None? <==> forall i | 0 <= i < |records| :: RefOf(records[i].policy) != RefOf(policy)
  {
    if records != [] {
      var rest := records[1..];
      FindsTheLast(rest, policy, r);
      assert forall i | 0 <= i < |rest| :: rest[i] == records[i + 1];
      if i :| 0 <= i < |rest| && rest[i] == r && RefOf(r.policy) == RefOf(policy) && forall j | i < j < |rest| :: RefOf(rest[j].policy) != RefOf(policy) {
        assert records[i + 1] == r;
        assert forall j | i + 1 < j < |records| :: records[j] == rest[j - 1];
      }
      if i :| 0 <= i < |records| && records[i] == r && RefOf(r.policy) == RefOf(policy) && forall j | i < j < |records| :: RefOf(records[j].policy) != RefOf(policy) {
        if i > 0 {
          assert rest[i - 1] == r;
        }
      }
    }
  }

  predicate CoversEvent(l: Launch, records: seq<PolicyRecord>) { exists r <- records :: r.policy.source == l.event.source }

  predicate HasFound(l: Launch, h: History) {
    |h| == 1 && EndsWith(h, FindReceipt(KeyOf(l.event))) && Heard(h).FoundReceipt?
  }

  predicate IsSettled(receipt: Option<D.Receipt>) { receipt.Some? && receipt.value.state != D.Reserved }

  predicate HasActive(l: Launch, h: History) {
    EndsWith(h, ListActive) && Heard(h).Records? && HasFound(l, Prior(h)) && !IsSettled(Heard(Prior(h)).receipt)
  }

  /** The records a delivery offers to the lookup, and whether one of them is the policy that a
      crashed attempt of this delivery was bound under: none for a settled receipt, the active
      ones and that policy for a receipt in RESERVED, the active ones for a new delivery, and the
      bound ones of the same source where no active one covers it. */
  predicate HasOffer(l: Launch, h: History, records: seq<PolicyRecord>, bound: bool) {
    || (HasFound(l, h) && IsSettled(Heard(h).receipt) && records == [] && !bound)
    || (HasActive(l, h) && Heard(Prior(h)).receipt.None? && CoversEvent(l, Heard(h).records) && records == Heard(h).records && !bound)
    || (EndsWith(h, ListBound(l.event)) && Heard(h).Records? && HasActive(l, Prior(h)) && Heard(Prior(Prior(h))).receipt.None?
        && !CoversEvent(l, Heard(Prior(h)).records) && records == AddNew(Heard(Prior(h)).records, Heard(h).records) && !bound)
    || (EndsWith(h, FindBound(l.event)) && Heard(h).BoundRecord? && HasActive(l, Prior(h)) && Heard(Prior(Prior(h))).receipt.Some?
        && bound == Heard(h).record.Some?
        && records == AddNew(Heard(Prior(h)).records, if bound then [Heard(h).record.value] else []))
  }

  // ---- What becomes of the reservation

  predicate HasReserved(l: Launch, h: History, records: seq<PolicyRecord>, bound: bool) {
    EndsWith(h, ReserveReceipt(l.event, l.nonce)) && Heard(h).ReservedAs? && HasOffer(l, Prior(h), records, bound)
  }

  /** One delivery: what was offered, the reservation it may finalize, the policy it selected. */
  datatype Case = Case(records: seq<PolicyRecord>, bound: bool, hold: Hold)

  /** The delivery holds the reservation: a new one, or one in RESERVED that is due or whose
      policy is bound already. */
  predicate IsHolding(l: Launch, h: History, c: Case) {
    && HasReserved(l, h, c.records, c.bound) && c.hold.reservation == Heard(h).reservation
    && match c.hold.reservation.status {
         case New => !c.hold.recovering
         case DuplicateSame => c.hold.recovering && c.hold.reservation.receipt.state == D.Reserved && (Heard(h).due || c.bound)
         case Conflict => false
       }
  }

  function Selected(l: Launch, c: Case): Lookup { Select(l.event, PoliciesOf(c.records), {}) }

  /** The two commits are to be read. */
  predicate MayRead(l: Launch, h: History, c: Case, policy: Policy) {
    IsHolding(l, h, c) && Selected(l, c) == Match(policy) && !IsBarred(l.event.body)
  }

  function ReadCall(l: Launch): IngressCall {
    ReadSource(ReadPlan(PUSH_REPOSITORY, l.event.body.before, l.event.body.after, SECRET_PATH))
  }

  predicate HasRead(l: Launch, h: History, c: Case, policy: Policy) { EndsWith(h, ReadCall(l)) && MayRead(l, Prior(h), c, policy) }

  /** The policy is to be bound. */
  predicate MayBind(l: Launch, h: History, c: Case, policy: Policy, record: PolicyRecord) {
    && HasRead(l, h, c, policy) && Heard(h).Observed? && Introduces(l.event.body, Heard(h).before, Heard(h).after, policy)
    && RecordFor(c.records, policy) == Some(record)
  }

  /** The input of the bind: this policy, this event, what was read, and the metadata on file. */
  function InputOf(l: Launch, h: History, c: Case, policy: Policy, record: PolicyRecord): BindInput
    requires h != [] && Heard(h).Observed?
  {
    BindInput(policy, l.event, Judgement(CausalSecretIntroduced, Heard(h).before.digest, Some(policy.privateSha)),
              IncidentId(PolicyRef(policy.id, policy.version), l.event.deliveryId, l.event.body),
              c.hold.reservation.receipt.key, record.registryIdentity, record.policy)
  }

  predicate HasBind(l: Launch, h: History, c: Case, policy: Policy, record: PolicyRecord, outcome: BindOutcome) {
    && h != [] && Prior(h) != [] && MayBind(l, Prior(h), c, policy, record)
    && h[|h| - 1].call == Bind(InputOf(l, Prior(h), c, policy, record)) && Heard(h) == BindReply(outcome)
  }

  /** The acceptance freezes that input, and the request it stands for. */
  predicate Freezes(a: D.Acceptance, input: BindInput) {
    && a.policy == PolicyRef(input.policy.id, input.policy.version) && a.registryIdentity == input.registryIdentity && a.content == input.content
    && a.identity == BindingIdentity(a.policy, input.registryIdentity, input.content, input.key, input.event, input.judgement, input.incident)
    && a.revokesDeployKey == input.policy.revokesDeployKey && a.title == input.policy.title && a.incident == input.incident
    && a.request == CreateRequest(IncidentId(a.policy, input.event.deliveryId, input.event.body),
                                  input.policy.remediation, input.policy.broker, input.policy.keyId, input.policy.ttlSecs)
  }

  /** How the receipt is to end. */
  predicate EndsAs(l: Launch, h: History, c: Case, policy: Policy, record: PolicyRecord, next: D.State) {
    || (IsHolding(l, h, c) && Selected(l, c) == NoMatch && next == D.Refused(D.NoMatchingPolicy))
    || (IsHolding(l, h, c) && Selected(l, c) == Ambiguous && next == D.Refused(D.PolicyAmbiguous))
    || (IsHolding(l, h, c) && Selected(l, c).Disabled? && next == D.Refused(D.PolicyDisabled))
    || (IsHolding(l, h, c) && Selected(l, c) == Match(policy) && IsBarred(l.event.body) && next == D.Refused(D.NotAuthorityEligible))
    || (HasRead(l, h, c, policy) && !Heard(h).Observed? && next == D.Refused(D.Rejected))
    || (HasRead(l, h, c, policy) && Heard(h).Observed? && !Introduces(l.event.body, Heard(h).before, Heard(h).after, policy)
        && next == D.Refused(D.TransitionRejected))
    || (HasBind(l, h, c, policy, record, AlreadyBound) && next == D.Refused(D.PolicyAlreadyBound))
    || (HasBind(l, h, c, policy, record, Bound) && next.Accepted? && Prior(h) != [] && Heard(Prior(h)).Observed?
        && Freezes(next.acceptance, InputOf(l, Prior(h), c, policy, record)))
  }

  /** The accepted receipt is this event's own and complete: it is answered again as it stands. */
  predicate Replays(l: Launch, receipt: D.Receipt) {
    && receipt.state.Accepted? && receipt.key == KeyOf(l.event)
    && receipt.event.deliveryId == l.event.deliveryId && receipt.event.body == l.event.body
    && receipt.event.source == l.event.source.(provider := receipt.event.source.provider)
    && var a := receipt.state.acceptance;
       a.policy.id != "" && 0 < a.policy.version <= 9007199254740991 && a.title != "" && a.request.incident == a.incident
       && 0 < a.request.keyId <= 9007199254740991 && 0 < a.request.ttlSecs <= 86400
  }

  /** The job of an acceptance. */
  function JobOf(key: DedupeKey, a: D.Acceptance): J.Frozen { J.Frozen(a.incident, key, a.policy, a.request.keyId, a.title, a.request) }

  // ---- Where a processing comes from

  predicate Follows(before: Pc, pc: Pc) {
    match pc {
      case Finding => false
      case ListingActive(_) => before.Finding?
      case FindingBound(_) => before.ListingActive?
      case ListingBound(_) => before.ListingActive?
      case Reserving(_, _) => before.Finding? || before.ListingActive? || before.FindingBound? || before.ListingBound?
      case ReadingSource(_, _, _, _) => before.Reserving?
      case BindingPolicy(_, _) => before.ReadingSource?
      case Finalizing(_, _) => before.Reserving? || before.ReadingSource? || before.BindingPolicy?
      case CreatingJob(_, _) => before.Reserving? || before.Finalizing?
      case Ended(_) => true
    }
  }

  lemma StepFollows(p: Ingress, r: IngressReply)
    requires !p.pc.Ended?
    ensures Follows(p.pc, Step(p, r).pc)
  {
    hide Select, PlanReads, RecordFor, PoliciesOf, ReceiptReplays, JudgeTransition, Derive, AcceptanceOf, FrozenOf, CoversSource, AddNew;
  }

  lemma LastStep(l: Launch, h: History)
    requires IsHistory(l, h) && h != []
    ensures IsHistory(l, Prior(h)) && !At(l, Prior(h)).pc.Ended?
    ensures h[|h| - 1].call == CallOf(At(l, Prior(h))) && At(l, h) == Step(At(l, Prior(h)), Heard(h))
    ensures Follows(At(l, Prior(h)).pc, At(l, h).pc)
  {
    hide Step, CallOf, Follows;
    StepFollows(At(l, Prior(h)), Heard(h));
  }

  lemma AtFinding(l: Launch, h: History)
    requires IsHistory(l, h)
    ensures At(l, h).pc.Finding? <==> h == []
    ensures h == [] ==> At(l, h) == Launched(l)
  {
    hide Step, CallOf, IsHistory;
    if h != [] {
      LastStep(l, h);
    }
  }

  lemma AtListingActive(l: Launch, h: History)
    requires IsHistory(l, h)
    ensures At(l, h).pc.ListingActive? <==> HasFound(l, h) && !IsSettled(Heard(h).receipt)
    ensures At(l, h).pc.ListingActive? ==> At(l, h).pc.existing == Heard(h).receipt
  {
    hide IsHistory, At, OnReserved, OnObserved;
    if h == [] {
      AtFinding(l, h);
    } else {
      LastStep(l, h);
      AtFinding(l, Prior(h));
    }
  }

  lemma AtListingBound(l: Launch, h: History)
    requires IsHistory(l, h)
    ensures At(l, h).pc.ListingBound? <==> HasActive(l, h) && Heard(Prior(h)).receipt.None? && !CoversEvent(l, Heard(h).records)
    ensures At(l, h).pc.FindingBound? <==> HasActive(l, h) && Heard(Prior(h)).receipt.Some?
    ensures At(l, h).pc.ListingBound? || At(l, h).pc.FindingBound? ==> At(l, h).pc.active == Heard(h).records
  {
    hide IsHistory, At, OnReserved, OnObserved;
    if h == [] {
      AtFinding(l, h);
    } else {
      LastStep(l, h);
      AtListingActive(l, Prior(h));
    }
  }

  lemma AtReserving(l: Launch, h: History, records: seq<PolicyRecord>, bound: bool)
    requires IsHistory(l, h)
    ensures At(l, h).pc == Reserving(records, bound) <==> HasOffer(l, h, records, bound)
  {
    hide IsHistory, At, OnReserved, OnObserved, AddNew;
    if h == [] {
      AtFinding(l, h);
    } else {
      LastStep(l, h);
      AtFinding(l, Prior(h));
      AtListingActive(l, Prior(h));
      AtListingBound(l, Prior(h));
      AddingNothing(if Prior(h) != [] && Heard(Prior(h)).Records? then Heard(Prior(h)).records else []);
    }
  }

  lemma AddingNothing(records: seq<PolicyRecord>)
    ensures AddNew(records, []) == records
  {
  }

  /** What a reservation leads to. */
  lemma AfterReservation(l: Launch, h: History, c: Case)
    requires IsHistory(l, h) && HasReserved(l, h, c.records, c.bound) && c.hold.reservation == Heard(h).reservation
    requires c.hold.recovering == (c.hold.reservation.status == D.DuplicateSame && (Heard(h).due || c.bound))
    ensures
      var receipt := c.hold.reservation.receipt;
      match c.hold.reservation.status {
        case Conflict => At(l, h).pc == Ended(ConflictingPayload)
        case New => IsHolding(l, h, c) && At(l, h) == Choose(Ingress(l, Reserving(c.records, c.bound)), c.records, c.hold)
        case DuplicateSame =>
          if receipt.state.Accepted? && Replays(l, receipt) then At(l, h).pc == CreatingJob(JobOf(receipt.key, receipt.state.acceptance), true)
          else if receipt.state != D.Reserved then At(l, h).pc == Ended(Declined(D.Rejected))
          else if !c.hold.recovering then At(l, h).pc == Ended(Unresolved)
          else IsHolding(l, h, c) && At(l, h) == Choose(Ingress(l, Reserving(c.records, c.bound)), c.records, c.hold)
      }
  {
    hide IsHistory, At, HasOffer, Choose, OnObserved, Select;
    LastStep(l, h);
    AtReserving(l, Prior(h), c.records, c.bound);
  }

  /** What a selection leads to. */
  lemma AfterSelection(p: Ingress, c: Case)
    ensures
      var l := p.launch;
      var p' := Choose(p, c.records, c.hold);
      match Selected(l, c) {
        case NoMatch => p'.pc == Finalizing(c.hold, D.Refused(D.NoMatchingPolicy))
        case Ambiguous => p'.pc == Finalizing(c.hold, D.Refused(D.PolicyAmbiguous))
        case Disabled(_) => p'.pc == Finalizing(c.hold, D.Refused(D.PolicyDisabled))
        case Match(policy) =>
          if IsBarred(l.event.body) then p'.pc == Finalizing(c.hold, D.Refused(D.NotAuthorityEligible))
          else
            && RecordFor(c.records, policy).Some?
            && p'.pc == ReadingSource(c.hold, policy, RecordFor(c.records, policy).value,
                                      ReadPlan(PUSH_REPOSITORY, l.event.body.before, l.event.body.after, SECRET_PATH))
      }
  {
    hide Select, PlanReads, IsBarred, RecordFor, IsLive;
    var l := p.launch;
    if Selected(l, c).Match? {
      var policy := Selected(l, c).policy;
      SelectionIsUsable(l.event, PoliciesOf(c.records), {});
      PlansExactly(l.event, policy);
      var i :| 0 <= i < |c.records| && c.records[i].policy == policy;
      FindsTheLast(c.records, policy, c.records[i]);
    }
  }

  lemma AtHolding(l: Launch, h: History, c: Case)
    requires IsHistory(l, h) && IsHolding(l, h, c)
    ensures At(l, h) == Choose(Ingress(l, Reserving(c.records, c.bound)), c.records, c.hold)
  {
    hide IsHistory, At, HasReserved, Choose;
    AfterReservation(l, h, c);
  }

  /** Whatever follows a selection, the reservation is held. */
  lemma HoldingCase(l: Launch, h: History) returns (c: Case)
    requires IsHistory(l, h) && h != [] && At(l, Prior(h)).pc.Reserving? && (At(l, h).pc.ReadingSource? || At(l, h).pc.Finalizing?)
    ensures IsHolding(l, h, c)
  {
    hide IsHistory, At, HasOffer, Choose, Select;
    LastStep(l, h);
    var pc := At(l, Prior(h)).pc;
    AtReserving(l, Prior(h), pc.records, pc.bound);
    var reservation := Heard(h).reservation;
    c := Case(pc.records, pc.bound, Hold(reservation, reservation.status == D.DuplicateSame && (Heard(h).due || pc.bound)));
    AfterReservation(l, h, c);
  }

  lemma AtReading(l: Launch, h: History, c: Case, policy: Policy)
    requires IsHistory(l, h) && MayRead(l, h, c, policy)
    ensures RecordFor(c.records, policy).Some?
    ensures At(l, h).pc == ReadingSource(c.hold, policy, RecordFor(c.records, policy).value,
                                         ReadPlan(PUSH_REPOSITORY, l.event.body.before, l.event.body.after, SECRET_PATH))
  {
    hide IsHistory, At, IsHolding, Choose, Select, IsBarred;
    AtHolding(l, h, c);
    AfterSelection(Ingress(l, Reserving(c.records, c.bound)), c);
  }

  lemma ReadingCase(l: Launch, h: History) returns (c: Case, policy: Policy)
    requires IsHistory(l, h) && At(l, h).pc.ReadingSource?
    ensures MayRead(l, h, c, policy)
  {
    hide IsHistory, At, IsHolding, Choose, Select, IsBarred;
    if h == [] {
      AtFinding(l, h);
    } else {
      LastStep(l, h);
      c := HoldingCase(l, h);
      AtHolding(l, h, c);
      AfterSelection(Ingress(l, Reserving(c.records, c.bound)), c);
      policy := At(l, h).pc.policy;
    }
  }

  lemma SelectedIsUsable(l: Launch, c: Case, policy: Policy)
    requires Selected(l, c) == Match(policy)
    ensures Usable(policy, l.event, {}) && Valid(policy) && l.event.source == PUSH_SOURCE
  {
    hide Select;
    SelectionIsUsable(l.event, PoliciesOf(c.records), {});
  }

  /** The derivation never refuses what was introduced. */
  lemma DerivesAlways(l: Launch, policy: Policy, judgement: Judgement)
    requires Usable(policy, l.event, {}) && l.event.source == PUSH_SOURCE && !IsBarred(l.event.body)
    requires judgement.transition == CausalSecretIntroduced
    ensures Derive(l.event, policy, judgement) == Some(CreateRequestOf(l.event, policy))
  {
  }

  lemma IntroducedJudgement(event: Event, before: Observation, after: Observation, policy: Policy, plan: ReadPlan)
    requires Valid(policy) && plan.before == event.body.before && plan.after == event.body.after && Introduces(event.body, before, after, policy)
    ensures JudgeTransition(before, after, policy, plan) == Judgement(CausalSecretIntroduced, before.digest, Some(policy.privateSha))
  {
  }

  lemma AtObserved(l: Launch, h: History, c: Case, policy: Policy)
    requires IsHistory(l, h) && HasRead(l, h, c, policy)
    ensures RecordFor(c.records, policy).Some?
    ensures At(l, h).pc ==
              if !Heard(h).Observed? then Finalizing(c.hold, D.Refused(D.Rejected))
              else if !Introduces(l.event.body, Heard(h).before, Heard(h).after, policy) then Finalizing(c.hold, D.Refused(D.TransitionRejected))
              else BindingPolicy(c.hold, InputOf(l, h, c, policy, RecordFor(c.records, policy).value))
  {
    hide IsHistory, At, IsHolding, Select, Introduces, JudgeTransition, Derive, Usable, Valid;
    LastStep(l, h);
    AtReading(l, Prior(h), c, policy);
    SelectedIsUsable(l, c, policy);
    if Heard(h).Observed? {
      var plan := ReadPlan(PUSH_REPOSITORY, l.event.body.before, l.event.body.after, SECRET_PATH);
      IntroducesExactly(l.event, Heard(h).before, Heard(h).after, policy, plan);
      if Introduces(l.event.body, Heard(h).before, Heard(h).after, policy) {
        IntroducedJudgement(l.event, Heard(h).before, Heard(h).after, policy, plan);
        DerivesAlways(l, policy, JudgeTransition(Heard(h).before, Heard(h).after, policy, plan));
      }
    }
  }

  lemma BindingCase(l: Launch, h: History) returns (c: Case, policy: Policy, record: PolicyRecord)
    requires IsHistory(l, h) && At(l, h).pc.BindingPolicy?
    ensures MayBind(l, h, c, policy, record) && At(l, h).pc == BindingPolicy(c.hold, InputOf(l, h, c, policy, record))
  {
    hide IsHistory, At, MayRead, Select, Introduces, JudgeTransition;
    if h == [] {
      AtFinding(l, h);
    } else {
      LastStep(l, h);
      c, policy := ReadingCase(l, Prior(h));
      ReadingCalls(l, Prior(h), c, policy);
      AtObserved(l, h, c, policy);
      record := RecordFor(c.records, policy).value;
    }
  }

  lemma ReadingCalls(l: Launch, h: History, c: Case, policy: Policy)
    requires IsHistory(l, h) && MayRead(l, h, c, policy)
    ensures !At(l, h).pc.Ended? && CallOf(At(l, h)) == ReadCall(l)
  {
    hide IsHistory, At, MayRead, RecordFor;
    AtReading(l, h, c, policy);
  }

  lemma AtBound(l: Launch, h: History, c: Case, policy: Policy, record: PolicyRecord, outcome: BindOutcome)
    requires IsHistory(l, h) && HasBind(l, h, c, policy, record, outcome)
    ensures At(l, h).pc ==
              match outcome {
                case Refused => Ended(Failed)
                case AlreadyBound => Finalizing(c.hold, D.Refused(D.PolicyAlreadyBound))
                case Bound => Finalizing(c.hold, D.Accepted(AcceptanceOf(InputOf(l, Prior(h), c, policy, record))))
              }
  {
    hide IsHistory, At, HasRead, Introduces, AcceptanceOf, JudgeTransition;
    LastStep(l, h);
    AtObserved(l, Prior(h), c, policy);
  }

  lemma FreezesAcceptance(input: BindInput, a: D.Acceptance)
    ensures Freezes(a, input) <==> a == AcceptanceOf(input)
  {
  }

  // ---- The promises

  /** The source is read exactly for a push that is not barred, under the policy selected for it,
      and exactly at its two commits. */
  lemma ReadsExactly(l: Launch, h: History, call: IngressCall)
    requires IsHistory(l, h) && call.ReadSource?
    ensures !At(l, h).pc.Ended? && CallOf(At(l, h)) == call <==> call == ReadCall(l) && exists c, policy :: MayRead(l, h, c, policy)
  {
    hide IsHistory, At, MayRead;
    if !At(l, h).pc.Ended? && CallOf(At(l, h)) == call {
      var c, policy := ReadingCase(l, h);
      ReadingCalls(l, h, c, policy);
    }
    if c, policy :| MayRead(l, h, c, policy) {
      ReadingCalls(l, h, c, policy);
    }
  }

  /** A policy is bound exactly after the reads showed its secret introduced, to what was read. */
  lemma BindsExactly(l: Launch, h: History, call: IngressCall)
    requires IsHistory(l, h) && call.Bind?
    ensures !At(l, h).pc.Ended? && CallOf(At(l, h)) == call <==>
            exists c, policy, record :: MayBind(l, h, c, policy, record) && h != [] && Heard(h).Observed? && call.input == InputOf(l, h, c, policy, record)
  {
    hide IsHistory, At, MayRead, Introduces;
    if !At(l, h).pc.Ended? && CallOf(At(l, h)) == call {
      var c, policy, record := BindingCase(l, h);
    }
    if c, policy, record :| MayBind(l, h, c, policy, record) && h != [] && Heard(h).Observed? && call.input == InputOf(l, h, c, policy, record) {
      AtObserved(l, h, c, policy);
    }
  }

  lemma EndingCase(l: Launch, h: History) returns (c: Case, policy: Policy, record: PolicyRecord)
    requires IsHistory(l, h) && At(l, h).pc.Finalizing?
    ensures EndsAs(l, h, c, policy, record, At(l, h).pc.next) && At(l, h).pc.hold == c.hold
  {
    hide IsHistory, At, IsHolding, MayRead, Choose, Select, Introduces, IsBarred, JudgeTransition;
    if h == [] {
      AtFinding(l, h);
    } else {
      LastStep(l, h);
      match At(l, Prior(h)).pc {
        case Reserving(_, _) =>
          c := HoldingCase(l, h);
          AtHolding(l, h, c);
          AfterSelection(Ingress(l, Reserving(c.records, c.bound)), c);
          policy, record := *, *;
          if Selected(l, c).Match? {
            policy := Selected(l, c).policy;
          }
        case ReadingSource(_, _, _, _) =>
          c, policy := ReadingCase(l, Prior(h));
          ReadingCalls(l, Prior(h), c, policy);
          AtObserved(l, h, c, policy);
          record := *;
        case BindingPolicy(_, _) =>
          c, policy, record := BoundCase(l, h);
        case _ =>
      }
    }
  }

  lemma BoundCase(l: Launch, h: History) returns (c: Case, policy: Policy, record: PolicyRecord)
    requires IsHistory(l, h) && h != [] && At(l, Prior(h)).pc.BindingPolicy? && At(l, h).pc.Finalizing?
    ensures EndsAs(l, h, c, policy, record, At(l, h).pc.next) && At(l, h).pc.hold == c.hold
  {
    hide IsHistory, At, MayRead, Introduces, AcceptanceOf, JudgeTransition, Freezes;
    LastStep(l, h);
    c, policy, record := BindingCase(l, Prior(h));
    assert Prior(h) != [] && Heard(Prior(h)).Observed?;
    AtBound(l, h, c, policy, record, Heard(h).outcome);
    FreezesAcceptance(InputOf(l, Prior(h), c, policy, record), AcceptanceOf(InputOf(l, Prior(h), c, policy, record)));
  }

  lemma EndsHere(l: Launch, h: History, c: Case, policy: Policy, record: PolicyRecord, next: D.State)
    requires IsHistory(l, h) && EndsAs(l, h, c, policy, record, next)
    ensures At(l, h).pc == Finalizing(c.hold, next)
  {
    hide IsHistory, At, IsHolding, MayRead, MayBind, Choose, Select, Introduces, IsBarred, AcceptanceOf, Freezes, JudgeTransition;
    if IsHolding(l, h, c) {
      AtHolding(l, h, c);
      AfterSelection(Ingress(l, Reserving(c.records, c.bound)), c);
    }
    if HasRead(l, h, c, policy) {
      AtObserved(l, h, c, policy);
    }
    if HasBind(l, h, c, policy, record, AlreadyBound) {
      AtBound(l, h, c, policy, record, AlreadyBound);
    }
    if HasBind(l, h, c, policy, record, Bound) {
      AtBound(l, h, c, policy, record, Bound);
      if next.Accepted? && Prior(h) != [] && Heard(Prior(h)).Observed? {
        FreezesAcceptance(InputOf(l, Prior(h), c, policy, record), next.acceptance);
      }
    }
  }

  /** How every receipt ends: refused for no policy, several, a disabled one, a barred push, a
      failed read, reads that show no introduction or a policy bound already; accepted exactly
      behind its bind. */
  lemma FinalizesExactly(l: Launch, h: History, call: IngressCall)
    requires IsHistory(l, h) && call.FinalizeReceipt?
    ensures !At(l, h).pc.Ended? && CallOf(At(l, h)) == call <==>
            exists c: Case, policy, record ::
              EndsAs(l, h, c, policy, record, call.next) && call.reservation == c.hold.reservation && call.recovering == c.hold.recovering
  {
    hide IsHistory, At, EndsAs;
    if !At(l, h).pc.Ended? && CallOf(At(l, h)) == call {
      var c, policy, record := EndingCase(l, h);
    }
    if c: Case, policy, record :|
      EndsAs(l, h, c, policy, record, call.next) && call.reservation == c.hold.reservation && call.recovering == c.hold.recovering
    {
      EndsHere(l, h, c, policy, record, call.next);
    }
  }

  /** A barred push that finds its policy is refused as not eligible, and its source is never
      read. */
  lemma BarredIsRefused(l: Launch, h: History, c: Case, policy: Policy)
    requires IsHistory(l, h) && IsBarred(l.event.body) && IsHolding(l, h, c) && Selected(l, c) == Match(policy)
    ensures !At(l, h).pc.Ended? && CallOf(At(l, h)) == FinalizeReceipt(c.hold.reservation, D.Refused(D.NotAuthorityEligible), c.hold.recovering)
  {
    hide IsHistory, At, IsHolding, Selected, IsBarred, Choose;
    AtHolding(l, h, c);
    AfterSelection(Ingress(l, Reserving(c.records, c.bound)), c);
  }

  lemma BarredIsNotRead(l: Launch, h: History, n: nat, call: IngressCall)
    requires IsHistory(l, h) && IsBarred(l.event.body) && Issues(l, h, n, call)
    ensures !call.ReadSource? && !call.Bind? && (call.FinalizeReceipt? ==> !call.next.Accepted?)
  {
    hide IsHistory, At, CallOf, IsHolding, IsBarred, Introduces;
    PrefixIsHistory(l, h, n);
    if call.ReadSource? {
      ReadsExactly(l, h[..n], call);
    }
    if call.Bind? {
      BindsExactly(l, h[..n], call);
    }
    if call.FinalizeReceipt? {
      FinalizesExactly(l, h[..n], call);
    }
  }

  /** The receipt reserved was settled before, as accepted, and is answered again. */
  ghost predicate HasReplayed(l: Launch, h: History) {
    && h != [] && Heard(h).ReservedAs? && Heard(h).reservation.status == D.DuplicateSame && Replays(l, Heard(h).reservation.receipt)
    && exists records, bound :: HasReserved(l, h, records, bound)
  }

  predicate HasAccepted(h: History) { h != [] && h[|h| - 1].call.FinalizeReceipt? && h[|h| - 1].call.next.Accepted? && Heard(h).Finalized? }

  lemma CreatesOnReplay(l: Launch, h: History)
    requires IsHistory(l, h) && h != [] && At(l, Prior(h)).pc.Reserving?
    ensures At(l, h).pc.CreatingJob? <==> HasReplayed(l, h)
    ensures HasReplayed(l, h) ==>
              At(l, h).pc == CreatingJob(JobOf(Heard(h).reservation.receipt.key, Heard(h).reservation.receipt.state.acceptance), true)
  {
    hide IsHistory, At, HasOffer, Choose, OnObserved, Select;
    LastStep(l, h);
    var pc := At(l, Prior(h)).pc;
    AtReserving(l, Prior(h), pc.records, pc.bound);
    if Heard(h).ReservedAs? {
      var reservation := Heard(h).reservation;
      var c := Case(pc.records, pc.bound, Hold(reservation, reservation.status == D.DuplicateSame && (Heard(h).due || pc.bound)));
      assert HasReserved(l, h, pc.records, pc.bound);
      AfterReservation(l, h, c);
      AfterSelection(Ingress(l, Reserving(c.records, c.bound)), c);
    }
  }

  lemma ReservesHere(l: Launch, h: History)
    requires IsHistory(l, h) && HasReplayed(l, h)
    ensures At(l, Prior(h)).pc.Reserving?
  {
    hide IsHistory, At, HasOffer, Replays;
    var records, bound :| HasReserved(l, h, records, bound);
    LastStep(l, h);
    AtReserving(l, Prior(h), records, bound);
  }

  lemma CreatesOnAcceptance(l: Launch, h: History)
    requires IsHistory(l, h) && h != [] && !At(l, Prior(h)).pc.Reserving?
    ensures At(l, h).pc.CreatingJob? <==> HasAccepted(h)
    ensures HasAccepted(h) ==> At(l, h).pc == CreatingJob(JobOf(h[|h| - 1].call.reservation.receipt.key, h[|h| - 1].call.next.acceptance), false)
  {
    hide IsHistory, At, OnObserved;
    LastStep(l, h);
  }

  lemma AcceptsElsewhere(l: Launch, h: History)
    requires IsHistory(l, h) && HasAccepted(h)
    ensures !At(l, Prior(h)).pc.Reserving?
  {
    hide IsHistory, At, Step;
    LastStep(l, h);
  }

  /** A job is created exactly for the acceptance just finalized, or for the one of a receipt
      that is answered again. */
  lemma CreatesExactly(l: Launch, h: History, call: IngressCall)
    requires IsHistory(l, h) && call.CreateJob?
    ensures !At(l, h).pc.Ended? && CallOf(At(l, h)) == call <==>
            || (HasAccepted(h) && call.frozen == JobOf(h[|h| - 1].call.reservation.receipt.key, h[|h| - 1].call.next.acceptance))
            || (HasReplayed(l, h) && call.frozen == JobOf(Heard(h).reservation.receipt.key, Heard(h).reservation.receipt.state.acceptance))
  {
    hide IsHistory, At, Step, HasReplayed, HasAccepted;
    if h == [] {
      AtFinding(l, h);
      NothingHeard(l, h);
    } else {
      if HasReplayed(l, h) {
        ReservesHere(l, h);
      }
      if HasAccepted(h) {
        AcceptsElsewhere(l, h);
      }
      if At(l, Prior(h)).pc.Reserving? {
        CreatesOnReplay(l, h);
      } else {
        CreatesOnAcceptance(l, h);
      }
    }
  }

  lemma NothingHeard(l: Launch, h: History)
    requires h == []
    ensures !HasReplayed(l, h) && !HasAccepted(h)
  {
  }

  // ---- Every call of a history

  ghost predicate IsDue(l: Launch, h: History, call: IngressCall) {
    && (call.ReadSource? ==> call == ReadCall(l) && exists c, policy :: MayRead(l, h, c, policy))
    && (call.Bind? ==> exists c, policy, record :: MayBind(l, h, c, policy, record) && h != [] && Heard(h).Observed? && call.input == InputOf(l, h, c, policy, record))
    && (call.FinalizeReceipt? ==>
          exists c: Case, policy, record ::
            EndsAs(l, h, c, policy, record, call.next) && call.reservation == c.hold.reservation && call.recovering == c.hold.recovering)
    && (call.CreateJob? ==>
          || (HasAccepted(h) && call.frozen == JobOf(h[|h| - 1].call.reservation.receipt.key, h[|h| - 1].call.next.acceptance))
          || (HasReplayed(l, h) && call.frozen == JobOf(Heard(h).reservation.receipt.key, Heard(h).reservation.receipt.state.acceptance)))
  }

  ghost predicate CallsAreDue(l: Launch, h: History) { forall n {:trigger h[n]} | 0 <= n < |h| :: IsDue(l, h[..n], h[n].call) }

  lemma EveryCallIsDue(l: Launch, h: History)
    requires IsHistory(l, h)
    ensures CallsAreDue(l, h)
  {
    hide IsHistory, At, CallOf, MayRead, HasRead, EndsAs, Introduces, HasReplayed, HasAccepted;
    forall n {:trigger h[n]} | 0 <= n < |h| ensures IsDue(l, h[..n], h[n].call) {
      PrefixIsHistory(l, h, n);
      match h[n].call {
        case ReadSource(_) => ReadsExactly(l, h[..n], h[n].call);
        case Bind(_) => BindsExactly(l, h[..n], h[n].call);
        case FinalizeReceipt(_, _, _) => FinalizesExactly(l, h[..n], h[n].call);
        case CreateJob(_) => CreatesExactly(l, h[..n], h[n].call);
        case _ =>
      }
    }
  }

  /** How a delivery is answered: by the job it created, with whether it was a replay, by the
      refusal it finalized, or as the reservation says. */
  predicate Concludes(l: Launch, h: History, outcome: Outcome) {
    h != [] &&
    match outcome {
      case Accepted(frozen, replayed) =>
        h[|h| - 1].call == CreateJob(frozen) && Heard(h).JobReady? && (replayed <==> Prior(h) != [] && Prior(h)[|h| - 2].call.ReserveReceipt?)
      case Declined(decision) =>
        || (h[|h| - 1].call.FinalizeReceipt? && h[|h| - 1].call.next == D.Refused(decision) && Heard(h).Finalized?)
        || (decision == D.Rejected && Heard(h).ReservedAs? && Heard(h).reservation.status == D.DuplicateSame
            && Heard(h).reservation.receipt.state != D.Reserved && !Replays(l, Heard(h).reservation.receipt))
      case Unresolved =>
        Heard(h).ReservedAs? && Heard(h).reservation.status == D.DuplicateSame && Heard(h).reservation.receipt.state == D.Reserved && !Heard(h).due
      case ConflictingPayload => Heard(h).ReservedAs? && Heard(h).reservation.status == D.Conflict
      case Failed => true
    }
  }

  lemma EndsAsHeard(l: Launch, h: History)
    requires IsHistory(l, h) && At(l, h).pc.Ended?
    ensures Concludes(l, h, At(l, h).pc.outcome)
  {
    hide IsHistory, At, Step, CallOf, Concludes;
    if h == [] {
      AtFinding(l, h);
    } else if At(l, Prior(h)).pc.Reserving? {
      EndsOnReservation(l, h);
    } else {
      EndsElsewhere(l, h);
    }
  }

  lemma EndsOnReservation(l: Launch, h: History)
    requires IsHistory(l, h) && At(l, h).pc.Ended? && h != [] && At(l, Prior(h)).pc.Reserving?
    ensures Concludes(l, h, At(l, h).pc.outcome)
  {
    hide IsHistory, At, OnObserved, Choose;
    LastStep(l, h);
    var pc := At(l, Prior(h)).pc;
    AtReserving(l, Prior(h), pc.records, pc.bound);
    if Heard(h).ReservedAs? {
      var reservation := Heard(h).reservation;
      var c := Case(pc.records, pc.bound, Hold(reservation, reservation.status == D.DuplicateSame && (Heard(h).due || pc.bound)));
      AfterReservation(l, h, c);
      AfterSelection(Ingress(l, Reserving(c.records, c.bound)), c);
    }
  }

  lemma EndsElsewhere(l: Launch, h: History)
    requires IsHistory(l, h) && At(l, h).pc.Ended? && h != [] && !At(l, Prior(h)).pc.Reserving?
    ensures Concludes(l, h, At(l, h).pc.outcome)
  {
    hide IsHistory, At, OnObserved, OnReserved, Replays;
    LastStep(l, h);
    var pc := At(l, Prior(h)).pc;
    if pc.CreatingJob? {
      ReplaysComeFromReservations(l, Prior(h));
    }
    if pc.ReadingSource? {
      ObservedGoesOn(At(l, Prior(h)), Heard(h));
    }
  }

  lemma ObservedGoesOn(p: Ingress, r: IngressReply)
    requires p.pc.ReadingSource?
    ensures !Step(p, r).pc.Ended?
  {
    hide JudgeTransition, Derive;
  }

  lemma ReplaysComeFromReservations(l: Launch, h: History)
    requires IsHistory(l, h) && At(l, h).pc.CreatingJob?
    ensures h != [] && (At(l, h).pc.replayed <==> h[|h| - 1].call.ReserveReceipt?)
  {
    hide IsHistory, At, HasReplayed, HasAccepted;
    if h == [] {
      AtFinding(l, h);
    } else if At(l, Prior(h)).pc.Reserving? {
      LastStep(l, h);
      CreatesOnReplay(l, h);
    } else {
      LastStep(l, h);
      CreatesOnAcceptance(l, h);
    }
  }
}
