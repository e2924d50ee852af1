/** winner/runtime/policy-registry.ts: policies, one-shot bindings and retirements, each an
    exclusively created file that is never rewritten. */
module PolicyRegistry {
  import opened Domain
  import opened PushPolicy
  import opened PushEvidence

  datatype PolicyRecord = PolicyRecord(registryIdentity: string, activatedAt: int, policy: Policy)

  datatype Binding = Binding(
    policy: PolicyRef, registryIdentity: string, content: Policy, key: DedupeKey, event: Event,
    identity: BindingIdentity, incident: IncidentId)

  datatype Retirement = Retirement(registryIdentity: string, policy: PolicyRef, incident: IncidentId)

  /** The three directories, by the policy identity that names each file. */
  datatype Files = Files(
    policies: map<PolicyRef, PolicyRecord>,
    bindings: map<PolicyRef, Binding>,
    retirements: map<PolicyRef, Retirement>)

  predicate ValidRecord(record: PolicyRecord) {
    && IsLive(record.policy)
    && record.policy.registryIdentity == record.registryIdentity
    && record.policy.provenance.value.evidence == record.registryIdentity
  }

  /** A binding repeats what its identity commits to. */
  predicate Consistent(b: Binding) {
    b == Binding(b.identity.policy, b.identity.registryIdentity, b.identity.content, b.identity.key, b.identity.event, b.identity, b.identity.incident)
  }

  ghost predicate PoliciesOk(policies: map<PolicyRef, PolicyRecord>) {
    forall p <- policies :: RefOf(policies[p].policy) == p && ValidRecord(policies[p])
  }

  ghost predicate BindingsOk(policies: map<PolicyRef, PolicyRecord>, bindings: map<PolicyRef, Binding>) {
    forall p <- bindings :: bindings[p].policy == p && p in policies && Consistent(bindings[p])
  }

  ghost predicate RetirementsOk(bindings: map<PolicyRef, Binding>, retirements: map<PolicyRef, Retirement>) {
    forall p <- retirements :: retirements[p].policy == p && p in bindings && retirements[p].incident == bindings[p].incident
  }

  ghost predicate Wellformed(f: Files) {
    PoliciesOk(f.policies) && BindingsOk(f.policies, f.bindings) && RetirementsOk(f.bindings, f.retirements)
  }

  ghost predicate Within<K, V>(m: map<K, V>, later: map<K, V>) { forall k <- m :: k in later && later[k] == m[k] }

  /** Files are only ever added. */
  ghost predicate Extends(f: Files, later: Files) {
    Within(f.policies, later.policies) && Within(f.bindings, later.bindings) && Within(f.retirements, later.retirements)
  }

  // ---- The lifecycle of one policy version

  datatype Lifecycle = Unknown | Active | BoundToEvent | Retired

  function LifecycleOf(f: Files, p: PolicyRef): Lifecycle {
    if p in f.retirements then Retired else if p in f.bindings then BoundToEvent else if p in f.policies then Active else Unknown
  }

  function Order(l: Lifecycle): nat {
    match l { case Unknown => 0 case Active => 1 case BoundToEvent => 2 case Retired => 3 }
  }

  /** A policy never moves back, and what it was bound to never changes. */
  lemma LifecycleOnlyAdvances(f: Files, later: Files, p: PolicyRef)
    requires Extends(f, later)
    requires RetirementsOk(f.bindings, f.retirements) && RetirementsOk(later.bindings, later.retirements)
    ensures Order(LifecycleOf(f, p)) <= Order(LifecycleOf(later, p))
    ensures LifecycleOf(f, p) in {BoundToEvent, Retired} ==> later.bindings[p] == f.bindings[p]
    ensures LifecycleOf(later, p) == Retired ==> later.retirements[p].incident == later.bindings[p].incident
  {
  }

  // ---- Queries

  predicate IsAvailable(f: Files, p: PolicyRef, now: int) {
    && p in f.policies && f.policies[p].policy.enabled && f.policies[p].activatedAt <= now
    && p !in f.bindings && p !in f.retirements
  }

  predicate BoundTo(binding: Binding, event: Event) {
    binding.key == KeyOf(event) && binding.event.deliveryId == event.deliveryId && binding.event.body == event.body
  }

  /** Event type, repository and ref; the delivery does not matter. */
  predicate SameSource(binding: Binding, event: Event) {
    && binding.event.source.eventType == event.source.eventType
    && binding.event.source.repositoryId == event.source.repositoryId
    && binding.event.source.repository == event.source.repository
    && binding.event.source.ref == event.source.ref
  }

  predicate MetadataAgrees(record: PolicyRecord, binding: Binding) {
    record.registryIdentity == binding.registryIdentity && record.policy == binding.content
  }

  // ---- Binding

  datatype BindInput = BindInput(
    policy: Policy, event: Event, judgement: Judgement, incident: IncidentId, key: DedupeKey,
    registryIdentity: string, content: Policy)

  function IdentityOf(input: BindInput): BindingIdentity {
    BindingIdentity(RefOf(input.policy), input.registryIdentity, input.content, input.key, input.event, input.judgement, input.incident)
  }

  function BindingOf(input: BindInput): Binding {
    Binding(RefOf(input.policy), input.registryIdentity, input.content, input.key, input.event, IdentityOf(input), input.incident)
  }

  /** The registry's own record agrees with the verified event's policy and is active. */
  predicate RecordAdmits(record: PolicyRecord, input: BindInput, now: int) {
    && record.registryIdentity == input.registryIdentity && record.policy == input.content
    && input.policy == record.policy
    && record.policy.enabled && record.activatedAt <= now
  }

  /** What an existing binding is compared on. */
  predicate SameBinding(b: Binding, input: BindInput) {
    b.identity == IdentityOf(input) && b.key == input.key && b.incident == input.incident
  }

  datatype BindOutcome = Bound | AlreadyBound | Refused

  function BindResult(f: Files, input: BindInput, now: int): (Files, BindOutcome) {
    var p := RefOf(input.policy);
    if p !in f.policies || !RecordAdmits(f.policies[p], input, now) then (f, Refused)
    else if p in f.bindings then (f, if SameBinding(f.bindings[p], input) then Bound else AlreadyBound)
    else if p in f.retirements then (f, AlreadyBound)
    else (f.(bindings := f.bindings[p := BindingOf(input)]), Bound)
  }

  datatype RetireOutcome = RetiredNow(record: Retirement) | RetireRefused

  function RetireResult(f: Files, p: PolicyRef, incident: IncidentId): (Files, RetireOutcome) {
    if p !in f.policies then (f, RetireRefused)
    else if p !in f.bindings || f.bindings[p].incident != incident then (f, RetireRefused)
    else
      var value := Retirement(f.policies[p].registryIdentity, p, incident);
      if p in f.retirements then (f, if f.retirements[p] == value then RetiredNow(value) else RetireRefused)
      else (f.(retirements := f.retirements[p := value]), RetiredNow(value))
  }

  lemma AddBinding(f: Files, p: PolicyRef, b: Binding)
    requires Wellformed(f) && p in f.policies && p !in f.bindings && b.policy == p && Consistent(b)
    ensures Wellformed(f.(bindings := f.bindings[p := b])) && Extends(f, f.(bindings := f.bindings[p := b]))
  {
  }

  lemma AddRetirement(f: Files, p: PolicyRef, r: Retirement)
    requires Wellformed(f) && p in f.bindings && p !in f.retirements && r.policy == p && r.incident == f.bindings[p].incident
    ensures Wellformed(f.(retirements := f.retirements[p := r])) && Extends(f, f.(retirements := f.retirements[p := r]))
  {
  }

  /** Binding adds at most the one file of its policy, and that file is the input's. */
  lemma BindingExtends(f: Files, input: BindInput, now: int)
    requires Wellformed(f)
    ensures Wellformed(BindResult(f, input, now).0) && Extends(f, BindResult(f, input, now).0)
    ensures BindResult(f, input, now).1 == Bound ==> RefOf(input.policy) in BindResult(f, input, now).0.bindings
  {
    if BindResult(f, input, now).0 != f {
      AddBinding(f, RefOf(input.policy), BindingOf(input));
    }
  }

  /** One-shot: over a policy that is bound, no bind changes a file, and it succeeds only for
      the very event, judgement and incident of the existing binding. */
  lemma BindingIsOneShot(f: Files, input: BindInput, now: int)
    requires Wellformed(f) && RefOf(input.policy) in f.bindings
    ensures BindResult(f, input, now).0 == f
    ensures BindResult(f, input, now).1 == Bound ==> f.bindings[RefOf(input.policy)] == BindingOf(input)
  {
  }

  /** A policy is retired only for the incident it was bound to. */
  lemma RetirementNamesTheBoundIncident(f: Files, p: PolicyRef, incident: IncidentId)
    requires Wellformed(f)
    ensures Wellformed(RetireResult(f, p, incident).0) && Extends(f, RetireResult(f, p, incident).0)
    ensures RetireResult(f, p, incident).1.RetiredNow? ==>
              && LifecycleOf(RetireResult(f, p, incident).0, p) == Retired
              && p in f.bindings && f.bindings[p].incident == incident
    ensures RetireResult(f, p, incident).0 != f ==> LifecycleOf(f, p) == BoundToEvent
  {
    if RetireResult(f, p, incident).0 != f {
      AddRetirement(f, p, Retirement(f.policies[p].registryIdentity, p, incident));
    }
  }

  /** A policy version is bound exactly when the record on file is the one selected, enabled and
      active by now, and the version is free or bound to this very identity already. */
  lemma BindsExactly(f: Files, input: BindInput, now: int)
    ensures
      var p := PolicyRef(input.policy.id, input.policy.version);
      var agrees := p in f.policies && var record := f.policies[p];
                      && record.registryIdentity == input.registryIdentity && record.policy == input.content && input.policy == record.policy
                      && record.policy.enabled && record.activatedAt <= now;
      var identity := BindingIdentity(p, input.registryIdentity, input.content, input.key, input.event, input.judgement, input.incident);
      var (g, outcome) := BindResult(f, input, now);
      && (outcome == Refused <==> !agrees)
      && (outcome == Bound <==>
            agrees && if p in f.bindings then f.bindings[p].identity == identity && f.bindings[p].key == input.key && f.bindings[p].incident == input.incident
                      else p !in f.retirements)
      && (g == f || (outcome == Bound && p !in f.bindings && p !in f.retirements &&
                     g == f.(bindings := f.bindings[p := Binding(p, input.registryIdentity, input.content, input.key, input.event, identity, input.incident)])))
      && (outcome == Bound ==> p in g.bindings)
  {
  }

  /** A policy version is offered exactly while it is ACTIVE, enabled and activated by now. */
  lemma OffersExactly(f: Files, p: PolicyRef, now: int)
    requires Wellformed(f)
    ensures IsAvailable(f, p, now) <==> LifecycleOf(f, p) == Active && f.policies[p].policy.enabled && f.policies[p].activatedAt <= now
  {
  }

  /** A record is valid exactly for a live policy that names the registry's own identity, as its
      identity and as its evidence. */
  lemma RecordsAreExact(record: PolicyRecord)
    ensures ValidRecord(record) <==>
            && Valid(record.policy) && record.policy.provenance.value.live
            && record.registryIdentity == record.policy.registryIdentity == record.policy.provenance.value.evidence
  {
  }

  /** It is retired exactly for the incident it is bound to, and again only by the same record. */
  lemma RetiresExactly(f: Files, p: PolicyRef, incident: IncidentId)
    requires Wellformed(f)
    ensures
      var (g, outcome) := RetireResult(f, p, incident);
      && (outcome.RetiredNow? <==>
            p in f.bindings && f.bindings[p].incident == incident &&
            (p in f.retirements ==> f.retirements[p] == Retirement(f.policies[p].registryIdentity, p, incident)))
      && (outcome.RetiredNow? ==> p in g.retirements && g.retirements[p] == Retirement(f.policies[p].registryIdentity, p, incident))
      && (g == f || (outcome.RetiredNow? && p !in f.retirements && g == f.(retirements := f.retirements[p := outcome.record])))
  {
  }

  /** A binding is found again by the deliveries of its own event, and counts for a source by the
      event type, the repository and the ref. */
  lemma BindingsAreFound(input: BindInput, event: Event)
    requires input.key == KeyOf(input.event)
    ensures BoundTo(BindingOf(input), event) <==>
            && input.event.deliveryId == event.deliveryId && input.event.body == event.body
            && input.event.source.eventType == event.source.eventType && input.event.source.repositoryId == event.source.repositoryId
            && input.event.source.repository == event.source.repository
    ensures SameSource(BindingOf(input), event) <==> input.event.source == event.source.(provider := input.event.source.provider)
    ensures forall record: PolicyRecord ::
              MetadataAgrees(record, BindingOf(input)) <==> record.registryIdentity == input.registryIdentity && record.policy == input.content
  {
  }

  class PolicyRegistry {
    var files: Files

    constructor ()
      ensures files == Files(map[], map[], map[])
    {
      files := Files(map[], map[], map[]);
    }

    /** Exclusive creation of a policy version. */
    method Create(record: PolicyRecord) returns (ok: bool)
      requires Wellformed(files)
      modifies this`files
      ensures Wellformed(files) && Extends(old(files), files)
      ensures ok <==> ValidRecord(record) && RefOf(record.policy) !in old(files).policies
      ensures ok ==> files == old(files).(policies := old(files).policies[RefOf(record.policy) := record])
      ensures !ok ==> files == old(files)
    {
      if !ValidRecord(record) || RefOf(record.policy) in files.policies {
        return false;
      }
      files := files.(policies := files.policies[RefOf(record.policy) := record]);
      return true;
    }

    /** The loop of activePolicyRecords over the listed policy files. */
    method ActivePolicyRecords(listing: seq<PolicyRef>, now: int) returns (active: seq<PolicyRecord>)
      requires forall p <- listing :: p in files.policies
      ensures forall r :: r in active <==> exists p <- listing :: IsAvailable(files, p, now) && files.policies[p] == r
    {
      var unavailable := files.bindings.Keys + files.retirements.Keys;
      active := [];
      for i := 0 to |listing|
        invariant forall r :: r in active <==> exists j | 0 <= j < i :: IsAvailable(files, listing[j], now) && files.policies[listing[j]] == r
      {
        var record := files.policies[listing[i]];
        if record.policy.enabled && record.activatedAt <= now && listing[i] !in unavailable {
          active := active + [record];
        }
      }
    }

    /** boundPolicyForEvent: the policy a crashed attempt of this delivery was bound under;
        `ok` is false where the source throws. */
    method BoundPolicyForEvent(listing: seq<PolicyRef>, event: Event) returns (ok: bool, r: Option<PolicyRecord>)
      requires BindingsOk(files.policies, files.bindings)
      requires forall p <- listing :: p in files.bindings
      ensures r.Some? ==> ok && exists p <- listing :: BoundTo(files.bindings[p], event) && MetadataAgrees(files.policies[p], files.bindings[p]) && r.value == files.policies[p]
      ensures r.None? && ok ==> forall p <- listing :: !BoundTo(files.bindings[p], event)
      ensures !ok ==> r.None? && exists p <- listing :: BoundTo(files.bindings[p], event) && !MetadataAgrees(files.policies[p], files.bindings[p])
    {
      for i := 0 to |listing|
        invariant forall j | 0 <= j < i :: !BoundTo(files.bindings[listing[j]], event)
      {
        var binding := files.bindings[listing[i]];
        if BoundTo(binding, event) {
          var record := files.policies[listing[i]];
          if !MetadataAgrees(record, binding) {
            return false, None;
          }
          return true, Some(record);
        }
      }
      return true, None;
    }

    /** boundPolicyRecordsForEvent: every listed policy bound to an event of the same source;
        None where the source throws. */
    method BoundPolicyRecordsForEvent(listing: seq<PolicyRef>, event: Event) returns (r: Option<seq<PolicyRecord>>)
      requires BindingsOk(files.policies, files.bindings)
      requires forall p <- listing :: p in files.bindings
      ensures r.None? <==> exists p <- listing :: SameSource(files.bindings[p], event) && !MetadataAgrees(files.policies[p], files.bindings[p])
      ensures r.Some? ==> forall record :: record in r.value <==> exists p <- listing :: SameSource(files.bindings[p], event) && files.policies[p] == record
    {
      var result: seq<PolicyRecord> := [];
      for i := 0 to |listing|
        invariant forall j | 0 <= j < i :: SameSource(files.bindings[listing[j]], event) ==> MetadataAgrees(files.policies[listing[j]], files.bindings[listing[j]])
        invariant forall record :: record in result <==> exists j | 0 <= j < i :: SameSource(files.bindings[listing[j]], event) && files.policies[listing[j]] == record
      {
        var binding := files.bindings[listing[i]];
        if SameSource(binding, event) {
          var record := files.policies[listing[i]];
          if !MetadataAgrees(record, binding) {
            return None;
          }
          result := result + [record];
        }
      }
      return Some(result);
    }

    method BindVerifiedEvent(input: BindInput, now: int) returns (outcome: BindOutcome)
      requires Wellformed(files)
      modifies this`files
      ensures (files, outcome) == BindResult(old(files), input, now)
      ensures Wellformed(files) && Extends(old(files), files)
      ensures outcome == Bound ==> RefOf(input.policy) in files.bindings && files.bindings[RefOf(input.policy)] == BindingOf(input)
    {
      var p := RefOf(input.policy);
      if p !in files.policies || !RecordAdmits(files.policies[p], input, now) {
        return Refused;
      }
      if p in files.bindings {
        return if SameBinding(files.bindings[p], input) then Bound else AlreadyBound;
      }
      if p in files.retirements {
        return AlreadyBound;
      }
      BindingExtends(files, input, now);
      files := files.(bindings := files.bindings[p := BindingOf(input)]);
      return Bound;
    }

    method Retire(p: PolicyRef, incident: IncidentId) returns (outcome: RetireOutcome)
      requires Wellformed(files)
      modifies this`files
      ensures (files, outcome) == RetireResult(old(files), p, incident)
      ensures Wellformed(files) && Extends(old(files), files)
      ensures outcome.RetiredNow? ==> LifecycleOf(files, p) == Retired && files.bindings[p].incident == incident
    {
      if p !in files.policies || p !in files.bindings || files.bindings[p].incident != incident {
        return RetireRefused;
      }
      var value := Retirement(files.policies[p].registryIdentity, p, incident);
      if p in files.retirements {
        return if files.retirements[p] == value then RetiredNow(value) else RetireRefused;
      }
      RetirementNamesTheBoundIncident(files, p, incident);
      files := files.(retirements := files.retirements[p := value]);
      return RetiredNow(value);
    }
  }
}
