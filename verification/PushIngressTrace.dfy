/** What every processing of a delivery does, whatever the receipt store, the registry and
    the source reader answer. */
module PushIngressTrace {
  import opened Domain
  import opened PushPolicy
  import opened PushEvidence
  import opened R = PolicyRegistry
  import opened PushIngress
  import D = Dedupe

  type History = seq<Exchange>

  function At(l: Launch, h: History): (p: Ingress)
    ensures p.launch == l
    decreases |h|
  {
    if h == [] then Launched(l)
    else
      var p := At(l, h[..|h| - 1]);
      if p.pc.Ended? then p else Step(p, h[|h| - 1].reply)
  }

  ghost predicate IsHistory(l: Launch, h: History)
    decreases |h|
  {
    h == [] ||
    (&& IsHistory(l, h[..|h| - 1])
     && !At(l, h[..|h| - 1]).pc.Ended?
     && h[|h| - 1].call == CallOf(At(l, h[..|h| - 1])))
  }

  lemma {:induction false} PrefixIsHistory(l: Launch, h: History, n: nat)
    requires IsHistory(l, h) && n <= |h|
    ensures IsHistory(l, h[..n])
    ensures n < |h| ==> !At(l, h[..n]).pc.Ended? && h[n].call == CallOf(At(l, h[..n]))
    decreases |h|
  {
    hide Step, CallOf;
    if n == |h| {
      assert h[..n] == h;
    } else {
      assert h[..|h| - 1][..n] == h[..n];
      PrefixIsHistory(l, h[..|h| - 1], n);
    }
  }

  /** The call number `n` of a processing, answered or still under way. */
  ghost predicate Issues(l: Launch, h: History, n: nat, call: IngressCall) {
    n <= |h| && !At(l, h[..n]).pc.Ended? && CallOf(At(l, h[..n])) == call
  }

  /** One more exchange. */
  lemma OneMore(l: Launch, h: History, x: Exchange)
    requires IsHistory(l, h) && !At(l, h).pc.Ended? && x.call == CallOf(At(l, h))
    ensures IsHistory(l, h + [x]) && At(l, h + [x]) == Step(At(l, h), x.reply)
  {
    hide Step, CallOf;
    assert (h + [x])[..|h + [x]| - 1] == h;
  }

  // ---- Monitor

  /** Source reads, binds and finalizations derive authority; a replay does none of them. */
  predicate Derives(call: IngressCall) { call.ReadSource? || call.Bind? || call.FinalizeReceipt? }

  function RecordsIn(r: IngressReply): set<PolicyRecord> {
    if r.Records? then set x <- r.records
    else if r.BoundRecord? && r.record.Some? then {r.record.value}
    else {}
  }

  datatype Reading = Reading(plan: ReadPlan, before: Observation, after: Observation)

  /** `listed`: policy records the registry returned; `reading`: the last source read;
      `bound`: the last input that was bound. */
  datatype Watch = Watch(
    listed: set<PolicyRecord>, reserved: Option<D.Reservation>, reading: Option<Reading>, bound: Option<BindInput>, derived: bool)

  function Observe(w: Watch, x: Exchange): Watch {
    Watch(
      w.listed + RecordsIn(x.reply),
      if x.call.ReserveReceipt? && x.reply.ReservedAs? then Some(x.reply.reservation) else w.reserved,
      if x.call.ReadSource? && x.reply.Observed? then Some(Reading(x.call.plan, x.reply.before, x.reply.after)) else w.reading,
      if x.call.Bind? && x.reply == BindReply(Bound) then Some(x.call.input) else w.bound,
      w.derived || Derives(x.call))
  }

  function Watching(h: History): Watch {
    if h == [] then Watch({}, None, None, None, false) else Observe(Watching(h[..|h| - 1]), h[|h| - 1])
  }

  ghost predicate AllListed(records: seq<PolicyRecord>, w: Watch) { forall r <- records :: r in w.listed }

  /** The policy comes from one listed record and the metadata from one of the same version. */
  ghost predicate Chosen(policy: Policy, record: PolicyRecord, w: Watch) {
    && record in w.listed && RefOf(record.policy) == RefOf(policy)
    && exists r <- w.listed :: r.policy == policy
  }

  /** The bind input follows from what was read at exactly this event's commits. */
  ghost predicate Grounded(input: BindInput, event: Event, w: Watch) {
    && w.reading.Some?
    && PlanReads(event, input.policy) == Plan(w.reading.value.plan)
    && input.judgement == JudgeTransition(w.reading.value.before, w.reading.value.after, input.policy, w.reading.value.plan)
    && input.judgement.transition == CausalSecretIntroduced
    && input.event == event && input.incident == IncidentOf(event, input.policy)
    && Derive(event, input.policy, input.judgement) == Some(CreateRequestOf(event, input.policy))
    && exists record: PolicyRecord :: Chosen(input.policy, record, w) && input.registryIdentity == record.registryIdentity && input.content == record.policy
  }

  ghost predicate Holds(hold: Hold, w: Watch) { w.reserved == Some(hold.reservation) && !hold.reservation.status.Conflict? }

  ghost predicate Agrees(p: Ingress, w: Watch) {
    match p.pc {
      case Finding | ListingActive(_) => w.reserved.None? && !w.derived
      case FindingBound(active) => AllListed(active, w) && w.reserved.None? && !w.derived
      case ListingBound(active) => AllListed(active, w) && w.reserved.None? && !w.derived
      case Reserving(records, _) => AllListed(records, w) && w.reserved.None? && !w.derived
      case ReadingSource(hold, policy, record, plan) =>
        Holds(hold, w) && Chosen(policy, record, w) && PlanReads(p.launch.event, policy) == Plan(plan)
      case BindingPolicy(hold, input) =>
        Holds(hold, w) && Grounded(input, p.launch.event, w) && input.key == hold.reservation.receipt.key
      case Finalizing(hold, next) =>
        && Holds(hold, w) && !next.Reserved?
        && (next.Accepted? ==>
              && w.bound.Some? && Grounded(w.bound.value, p.launch.event, w)
              && w.bound.value.key == hold.reservation.receipt.key && next.acceptance == AcceptanceOf(w.bound.value))
      case CreatingJob(frozen, replayed) =>
        replayed ==> !w.derived && w.reserved.Some? && ReceiptReplays(w.reserved.value.receipt, p.launch.event) &&
                     frozen == FrozenOf(w.reserved.value.receipt.key, w.reserved.value.receipt.state.acceptance)
      case Ended(outcome) =>
        outcome.Accepted? && outcome.replayed ==>
          !w.derived && w.reserved.Some? && ReceiptReplays(w.reserved.value.receipt, p.launch.event) &&
          outcome.frozen == FrozenOf(w.reserved.value.receipt.key, w.reserved.value.receipt.state.acceptance)
    }
  }

  lemma {:induction false} AddNewAdds(records: seq<PolicyRecord>, more: seq<PolicyRecord>)
    ensures forall r <- AddNew(records, more) :: r in records || r in more
    decreases |more|
  {
    if more != [] {
      AddNewAdds(if Offers(records, more[0]) then records else records + [more[0]], more[1..]);
    }
  }

  lemma {:induction false} RecordForFinds(records: seq<PolicyRecord>, policy: Policy)
    ensures RecordFor(records, policy).Some? ==>
              RecordFor(records, policy).value in records && RefOf(RecordFor(records, policy).value.policy) == RefOf(policy)
  {
    if records != [] {
      RecordForFinds(records[1..], policy);
    }
  }

  lemma AgreesAfterChoice(p: Ingress, records: seq<PolicyRecord>, hold: Hold, w: Watch)
    requires AllListed(records, w) && Holds(hold, w)
    ensures Agrees(Choose(p, records, hold), w)
  {
    var selected := Select(p.launch.event, PoliciesOf(records), {});
    if selected.Match? {
      SelectionIsUsable(p.launch.event, PoliciesOf(records), {});
      var i :| 0 <= i < |records| && records[i].policy == selected.policy;
      RecordForFinds(records, selected.policy);
      assert records[i] in w.listed;
    }
  }

  lemma AgreesAfterReplay(p: Ingress, receipt: D.Receipt, w: Watch)
    requires !w.derived && w.reserved.Some? && w.reserved.value.receipt == receipt
    ensures Agrees(Replay(p, receipt), w)
  {
  }

  lemma AgreesAfterReserve(p: Ingress, w: Watch, r: IngressReply)
    requires p.pc.Reserving? && Agrees(p, w)
    ensures Agrees(Step(p, r), Observe(w, Exchange(CallOf(p), r)))
  {
    var w' := Observe(w, Exchange(CallOf(p), r));
    if r.ReservedAs? {
      var recovering := r.reservation.status == D.DuplicateSame && (r.due || p.pc.bound);
      assert w'.listed == w.listed;
      assert AllListed(p.pc.records, w');
      AgreesAfterReplay(p, r.reservation.receipt, w');
      if !r.reservation.status.Conflict? {
        AgreesAfterChoice(p, p.pc.records, Hold(r.reservation, recovering), w');
      }
    }
  }

  lemma AgreesAfterRead(p: Ingress, w: Watch, r: IngressReply)
    requires p.pc.ReadingSource? && Agrees(p, w)
    ensures Agrees(Step(p, r), Observe(w, Exchange(CallOf(p), r)))
  {
    var w' := Observe(w, Exchange(CallOf(p), r));
    assert Chosen(p.pc.policy, p.pc.record, w');
  }

  lemma AgreesWhileListing(p: Ingress, w: Watch, r: IngressReply)
    requires (p.pc.Finding? || p.pc.ListingActive? || p.pc.FindingBound? || p.pc.ListingBound?) && Agrees(p, w)
    ensures Agrees(Step(p, r), Observe(w, Exchange(CallOf(p), r)))
  {
    if p.pc.FindingBound? && r.BoundRecord? && r.record.Some? {
      AddNewAdds(p.pc.active, [r.record.value]);
    } else if p.pc.ListingBound? && r.Records? {
      AddNewAdds(p.pc.active, r.records);
    }
  }

  lemma AgreesAfterBind(p: Ingress, w: Watch, r: IngressReply)
    requires p.pc.BindingPolicy? && Agrees(p, w)
    ensures Agrees(Step(p, r), Observe(w, Exchange(CallOf(p), r)))
  {
    assert Grounded(p.pc.input, p.launch.event, Observe(w, Exchange(CallOf(p), r)));
  }

  lemma AgreesWhileFinishing(p: Ingress, w: Watch, r: IngressReply)
    requires (p.pc.Finalizing? || p.pc.CreatingJob?) && Agrees(p, w)
    ensures Agrees(Step(p, r), Observe(w, Exchange(CallOf(p), r)))
  {
  }

  lemma AgreesStep(p: Ingress, w: Watch, r: IngressReply)
    requires !p.pc.Ended? && Agrees(p, w)
    ensures Agrees(Step(p, r), Observe(w, Exchange(CallOf(p), r)))
  {
    match p.pc {
      case Finding | ListingActive(_) | FindingBound(_) | ListingBound(_) => AgreesWhileListing(p, w, r);
      case Reserving(_, _) => AgreesAfterReserve(p, w, r);
      case ReadingSource(_, _, _, _) => AgreesAfterRead(p, w, r);
      case BindingPolicy(_, _) => AgreesAfterBind(p, w, r);
      case Finalizing(_, _) | CreatingJob(_, _) => AgreesWhileFinishing(p, w, r);
    }
  }

  lemma {:induction false} AgreesAlways(l: Launch, h: History)
    requires IsHistory(l, h)
    ensures Agrees(At(l, h), Watching(h))
    decreases |h|
  {
    if h != [] {
      AgreesAlways(l, h[..|h| - 1]);
      AgreesStep(At(l, h[..|h| - 1]), Watching(h[..|h| - 1]), h[|h| - 1].reply);
    }
  }

  // ---- What the monitor says, in terms of the exchanges themselves

  ghost predicate Seen(h: History, p: Exchange -> bool) { exists i | 0 <= i < |h| :: p(h[i]) }

  lemma {:induction false} WatchedReplies(h: History)
    ensures Watching(h).reserved.Some? ==>
              Seen(h, (x: Exchange) => x.call.ReserveReceipt? && x.reply.ReservedAs? && x.reply.reservation == Watching(h).reserved.value)
    ensures Watching(h).reading.Some? ==>
              Seen(h, (x: Exchange) => x.call == ReadSource(Watching(h).reading.value.plan)
                           && x.reply == Observed(Watching(h).reading.value.before, Watching(h).reading.value.after))
    ensures Watching(h).bound.Some? ==> Seen(h, (x: Exchange) => x == Exchange(Bind(Watching(h).bound.value), BindReply(Bound)))
    ensures forall record <- Watching(h).listed :: Seen(h, (x: Exchange) => record in RecordsIn(x.reply))
    ensures !Watching(h).derived ==> forall i | 0 <= i < |h| :: !Derives(h[i].call)
    decreases |h|
  {
    if h != [] {
      var prior := h[..|h| - 1];
      WatchedReplies(prior);
      assert forall p: Exchange -> bool :: Seen(prior, p) || p(h[|h| - 1]) ==> Seen(h, p);
    }
  }

  // ---- The two promises of push-ingress.ts

  /** A receipt is accepted only for an input that was bound, whose two reads at exactly the
      event's BEFORE and AFTER commits of the configured file showed the policy's secret
      introduced, under a policy the registry itself listed; and the acceptance, with its
      incident and create request, is a function of that input. */
  lemma AcceptanceIsGrounded(l: Launch, h: History)
    requires IsHistory(l, h) && !At(l, h).pc.Ended? && CallOf(At(l, h)).FinalizeReceipt? && CallOf(At(l, h)).next.Accepted?
    ensures
      var w := Watching(h);
      && w.bound.Some? && w.reading.Some?
      && CallOf(At(l, h)).next.acceptance == AcceptanceOf(w.bound.value)
      && w.bound.value.event == l.event && w.bound.value.incident == IncidentOf(l.event, w.bound.value.policy)
      && w.reading.value.plan == ReadPlan(PUSH_REPOSITORY, l.event.body.before, l.event.body.after, SECRET_PATH)
      && SecretIntroduced(w.reading.value.before, w.reading.value.after, w.bound.value.policy, w.reading.value.plan)
      && Usable(w.bound.value.policy, l.event, {})
      && Seen(h, (x: Exchange) => x == Exchange(Bind(w.bound.value), BindReply(Bound)))
      && Seen(h, (x: Exchange) => x.call == ReadSource(w.reading.value.plan) && x.reply == Observed(w.reading.value.before, w.reading.value.after))
      && exists record: PolicyRecord :: record.policy == w.bound.value.policy && Seen(h, (x: Exchange) => record in RecordsIn(x.reply))
  {
    AgreesAlways(l, h);
    WatchedReplies(h);
    var w := Watching(h);
    PlansAreImmutable(l.event, w.bound.value.policy);
    CausalMeansIntroduced(w.reading.value.before, w.reading.value.after, w.bound.value.policy, w.reading.value.plan);
  }

  /** A delivery whose receipt is already accepted is answered from that receipt alone: the
      same incident and create request, with no source read, no bind and no finalization. */
  lemma ReplayIsFrozen(l: Launch, h: History, i: nat)
    requires IsHistory(l, h) && i < |h|
    requires h[i].call.ReserveReceipt? && h[i].reply.ReservedAs? && h[i].reply.reservation.status == D.DuplicateSame
    requires ReceiptReplays(h[i].reply.reservation.receipt, l.event)
    ensures forall j | 0 <= j < |h| :: !Derives(h[j].call)
    ensures At(l, h).pc.Ended? && At(l, h).pc.outcome.Accepted? ==>
              var receipt := h[i].reply.reservation.receipt;
              At(l, h).pc.outcome == Accepted(FrozenOf(receipt.key, receipt.state.acceptance), true)
    ensures !At(l, h).pc.Ended? ==>
              var receipt := h[i].reply.reservation.receipt;
              CallOf(At(l, h)) == CreateJob(FrozenOf(receipt.key, receipt.state.acceptance))
  {
    ReplayContinues(l, h, i);
    AgreesAlways(l, h);
    WatchedReplies(h);
  }

  ghost predicate Replaying(p: Ingress, receipt: D.Receipt) {
    receipt.state.Accepted? &&
    var frozen := FrozenOf(receipt.key, receipt.state.acceptance);
    p.pc == CreatingJob(frozen, true) || p.pc == Ended(Accepted(frozen, true)) || p.pc == Ended(Failed)
  }

  lemma {:induction false} ReplayContinues(l: Launch, h: History, i: nat)
    requires IsHistory(l, h) && i < |h|
    requires h[i].call.ReserveReceipt? && h[i].reply.ReservedAs? && h[i].reply.reservation.status == D.DuplicateSame
    requires ReceiptReplays(h[i].reply.reservation.receipt, l.event)
    ensures Replaying(At(l, h), h[i].reply.reservation.receipt) && !Watching(h).derived
    decreases |h|
  {
    var prior := h[..|h| - 1];
    if i < |h| - 1 {
      ReplayContinues(l, prior, i);
    } else {
      AgreesAlways(l, prior);
    }
  }

  /** Whatever this delivery was told of its reservation, it is this receipt. */
  predicate ToldOf(x: Exchange, receipt: D.Receipt) {
    x.call.ReserveReceipt? && x.reply.ReservedAs? ==> x.reply.reservation == D.Reservation(D.DuplicateSame, receipt)
  }

  predicate BeforeReservation(p: Ingress) { p.pc.Finding? || p.pc.ListingActive? || p.pc.FindingBound? || p.pc.ListingBound? || p.pc.Reserving? }

  lemma TellsStep(p: Ingress, r: IngressReply, receipt: D.Receipt)
    requires !p.pc.Ended? && ReceiptReplays(receipt, p.launch.event) && ToldOf(Exchange(CallOf(p), r), receipt)
    requires BeforeReservation(p) || Replaying(p, receipt)
    ensures BeforeReservation(Step(p, r)) || Replaying(Step(p, r), receipt)
  {
  }

  lemma {:induction false} OnlyReplays(l: Launch, h: History, receipt: D.Receipt)
    requires IsHistory(l, h) && ReceiptReplays(receipt, l.event) && forall x <- h :: ToldOf(x, receipt)
    ensures BeforeReservation(At(l, h)) || Replaying(At(l, h), receipt)
    decreases |h|
  {
    hide Step, CallOf, ReceiptReplays, Replaying, BeforeReservation, ToldOf;
    if h != [] {
      var prior := h[..|h| - 1];
      assert forall x <- prior :: x in h;
      OnlyReplays(l, prior, receipt);
      assert h[|h| - 1] in h;
      TellsStep(At(l, prior), h[|h| - 1].reply, receipt);
    } else {
      FreshIsBefore(l);
    }
  }

  lemma FreshIsBefore(l: Launch)
    ensures BeforeReservation(Launched(l))
  {
  }

  /** A delivery that is only ever told of an accepted receipt derives nothing, and ends with
      what that receipt froze or fails. */
  lemma ToldIsReplayed(l: Launch, h: History, receipt: D.Receipt, n: nat, call: IngressCall)
    requires IsHistory(l, h) && ReceiptReplays(receipt, l.event) && forall x <- h :: ToldOf(x, receipt)
    ensures Issues(l, h, n, call) ==> !Derives(call)
    ensures At(l, h).pc.Ended? ==>
              || At(l, h).pc.outcome == Accepted(FrozenOf(receipt.key, receipt.state.acceptance), true)
              || At(l, h).pc.outcome == Failed
  {
    hide Step, ReceiptReplays, ToldOf, IsHistory;
    OnlyReplays(l, h, receipt);
    if Issues(l, h, n, call) {
      PrefixIsHistory(l, h, n);
      assert forall x <- h[..n] :: x in h;
      OnlyReplays(l, h[..n], receipt);
    }
  }

  /** A job is created only for a receipt this processing finalized as accepted or was handed
      accepted, and it freezes that receipt. */
  lemma JobsComeFromReceipts(l: Launch, h: History)
    requires IsHistory(l, h) && !At(l, h).pc.Ended? && CallOf(At(l, h)).CreateJob?
    ensures h != []
    ensures
      var x := h[|h| - 1];
      var frozen := CallOf(At(l, h)).frozen;
      || (x.call.FinalizeReceipt? && x.reply.Finalized? && x.call.next.Accepted?
          && frozen == FrozenOf(x.call.reservation.receipt.key, x.call.next.acceptance))
      || (x.call.ReserveReceipt? && x.reply.ReservedAs? && !x.reply.reservation.status.Conflict?
          && x.reply.reservation.receipt.state.Accepted?
          && frozen == FrozenOf(x.reply.reservation.receipt.key, x.reply.reservation.receipt.state.acceptance))
  {
    var prior := At(l, h[..|h| - 1]);
    if prior.pc.Reserving? {
      ChoiceCreatesNothing(prior, h[|h| - 1].reply);
    }
  }

  lemma ChoiceCreatesNothing(p: Ingress, r: IngressReply)
    requires p.pc.Reserving? && Step(p, r).pc.CreatingJob?
    ensures r.ReservedAs? && r.reservation.status == D.DuplicateSame && r.reservation.receipt.state.Accepted?
    ensures Step(p, r).pc.frozen == FrozenOf(r.reservation.receipt.key, r.reservation.receipt.state.acceptance)
  {
  }

  /** Whatever is bound was read at exactly this event's commits, under this delivery's key. */
  lemma BindIsGrounded(l: Launch, h: History)
    requires IsHistory(l, h) && !At(l, h).pc.Ended? && CallOf(At(l, h)).Bind?
    ensures
      var input := CallOf(At(l, h)).input;
      var w := Watching(h);
      && w.reading.Some? && w.reserved.Some? && !w.reserved.value.status.Conflict?
      && input.event == l.event && input.incident == IncidentOf(l.event, input.policy)
      && input.key == w.reserved.value.receipt.key
      && w.reading.value.plan == ReadPlan(PUSH_REPOSITORY, l.event.body.before, l.event.body.after, SECRET_PATH)
      && SecretIntroduced(w.reading.value.before, w.reading.value.after, input.policy, w.reading.value.plan)
      && Seen(h, (x: Exchange) => x.call.ReserveReceipt? && x.reply.ReservedAs? && x.reply.reservation == w.reserved.value)
      && Seen(h, (x: Exchange) => x.call == ReadSource(w.reading.value.plan) && x.reply == Observed(w.reading.value.before, w.reading.value.after))
  {
    AgreesAlways(l, h);
    WatchedReplies(h);
    var w := Watching(h);
    var input := CallOf(At(l, h)).input;
    PlansAreImmutable(l.event, input.policy);
    CausalMeansIntroduced(w.reading.value.before, w.reading.value.after, input.policy, w.reading.value.plan);
  }

  /** A finalization is of the reservation this processing holds, never back to RESERVED. */
  lemma FinalizesItsOwn(l: Launch, h: History)
    requires IsHistory(l, h) && !At(l, h).pc.Ended? && CallOf(At(l, h)).FinalizeReceipt?
    ensures !CallOf(At(l, h)).next.Reserved?
    ensures CallOf(At(l, h)).next.Accepted? ==>
              var w := Watching(h);
              w.bound.Some? && w.bound.value.key == CallOf(At(l, h)).reservation.receipt.key
  {
    AgreesAlways(l, h);
  }

  /** Receipts are reserved for the delivered event only. */
  lemma OnlyOwnEvent(l: Launch, h: History)
    requires IsHistory(l, h) && !At(l, h).pc.Ended?
    ensures CallOf(At(l, h)).ReserveReceipt? ==> CallOf(At(l, h)) == ReserveReceipt(l.event, l.nonce)
  {
  }

  lemma HoldsItsReservation(l: Launch, h: History)
    requires IsHistory(l, h) && !At(l, h).pc.Ended? && CallOf(At(l, h)).FinalizeReceipt?
    ensures Watching(h).reserved == Some(CallOf(At(l, h)).reservation) && !CallOf(At(l, h)).reservation.status.Conflict?
  {
    AgreesAlways(l, h);
  }
}
