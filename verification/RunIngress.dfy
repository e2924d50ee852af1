/** `acceptWebhook` of winner/runtime/coordinator.ts and the processor of
    winner/c2/push-ingress.ts as the program they are; every call is proved to be the one the
    machine in PushIngress makes. */
module RunIngress {
  import opened Domain
  import opened PushPolicy
  import opened PushEvidence
  import opened R = PolicyRegistry
  import opened PushIngress
  import D = Dedupe
  import J = JobStore
  import T = PushIngressTrace
  import V = IngressConversation

  /** Every reply is the world's. */
  predicate AnsweredBy(log: seq<Exchange>, answer: (seq<Exchange>, IngressCall) -> IngressReply) {
    forall i | 0 <= i < |log| :: log[i].reply == answer(log[..i], log[i].call)
  }

  lemma AnswersOneMore(log: seq<Exchange>, answer: (seq<Exchange>, IngressCall) -> IngressReply, x: Exchange)
    requires AnsweredBy(log, answer) && x.reply == answer(log, x.call)
    ensures AnsweredBy(log + [x], answer)
  {
    var later := log + [x];
    assert later[..|log|] == log;
    assert forall i | 0 <= i < |log| :: later[..i] == log[..i];
  }

  class Delivery {
    const launch: Launch
    const answer: (seq<Exchange>, IngressCall) -> IngressReply
    var log: seq<Exchange>
    ghost var at: Ingress

    constructor (launch: Launch, answer: (seq<Exchange>, IngressCall) -> IngressReply)
      ensures this.launch == launch && this.answer == answer && log == [] && Following() && at == Launched(launch)
    {
      this.launch := launch;
      this.answer := answer;
      log := [];
      at := Launched(launch);
    }

    ghost predicate Following()
      reads `log, `at
    {
      && AnsweredBy(log, answer)
      && at.launch == launch && T.IsHistory(launch, log) && at == T.At(launch, log)
    }

    ghost predicate Stands(pc: Pc)
      reads `at
    {
      at == Ingress(launch, pc)
    }

    method Call(call: IngressCall) returns (reply: IngressReply)
      requires Following() && !at.pc.Ended? && CallOf(at) == call
      modifies this`log, this`at
      ensures Following() && at == Step(old(at), reply)
    {
      hide Step, CallOf, T.IsHistory, T.At, AnsweredBy;
      reply := answer(log, call);
      T.OneMore(launch, log, Exchange(call, reply));
      AnswersOneMore(log, answer, Exchange(call, reply));
      log := log + [Exchange(call, reply)];
      at := Step(at, reply);
    }

    /** The records offered to the lookup, with the policy a crashed attempt bound; None when
        a read throws. */
    method SelectRecords() returns (records: Option<seq<PolicyRecord>>, bound: bool)
      requires Following() && at == Launched(launch)
      modifies this`log, this`at
      ensures Following() && Stands(if records.Some? then Reserving(records.value, bound) else Ended(Failed))
    {
      hide T.IsHistory, T.At, OnReserved, OnObserved;
      bound := false;
      var found := Call(FindReceipt(KeyOf(launch.event)));
      if !found.FoundReceipt? {
        return None, false;
      }
      var existing := found.receipt;
      if existing.Some? && !existing.value.state.Reserved? {
        return Some([]), false;
      }
      var listed := Call(ListActive);
      if !listed.Records? {
        return None, false;
      }
      var active := listed.records;
      if existing.Some? {
        var candidate := Call(FindBound(launch.event));
        if !candidate.BoundRecord? {
          return None, false;
        }
        if candidate.record.Some? {
          return Some(AddNew(active, [candidate.record.value])), true;
        }
        return Some(active), false;
      }
      if CoversSource(active, launch.event) {
        return Some(active), false;
      }
      var more := Call(ListBound(launch.event));
      if !more.Records? {
        return None, false;
      }
      return Some(AddNew(active, more.records)), false;
    }

    /** finalizeDedupe with a refusal. */
    method Reject(hold: Hold, decision: D.Decision) returns (outcome: Outcome)
      requires Following() && Stands(Finalizing(hold, D.Refused(decision)))
      modifies this`log, this`at
      ensures Following() && Stands(Ended(outcome))
    {
      hide T.IsHistory, T.At, OnReserved, OnObserved;
      var finalized := Call(FinalizeReceipt(hold.reservation, D.Refused(decision), hold.recovering));
      return if finalized.Finalized? then Declined(decision) else Failed;
    }

    method CreateJobFor(frozen: J.Frozen, replayed: bool) returns (outcome: Outcome)
      requires Following() && Stands(CreatingJob(frozen, replayed))
      modifies this`log, this`at
      ensures Following() && Stands(Ended(outcome))
    {
      hide T.IsHistory, T.At, OnReserved, OnObserved;
      var created := Call(CreateJob(frozen));
      return if created.JobReady? then Accepted(frozen, replayed) else Failed;
    }

    method Accept(hold: Hold, input: BindInput) returns (outcome: Outcome)
      requires Following() && Stands(BindingPolicy(hold, input))
      modifies this`log, this`at
      ensures Following() && Stands(Ended(outcome))
    {
      hide T.IsHistory, T.At, OnReserved, OnObserved, AcceptanceOf, FrozenOf;
      var reply := Call(Bind(input));
      if !reply.BindReply? || reply.outcome == R.Refused {
        return Failed;
      }
      if reply.outcome == AlreadyBound {
        outcome := Reject(hold, D.PolicyAlreadyBound);
        return;
      }
      var acceptance := AcceptanceOf(input);
      var finalized := Call(FinalizeReceipt(hold.reservation, D.Accepted(acceptance), hold.recovering));
      if !finalized.Finalized? {
        return Failed;
      }
      outcome := CreateJobFor(FrozenOf(hold.reservation.receipt.key, acceptance), false);
    }

    /** The reads, the transition and the derivation, under a selected policy. */
    method Derive(hold: Hold, policy: Policy, record: PolicyRecord, plan: ReadPlan) returns (outcome: Outcome)
      requires Following() && Stands(ReadingSource(hold, policy, record, plan))
      modifies this`log, this`at
      ensures Following() && Stands(Ended(outcome))
    {
      hide T.IsHistory, T.At, OnReserved, JudgeTransition, PushEvidence.Derive;
      var observed := Call(ReadSource(plan));
      if !observed.Observed? {
        outcome := Reject(hold, D.Rejected);
        return;
      }
      var judgement := JudgeTransition(observed.before, observed.after, policy, plan);
      if judgement.transition != CausalSecretIntroduced {
        outcome := Reject(hold, D.TransitionRejected);
        return;
      }
      var request := PushEvidence.Derive(launch.event, policy, judgement);
      if request.None? {
        outcome := Reject(hold, D.Rejected);
        return;
      }
      var input := BindInput(policy, launch.event, judgement, request.value.incident, hold.reservation.receipt.key, record.registryIdentity, record.policy);
      outcome := Accept(hold, input);
    }

    /** From the lookup on, holding a reservation. */
    method Authorize(hold: Hold, records: seq<PolicyRecord>) returns (outcome: Outcome)
      requires Following() && at == Choose(Ingress(launch, at.pc), records, hold)
      modifies this`log, this`at
      ensures Following() && Stands(Ended(outcome))
    {
      hide T.IsHistory, T.At, Step, CallOf, Following, Select, PlanReads, RecordFor, PoliciesOf;
      var lookup := LookupPreExistingPushPolicy(launch.event, PoliciesOf(records), {});
      match lookup {
        case NoMatch => outcome := Reject(hold, D.NoMatchingPolicy);
        case Ambiguous => outcome := Reject(hold, D.PolicyAmbiguous);
        case Disabled(_) => outcome := Reject(hold, D.PolicyDisabled);
        case Match(policy) =>
          match PlanReads(launch.event, policy) {
            case NotEligible => outcome := Reject(hold, D.NotAuthorityEligible);
            case PolicyMismatch => outcome := Reject(hold, D.Rejected);
            case Plan(plan) =>
              match RecordFor(records, policy) {
                case None => outcome := Reject(hold, D.Rejected);
                case Some(record) => outcome := Derive(hold, policy, record, plan);
              }
          }
      }
    }

    method Process(records: seq<PolicyRecord>, bound: bool) returns (outcome: Outcome)
      requires Following() && Stands(Reserving(records, bound))
      modifies this`log, this`at
      ensures Following() && Stands(Ended(outcome))
    {
      hide T.IsHistory, T.At, OnObserved, Choose, ReceiptReplays, FrozenOf;
      var reply := Call(ReserveReceipt(launch.event, launch.nonce));
      if !reply.ReservedAs? {
        return Failed;
      }
      var reservation := reply.reservation;
      var duplicate := reservation.status == D.DuplicateSame;
      if reservation.status == D.Conflict {
        return ConflictingPayload;
      }
      if duplicate && reservation.receipt.state.Accepted? {
        if !ReceiptReplays(reservation.receipt, launch.event) {
          return Declined(D.Rejected);
        }
        outcome := CreateJobFor(FrozenOf(reservation.receipt.key, reservation.receipt.state.acceptance), true);
        return;
      }
      if duplicate && reservation.receipt.state.Refused? {
        return Declined(D.Rejected);
      }
      var recovering := duplicate && (reply.due || bound);
      if duplicate && !recovering {
        return Unresolved;
      }
      ChoiceIgnoresPc(Ingress(launch, Reserving(records, bound)), at.pc, records, Hold(reservation, recovering));
      outcome := Authorize(Hold(reservation, recovering), records);
    }
  }

  lemma ChoiceIgnoresPc(p: Ingress, pc: Pc, records: seq<PolicyRecord>, hold: Hold)
    ensures Choose(p, records, hold) == Choose(p.(pc := pc), records, hold)
  {
  }

  /** One delivery, whatever the stores and the source reader answer: its calls are a finished
      history of the machine, which the outcome sums up. */
  method AcceptWebhook(launch: Launch, answer: (seq<Exchange>, IngressCall) -> IngressReply) returns (log: seq<Exchange>, outcome: Outcome)
    ensures T.IsHistory(launch, log) && T.At(launch, log).pc == Ended(outcome)
    ensures AnsweredBy(log, answer) && V.CallsAreDue(launch, log) && V.Concludes(launch, log, outcome)
  {
    hide T.IsHistory, T.At, V.CallsAreDue, V.Concludes, CallOf, Step;
    var delivery := new Delivery(launch, answer);
    var records, bound := delivery.SelectRecords();
    if records.None? {
      outcome := Failed;
    } else {
      outcome := delivery.Process(records.value, bound);
    }
    log := delivery.log;
    assert delivery.Following() && delivery.answer == answer && delivery.launch == launch;
    V.EveryCallIsDue(launch, log);
    V.EndsAsHeard(launch, log);
  }
}
