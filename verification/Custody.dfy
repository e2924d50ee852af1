/** How authority is handed on: binding, receipt, job and C1 incident each rest on the one
    before, in every reachable state. */
module Custody {
  import opened Domain
  import opened C1 = C1Contract
  import opened BrokerLogic
  import opened System
  import E = PushEvidence
  import R = PolicyRegistry
  import D = Dedupe
  import J = JobStore
  import P = PushPolicy
  import PI = PushIngress
  import PIT = PushIngressTrace

  // ---- What only grows

  ghost predicate Evolves(st: Stores, st': Stores) {
    R.Extends(st.files, st'.files) && D.Preserves(st.receipts, st'.receipts) && J.Persists(st.jobs, st'.jobs)
  }

  lemma EvolvesReflexively(st: Stores)
    ensures Evolves(st, st)
  {
  }

  lemma EvolvesTransitively(a: Stores, b: Stores, c: Stores)
    requires Evolves(a, b) && Evolves(b, c)
    ensures Evolves(a, c)
  {
  }

  // ---- The chain

  predicate BindingBacked(record: R.PolicyRecord, b: R.Binding) {
    && b.content == record.policy && b.registryIdentity == record.registryIdentity
    && b.policy == P.RefOf(b.content) && b.key == KeyOf(b.event) && b.event.source == PUSH_SOURCE
    && b.incident == E.IncidentOf(b.event, b.content)
  }

  ghost predicate BindingsBacked(files: R.Files) {
    forall p <- files.bindings :: p in files.policies && BindingBacked(files.policies[p], files.bindings[p])
  }

  /** The acceptance is exactly what the binding of its policy version says. */
  predicate AcceptedUnder(b: R.Binding, receipt: D.Receipt)
    requires receipt.state.Accepted?
  {
    var a := receipt.state.acceptance;
    && a.policy == b.policy && a.registryIdentity == b.registryIdentity && a.content == b.content
    && a.identity == b.identity && a.incident == b.incident && a.title == b.content.title
    && a.request == E.CreateRequestOf(b.event, b.content)
    && b.key == receipt.key && b.event.body == receipt.event.body
  }

  ghost predicate ReceiptBacked(files: R.Files, k: DedupeKey, receipt: D.Receipt) {
    && receipt.key == k && KeyOf(receipt.event) == k && receipt.event.source == PUSH_SOURCE
    && (receipt.state.Accepted? ==>
          receipt.state.acceptance.policy in files.bindings && AcceptedUnder(files.bindings[receipt.state.acceptance.policy], receipt))
  }

  ghost predicate ReceiptsBacked(files: R.Files, receipts: D.Receipts) {
    forall k <- receipts :: ReceiptBacked(files, k, receipts[k])
  }

  ghost predicate FrozenBacked(receipts: D.Receipts, frozen: J.Frozen) {
    && frozen.receiptKey in receipts && receipts[frozen.receiptKey].state.Accepted?
    && frozen == PI.FrozenOf(frozen.receiptKey, receipts[frozen.receiptKey].state.acceptance)
  }

  ghost predicate JobsBacked(receipts: D.Receipts, jobs: J.Jobs) {
    forall i <- jobs :: jobs[i].frozen.incident == i && FrozenBacked(receipts, jobs[i].frozen)
  }

  ghost predicate LedgerBacked(jobs: J.Jobs, c1: Ledger) {
    forall i <- c1 :: i in jobs && c1[i].request == jobs[i].frozen.request
  }

  ghost predicate StoresOk(st: Stores) {
    R.Wellformed(st.files) && BindingsBacked(st.files) && ReceiptsBacked(st.files, st.receipts) && JobsBacked(st.receipts, st.jobs)
  }

  // ---- What an ingress was told stays true

  ghost predicate KeptReservation(receipts: D.Receipts, event: Event, reservation: D.Reservation) {
    var r := reservation.receipt;
    && r.key == KeyOf(event) && r.key in receipts && receipts[r.key].event == r.event
    && (!reservation.status.Conflict? ==> r.event.body == event.body)
    && (!r.state.Reserved? ==> receipts[r.key] == r)
  }

  ghost predicate IngressFact(st: Stores, x: PI.Exchange) {
    match x.call {
      case Bind(input) =>
        x.reply == PI.BindReply(R.Bound) ==>
          P.RefOf(input.policy) in st.files.bindings && st.files.bindings[P.RefOf(input.policy)] == R.BindingOf(input)
          && input.content == input.policy
      case ReserveReceipt(event, _) => x.reply.ReservedAs? ==> KeptReservation(st.receipts, event, x.reply.reservation)
      case FinalizeReceipt(reservation, next, _) =>
        x.reply.Finalized? && !next.Reserved? ==>
          reservation.receipt.key in st.receipts && st.receipts[reservation.receipt.key].state == next
      case _ => true
    }
  }

  lemma IngressFactStays(st: Stores, st': Stores, x: PI.Exchange)
    requires IngressFact(st, x) && Evolves(st, st')
    ensures IngressFact(st', x)
  {
  }

  ghost predicate IngressOk(st: Stores, nonce: Nonce, run: IngressRun) {
    && run.launch.nonce == nonce && run.launch.event.source == PUSH_SOURCE
    && PIT.IsHistory(run.launch, run.log)
    && forall x <- run.log :: IngressFact(st, x)
  }

  ghost predicate IngressesOk(st: Stores, runs: map<Nonce, IngressRun>) {
    forall n <- runs :: IngressOk(st, n, runs[n])
  }

  lemma IngressesStayOk(st: Stores, st': Stores, runs: map<Nonce, IngressRun>)
    requires IngressesOk(st, runs) && Evolves(st, st')
    ensures IngressesOk(st', runs)
  {
    forall n <- runs, x <- runs[n].log ensures IngressFact(st', x) {
      IngressFactStays(st, st', x);
    }
  }

  // ---- Moves keep the chain

  lemma JobsStayBacked(receipts: D.Receipts, receipts': D.Receipts, jobs: J.Jobs)
    requires JobsBacked(receipts, jobs) && D.Preserves(receipts, receipts')
    ensures JobsBacked(receipts', jobs)
  {
  }

  lemma ReserveKeeps(st: Stores, event: Event, nonce: Nonce, now: int)
    requires StoresOk(st) && event.source == PUSH_SOURCE
    ensures
      var (receipts, reservation) := D.Reserve(st.receipts, event, nonce, now);
      && StoresOk(st.(receipts := receipts)) && Evolves(st, st.(receipts := receipts))
      && KeptReservation(receipts, event, reservation)
  {
    D.ReservingPreserves(st.receipts, event, nonce, now);
    JobsStayBacked(st.receipts, D.Reserve(st.receipts, event, nonce, now).0, st.jobs);
  }

  lemma FinalizeKeeps(st: Stores, reservation: D.Reservation, next: D.State, recovering: bool)
    requires StoresOk(st) && D.Finalize(st.receipts, reservation, next, recovering).Some?
    requires next.Accepted? ==>
               var key := reservation.receipt.key;
               && next.acceptance.policy in st.files.bindings && key in st.receipts
               && AcceptedUnder(st.files.bindings[next.acceptance.policy], st.receipts[key].(state := next))
    ensures
      var st' := st.(receipts := D.Finalize(st.receipts, reservation, next, recovering).value);
      StoresOk(st') && Evolves(st, st')
  {
    var key := reservation.receipt.key;
    var receipts := D.Finalize(st.receipts, reservation, next, recovering).value;
    D.FinalizingPreserves(st.receipts, reservation, next, recovering);
    JobsStayBacked(st.receipts, receipts, st.jobs);
    assert ReceiptBacked(st.files, key, receipts[key]) by {
      assert ReceiptBacked(st.files, key, st.receipts[key]);
    }
    assert forall k <- receipts :: k != key ==> receipts[k] == st.receipts[k];
  }

  lemma FilesGrow(st: Stores, files: R.Files)
    requires StoresOk(st) && R.Wellformed(files) && R.Extends(st.files, files) && BindingsBacked(files)
    ensures StoresOk(st.(files := files)) && Evolves(st, st.(files := files))
  {
    forall k <- st.receipts ensures ReceiptBacked(files, k, st.receipts[k]) {
      assert ReceiptBacked(st.files, k, st.receipts[k]);
    }
  }

  lemma BindKeeps(st: Stores, input: R.BindInput, now: int)
    requires StoresOk(st)
    requires input.key == KeyOf(input.event) && input.event.source == PUSH_SOURCE && input.incident == E.IncidentOf(input.event, input.policy)
    ensures
      var (files, outcome) := R.BindResult(st.files, input, now);
      && StoresOk(st.(files := files)) && Evolves(st, st.(files := files))
      && (outcome == R.Bound ==> P.RefOf(input.policy) in files.bindings && files.bindings[P.RefOf(input.policy)] == R.BindingOf(input) && input.content == input.policy)
  {
    var (files, outcome) := R.BindResult(st.files, input, now);
    R.BindingExtends(st.files, input, now);
    forall p <- files.bindings ensures p in files.policies && BindingBacked(files.policies[p], files.bindings[p]) {
      if p in st.files.bindings {
        assert BindingBacked(st.files.policies[p], st.files.bindings[p]);
      }
    }
    FilesGrow(st, files);
  }

  lemma CreateKeeps(st: Stores, frozen: J.Frozen)
    requires StoresOk(st) && FrozenBacked(st.receipts, frozen)
    ensures StoresOk(st.(jobs := J.CreateResult(st.jobs, frozen).0)) && Evolves(st, st.(jobs := J.CreateResult(st.jobs, frozen).0))
  {
    J.CreatingOnlyAdds(st.jobs, frozen);
  }

  lemma UpdateKeeps(st: Stores, incident: IncidentId, patch: J.Patch, allow: bool)
    requires StoresOk(st)
    ensures
      var st' := st.(jobs := J.UpdateResult(st.jobs, incident, patch, allow).0);
      StoresOk(st') && Evolves(st, st')
  {
    J.UpdatingOnlyAdvances(st.jobs, incident, patch, allow);
    AdvancedJobsStayBacked(st.receipts, st.jobs, J.UpdateResult(st.jobs, incident, patch, allow).0);
  }

  lemma AdvancedJobsStayBacked(receipts: D.Receipts, jobs: J.Jobs, jobs': J.Jobs)
    requires JobsBacked(receipts, jobs) && J.Persists(jobs, jobs') && jobs'.Keys == jobs.Keys
    ensures JobsBacked(receipts, jobs')
  {
  }

  lemma RetireKeeps(st: Stores, p: PolicyRef, incident: IncidentId)
    requires StoresOk(st)
    ensures
      var st' := st.(files := R.RetireResult(st.files, p, incident).0);
      StoresOk(st') && Evolves(st, st')
  {
    R.RetirementNamesTheBoundIncident(st.files, p, incident);
    FilesGrow(st, R.RetireResult(st.files, p, incident).0);
  }

  // ---- A step of an ingress

  /** What the run so far implies about the call it makes now. */
  ghost predicate CallBacked(st: Stores, call: PI.IngressCall) {
    match call {
      case ReserveReceipt(event, _) => event.source == PUSH_SOURCE
      case Bind(input) =>
        input.key == KeyOf(input.event) && input.event.source == PUSH_SOURCE && input.incident == E.IncidentOf(input.event, input.policy)
      case FinalizeReceipt(reservation, next, _) =>
        && !next.Reserved?
        && (next.Accepted? ==>
              var key := reservation.receipt.key;
              && next.acceptance.policy in st.files.bindings && key in st.receipts
              && AcceptedUnder(st.files.bindings[next.acceptance.policy], st.receipts[key].(state := next)))
      case CreateJob(frozen) => FrozenBacked(st.receipts, frozen)
      case _ => true
    }
  }

  lemma MoveKeeps(st: Stores, call: PI.IngressCall, reply: PI.IngressReply, now: int, st': Stores)
    requires StoresOk(st) && CallBacked(st, call) && IngressMoves(st, call, reply, now, st')
    ensures StoresOk(st') && Evolves(st, st') && IngressFact(st', PI.Exchange(call, reply))
  {
    hide StoresOk, R.BindResult, D.Reserve, J.CreateResult, AcceptedUnder, KeptReservation;
    EvolvesReflexively(st);
    match call {
      case ReserveReceipt(event, nonce) => ReserveKeeps(st, event, nonce, now);
      case Bind(input) => BindKeeps(st, input, now);
      case FinalizeReceipt(reservation, next, recovering) =>
        if st' != st {
          FinalizeKeeps(st, reservation, next, recovering);
        }
      case CreateJob(frozen) => CreateKeeps(st, frozen);
      case _ =>
    }
  }

  /** The reservation a processing holds is the one kept for its own event. */
  lemma ReservationIsKept(st: Stores, nonce: Nonce, run: IngressRun)
    requires IngressOk(st, nonce, run) && PIT.Watching(run.log).reserved.Some?
    ensures KeptReservation(st.receipts, run.launch.event, PIT.Watching(run.log).reserved.value)
  {
    PIT.WatchedReplies(run.log);
    var i :| 0 <= i < |run.log| && run.log[i].call.ReserveReceipt? && run.log[i].reply.ReservedAs?
             && run.log[i].reply.reservation == PIT.Watching(run.log).reserved.value;
    assert IngressFact(st, run.log[i]);
    PIT.PrefixIsHistory(run.launch, run.log, i);
    PIT.OnlyOwnEvent(run.launch, run.log[..i]);
  }

  lemma BindIsBacked(st: Stores, nonce: Nonce, run: IngressRun)
    requires IngressOk(st, nonce, run) && !IngressAt(run).pc.Ended? && PI.CallOf(IngressAt(run)).Bind?
    ensures CallBacked(st, PI.CallOf(IngressAt(run)))
  {
    PIT.BindIsGrounded(run.launch, run.log);
    ReservationIsKept(st, nonce, run);
  }

  lemma FinalizationIsBacked(st: Stores, nonce: Nonce, run: IngressRun)
    requires StoresOk(st) && IngressOk(st, nonce, run) && !IngressAt(run).pc.Ended? && PI.CallOf(IngressAt(run)).FinalizeReceipt?
    ensures CallBacked(st, PI.CallOf(IngressAt(run)))
  {
    hide PIT.IsHistory, PI.Step, E.JudgeTransition;
    PIT.FinalizesItsOwn(run.launch, run.log);
    var call := PI.CallOf(IngressAt(run));
    if call.next.Accepted? {
      PIT.AcceptanceIsGrounded(run.launch, run.log);
      PIT.HoldsItsReservation(run.launch, run.log);
      ReservationIsKept(st, nonce, run);
      var input := PIT.Watching(run.log).bound.value;
      var i :| 0 <= i < |run.log| && run.log[i] == PI.Exchange(PI.Bind(input), PI.BindReply(R.Bound));
      assert IngressFact(st, run.log[i]);
    }
  }

  lemma CreationIsBacked(st: Stores, nonce: Nonce, run: IngressRun)
    requires IngressOk(st, nonce, run) && !IngressAt(run).pc.Ended? && PI.CallOf(IngressAt(run)).CreateJob?
    ensures CallBacked(st, PI.CallOf(IngressAt(run)))
  {
    PIT.JobsComeFromReceipts(run.launch, run.log);
    var x := run.log[|run.log| - 1];
    assert x in run.log;
    assert IngressFact(st, x);
  }

  lemma CallIsBacked(st: Stores, nonce: Nonce, run: IngressRun)
    requires StoresOk(st) && IngressOk(st, nonce, run) && !IngressAt(run).pc.Ended?
    ensures CallBacked(st, PI.CallOf(IngressAt(run)))
  {
    match PI.CallOf(IngressAt(run)) {
      case Bind(_) => BindIsBacked(st, nonce, run);
      case FinalizeReceipt(_, _, _) => FinalizationIsBacked(st, nonce, run);
      case CreateJob(_) => CreationIsBacked(st, nonce, run);
      case _ => PIT.OnlyOwnEvent(run.launch, run.log);
    }
  }

  lemma IngressStepKeeps(s: Sys, nonce: Nonce, reply: PI.IngressReply, now: int, s': Sys)
    requires StoresOk(s.stores) && IngressesOk(s.stores, s.ingresses) && IngressSteps(s, nonce, reply, now, s')
    ensures StoresOk(s'.stores) && Evolves(s.stores, s'.stores) && IngressesOk(s'.stores, s'.ingresses)
  {
    hide StoresOk, Evolves, IngressMoves, CallBacked, IngressFact, PIT.IsHistory, PIT.At, PI.Step, PI.CallOf;
    var run := s.ingresses[nonce];
    var call := PI.CallOf(IngressAt(run));
    CallIsBacked(s.stores, nonce, run);
    MoveKeeps(s.stores, call, reply, now, s'.stores);
    IngressesStayOk(s.stores, s'.stores, s.ingresses);
    PIT.OneMore(run.launch, run.log, PI.Exchange(call, reply));
  }
}
