/** What an accepted receipt and what an effect start at C1 mean for everything that happens
    later in a run. */
module Aftermath {
  import opened Domain
  import opened C1 = C1Contract
  import opened System
  import opened Custody
  import opened Effects
  import opened Handoffs
  import opened Invariant
  import Safety
  import D = Dedupe
  import J = JobStore
  import PI = PushIngress
  import Co = Coordinator
  import W = BrokerWorker
  import PIT = PushIngressTrace
  import CoT = CoordinatorTrace
  import WT = BrokerWorkerTrace

  // ---- Steps, seen by the processes they leave alone

  lemma OtherIngressesStay(cfg: Config, s: Sys, a: Action, s': Sys)
    requires Next(cfg, s, a, s') && !a.IngressStep? && !a.Deliver?
    ensures s'.ingresses == s.ingresses
  {
    hide WorkerSteps, WorkerTold, CoordMoves, CoordTold, ChildTold, Commit, MayCommit;
    match a {
      case WorkerStep(pid, reply, claimNonce, startNonce) => WorkerStepFrame(cfg, s, pid, reply, claimNonce, startNonce, s');
      case _ =>
    }
  }

  lemma OtherWorkersStay(cfg: Config, s: Sys, a: Action, s': Sys)
    requires Next(cfg, s, a, s') && !a.WorkerStep? && !a.Work?
    ensures s'.workers == s.workers
  {
    hide CoordMoves, CoordTold, IngressMoves, ChildTold, Commit, MayCommit;
  }

  // ---- After acceptance

  /** The request this receipt was accepted for. */
  predicate SameRequest(event: Event, receipt: D.Receipt) { KeyOf(event) == receipt.key && event.body == receipt.event.body }

  /** Deliveries of this request other than the early ones were told of this receipt only. */
  ghost predicate AllTold(s: Sys, early: set<Nonce>, receipt: D.Receipt) {
    forall n <- s.ingresses :: n !in early && SameRequest(s.ingresses[n].launch.event, receipt) ==>
      forall x <- s.ingresses[n].log :: PIT.ToldOf(x, receipt)
  }

  lemma ReservationTells(st: Stores, event: Event, nonce: Nonce, reply: PI.IngressReply, now: int, st': Stores, receipt: D.Receipt)
    requires IngressMoves(st, PI.ReserveReceipt(event, nonce), reply, now, st')
    requires receipt.key in st.receipts && st.receipts[receipt.key] == receipt && SameRequest(event, receipt)
    ensures PIT.ToldOf(PI.Exchange(PI.ReserveReceipt(event, nonce), reply), receipt)
  {
  }

  lemma IngressIsTold(s: Sys, nonce: Nonce, reply: PI.IngressReply, now: int, s': Sys, early: set<Nonce>, receipt: D.Receipt)
    requires IngressSteps(s, nonce, reply, now, s') && AllTold(s, early, receipt)
    requires receipt.key in s.stores.receipts && s.stores.receipts[receipt.key] == receipt
    ensures AllTold(s', early, receipt)
  {
    hide PIT.ToldOf, IngressMoves, PI.Step, PIT.At;
    var run := s.ingresses[nonce];
    var call := PI.CallOf(IngressAt(run));
    if nonce !in early && SameRequest(run.launch.event, receipt) {
      if call.ReserveReceipt? {
        ReservesItsOwn(run);
        ReservationTells(s.stores, run.launch.event, run.launch.nonce, reply, now, s'.stores, receipt);
      } else {
        OtherCallsTellNothing(PI.Exchange(call, reply), receipt);
      }
    }
  }

  lemma ReservesItsOwn(run: IngressRun)
    requires !IngressAt(run).pc.Ended? && PI.CallOf(IngressAt(run)).ReserveReceipt?
    ensures PI.CallOf(IngressAt(run)) == PI.ReserveReceipt(run.launch.event, run.launch.nonce)
  {
  }

  lemma OtherCallsTellNothing(x: PI.Exchange, receipt: D.Receipt)
    requires !x.call.ReserveReceipt?
    ensures PIT.ToldOf(x, receipt)
  {
  }

  lemma NextTells(cfg: Config, s: Sys, a: Action, s': Sys, early: set<Nonce>, receipt: D.Receipt)
    requires Next(cfg, s, a, s') && AllTold(s, early, receipt)
    requires receipt.key in s.stores.receipts && s.stores.receipts[receipt.key] == receipt
    ensures AllTold(s', early, receipt)
  {
    hide IngressSteps, PIT.ToldOf;
    match a {
      case IngressStep(nonce, reply, now) => IngressIsTold(s, nonce, reply, now, s', early, receipt);
      case Deliver(_, _) =>
      case _ =>
        hide Next;
        OtherIngressesStay(cfg, s, a, s');
    }
  }

  lemma {:induction false} LaterDeliveriesAreTold(cfg: Config, run: seq<Sys>, actions: seq<Action>, i: nat, j: nat, k: DedupeKey)
    requires IsRun(cfg, run, actions) && i <= j < |run|
    requires k in run[i].stores.receipts && run[i].stores.receipts[k].state.Accepted? && run[i].stores.receipts[k].key == k
    ensures AllTold(run[j], run[i].ingresses.Keys, run[i].stores.receipts[k])
    decreases j
  {
    hide Next, PIT.ToldOf, SameRequest;
    if i < j {
      LaterDeliveriesAreTold(cfg, run, actions, i, j - 1, k);
      ReceiptStays(cfg, run, actions, i, j - 1, k);
      NextTells(cfg, run[j - 1], actions[j - 1], run[j], run[i].ingresses.Keys, run[i].stores.receipts[k]);
    }
  }

  lemma ReceiptStays(cfg: Config, run: seq<Sys>, actions: seq<Action>, i: nat, j: nat, k: DedupeKey)
    requires IsRun(cfg, run, actions) && i <= j < |run|
    requires k in run[i].stores.receipts && run[i].stores.receipts[k].state.Accepted?
    ensures k in run[j].stores.receipts && run[j].stores.receipts[k] == run[i].stores.receipts[k]
  {
    hide IsRun, Grows, Longer;
    NothingIsTakenBack(cfg, run, actions, i, j);
  }

  lemma AcceptedIsKeyed(st: Stores, k: DedupeKey)
    requires StoresOk(st) && k in st.receipts
    ensures st.receipts[k].key == k
  {
    assert ReceiptBacked(st.files, k, st.receipts[k]);
  }

  lemma DeliveryIsReal(st: Stores, ingresses: map<Nonce, IngressRun>, nonce: Nonce)
    requires IngressesOk(st, ingresses) && nonce in ingresses
    ensures ingresses[nonce].launch.event.source == PUSH_SOURCE && PIT.IsHistory(ingresses[nonce].launch, ingresses[nonce].log)
  {
    assert IngressOk(st, nonce, ingresses[nonce]);
  }

  /** Accepted replay is frozen over whole runs: every delivery of the same request that
      starts after its receipt was accepted makes no source read, no bind and no
      finalization, whatever policies and retirements have come since, and ends with exactly
      what the receipt froze or fails. */
  lemma AcceptedMeansReplay(cfg: Config, run: seq<Sys>, actions: seq<Action>, i: nat, j: nat, k: DedupeKey, nonce: Nonce, n: nat, call: PI.IngressCall)
    requires IsRun(cfg, run, actions) && i <= j < |run|
    requires k in run[i].stores.receipts && run[i].stores.receipts[k].state.Accepted?
    requires nonce in run[j].ingresses && nonce !in run[i].ingresses
    requires SameRequest(run[j].ingresses[nonce].launch.event, run[i].stores.receipts[k])
    ensures
      var delivery := run[j].ingresses[nonce];
      var frozen := PI.FrozenOf(k, run[i].stores.receipts[k].state.acceptance);
      && (PIT.Issues(delivery.launch, delivery.log, n, call) ==> !PIT.Derives(call))
      && (IngressAt(delivery).pc.Ended? ==>
            IngressAt(delivery).pc.outcome == PI.Accepted(frozen, true) || IngressAt(delivery).pc.outcome == PI.Failed)
  {
    hide IsRun, StoresOk, IngressesOk, BindingsWitnessed, CoordsOk, WorkersOk, ChildrenOk, LedgerOk, RetirementsClosed, AbsencesDeclared, HandoffsOk, PI.ReceiptReplays, PIT.Issues, PIT.ToldOf, PI.FrozenOf;
    var receipt := run[i].stores.receipts[k];
    var delivery := run[j].ingresses[nonce];
    InvariantHolds(cfg, run, actions, i);
    InvariantHolds(cfg, run, actions, j);
    AcceptedIsKeyed(run[i].stores, k);
    LaterDeliveriesAreTold(cfg, run, actions, i, j, k);
    DeliveryIsReal(run[j].stores, run[j].ingresses, nonce);
    Safety.AcceptedReceiptIsComplete(run[i].stores, k, delivery.launch.event);
    PIT.ToldIsReplayed(delivery.launch, delivery.log, receipt, n, call);
  }

  // ---- After an effect start was seen

  predicate ReadsJob(x: W.Exchange) { x.call.ReadJob? && x.reply.Fetched? }

  ghost predicate HasRead(s: Sys, p: Pid) { p in s.workers && exists x <- s.workers[p].log :: ReadsJob(x) }

  ghost function Readers(s: Sys): iset<Pid> { iset p | HasRead(s, p) }

  /** Workers of this incident other than the early ones read the job in its last states only. */
  ghost predicate ReadsAreFinal(s: Sys, incident: IncidentId, early: iset<Pid>) {
    forall p <- s.workers :: p !in early && s.workers[p].launch.incident == incident ==>
      forall x <- s.workers[p].log :: ReadsJob(x) ==> J.Final(x.reply.job.state)
  }

  lemma WorkerReadsFinal(cfg: Config, s: Sys, pid: Pid, reply: W.WorkerReply, claimNonce: Nonce, startNonce: Nonce, s': Sys, incident: IncidentId, early: iset<Pid>)
    requires WorkerSteps(cfg, s, pid, reply, claimNonce, startNonce, s') && ReadsAreFinal(s, incident, early)
    requires incident in s.stores.jobs && J.Final(s.stores.jobs[incident].state)
    ensures ReadsAreFinal(s', incident, early)
  {
    hide W.Step, WT.At, JobMoves, VerifiedAt;
    var run := s.workers[pid];
    var call := W.CallOf(WorkerAt(run));
    if call.ReadJob? {
      ReadsItsOwn(run);
    }
  }

  lemma ReadsItsOwn(run: WorkerRun)
    requires !WorkerAt(run).pc.Ended? && W.CallOf(WorkerAt(run)).ReadJob?
    ensures W.CallOf(WorkerAt(run)) == W.ReadJob(run.launch.incident)
  {
  }

  lemma StepIsWorker(cfg: Config, s: Sys, pid: Pid, reply: W.WorkerReply, claimNonce: Nonce, startNonce: Nonce, s': Sys)
    requires Next(cfg, s, WorkerStep(pid, reply, claimNonce, startNonce), s')
    ensures WorkerSteps(cfg, s, pid, reply, claimNonce, startNonce, s')
  {
    hide WorkerSteps;
  }

  lemma NewWorkerReadsFinal(cfg: Config, s: Sys, a: Action, s': Sys, incident: IncidentId, early: iset<Pid>)
    requires Next(cfg, s, a, s') && a.Work? && ReadsAreFinal(s, incident, early)
    ensures ReadsAreFinal(s', incident, early)
  {
    hide J.Final;
  }

  lemma OtherReadsFinal(cfg: Config, s: Sys, a: Action, s': Sys, incident: IncidentId, early: iset<Pid>)
    requires Next(cfg, s, a, s') && !a.WorkerStep? && !a.Work? && ReadsAreFinal(s, incident, early)
    ensures ReadsAreFinal(s', incident, early)
  {
    hide Next, J.Final;
    OtherWorkersStay(cfg, s, a, s');
  }

  lemma NextReadsFinal(cfg: Config, s: Sys, a: Action, s': Sys, incident: IncidentId, early: iset<Pid>)
    requires Next(cfg, s, a, s') && ReadsAreFinal(s, incident, early)
    requires incident in s.stores.jobs && J.Final(s.stores.jobs[incident].state)
    ensures ReadsAreFinal(s', incident, early)
  {
    hide Next, ReadsAreFinal, J.Final;
    match a {
      case WorkerStep(pid, reply, claimNonce, startNonce) =>
        StepIsWorker(cfg, s, pid, reply, claimNonce, startNonce, s');
        WorkerReadsFinal(cfg, s, pid, reply, claimNonce, startNonce, s', incident, early);
      case Work(_, _, _) => NewWorkerReadsFinal(cfg, s, a, s', incident, early);
      case _ => OtherReadsFinal(cfg, s, a, s', incident, early);
    }
  }

  lemma FinalStays(cfg: Config, run: seq<Sys>, actions: seq<Action>, i: nat, j: nat, incident: IncidentId)
    requires IsRun(cfg, run, actions) && i <= j < |run| && incident in run[i].stores.jobs && J.Final(run[i].stores.jobs[incident].state)
    ensures incident in run[j].stores.jobs && J.Final(run[j].stores.jobs[incident].state)
  {
    hide IsRun;
    Safety.JobsAndAuthorityOnlyAdvance(cfg, run, actions, i, j, incident);
  }

  lemma {:induction false} LaterReadsAreFinal(cfg: Config, run: seq<Sys>, actions: seq<Action>, i: nat, j: nat, incident: IncidentId)
    requires IsRun(cfg, run, actions) && i <= j < |run| && incident in run[i].stores.jobs && J.Final(run[i].stores.jobs[incident].state)
    ensures ReadsAreFinal(run[j], incident, Readers(run[i]))
    decreases j
  {
    hide Next;
    if i < j {
      LaterReadsAreFinal(cfg, run, actions, i, j - 1, incident);
      FinalStays(cfg, run, actions, i, j - 1, incident);
      NextReadsFinal(cfg, run[j - 1], actions[j - 1], run[j], incident, Readers(run[i]));
    }
  }

  /** The pass writes the job after a first read of C1 that matched and showed an effect start. */
  ghost predicate WritesAfterEffect(s: Sys, h: HandoffId, reply: Co.CoordReply, incident: IncidentId) {
    && h in s.coords && !CoordAt(s.coords[h]).pc.Finished? && Co.CallOf(CoordAt(s.coords[h])).UpdateJob? && reply.Stored?
    && CoT.FirstReadShowsEffect(s.coords[h].launch, s.coords[h].log) && s.coords[h].launch.job.frozen.incident == incident
  }

  lemma WriteIsFinal(cfg: Config, s: Sys, h: HandoffId, reply: Co.CoordReply, s': Sys, incident: IncidentId)
    requires CoordsOk(cfg, s.stores.jobs, s.c1, s.coords) && CoordSteps(s, h, reply, s') && WritesAfterEffect(s, h, reply, incident)
    ensures incident in s'.stores.jobs && J.Final(s'.stores.jobs[incident].state)
  {
    hide CoT.FirstReadShowsEffect, CoT.IsHistory, CoT.At, Co.Step, CoordFact, J.Final, J.CanTransition;
    var run := s.coords[h];
    assert CoordOk(cfg, s.stores.jobs, s.c1, h, run);
    CoT.RemoteStateDominates(run.launch, run.log, s.stores.jobs[incident]);
    CoT.HandoffsAreAuthorized(run.launch, run.log);
  }

  lemma WriteEndsJob(cfg: Config, run: seq<Sys>, actions: seq<Action>, t: nat, h: HandoffId, reply: Co.CoordReply, incident: IncidentId)
    requires IsRun(cfg, run, actions) && t + 1 < |run| && actions[t] == CoordStep(h, reply) && WritesAfterEffect(run[t], h, reply, incident)
    ensures incident in run[t + 1].stores.jobs && J.Final(run[t + 1].stores.jobs[incident].state)
  {
    hide Next, StoresOk, IngressesOk, BindingsWitnessed, CoordsOk, WorkersOk, ChildrenOk, LedgerOk, RetirementsClosed, AbsencesDeclared, HandoffsOk, WritesAfterEffect, J.Final;
    InvariantHolds(cfg, run, actions, t);
    StepIsWrite(cfg, run[t], h, reply, run[t + 1]);
    WriteIsFinal(cfg, run[t], h, reply, run[t + 1], incident);
  }

  /** Remote state dominates, over whole runs: once a pass whose first read of C1 showed an
      effect start has written the job, no worker of that incident that had not read the job
      by then ever starts a child. */
  lemma EffectStartEndsChildren(cfg: Config, run: seq<Sys>, actions: seq<Action>, t: nat, h: HandoffId, reply: Co.CoordReply, incident: IncidentId, j: nat, p: Pid, n: nat, call: W.WorkerCall)
    requires IsRun(cfg, run, actions) && t < j < |run| && actions[t] == CoordStep(h, reply) && WritesAfterEffect(run[t], h, reply, incident)
    requires p in run[j].workers && run[j].workers[p].launch.incident == incident && !HasRead(run[t + 1], p)
    requires WT.Issues(run[j].workers[p].launch, run[j].workers[p].log, n, call)
    ensures !call.StartChild?
  {
    hide Next, StoresOk, IngressesOk, BindingsWitnessed, CoordsOk, WorkersOk, ChildrenOk, LedgerOk, RetirementsClosed, AbsencesDeclared, HandoffsOk, WT.Issues, WT.IsHistory, WritesAfterEffect, HasRead, ReadsAreFinal, J.Final;
    WriteEndsJob(cfg, run, actions, t, h, reply, incident);
    LaterReadsAreFinal(cfg, run, actions, t + 1, j, incident);
    InvariantHolds(cfg, run, actions, j);
    NoStartWithoutRead(cfg, run[j], incident, Readers(run[t + 1]), p, n, call);
  }

  lemma NoStartWithoutRead(cfg: Config, s: Sys, incident: IncidentId, early: iset<Pid>, p: Pid, n: nat, call: W.WorkerCall)
    requires WorkersOk(cfg, s.stores.jobs, s.workers) && ReadsAreFinal(s, incident, early)
    requires p in s.workers && s.workers[p].launch.incident == incident && p !in early
    requires WT.Issues(s.workers[p].launch, s.workers[p].log, n, call)
    ensures !call.StartChild?
  {
    hide WT.Issues, WT.IsHistory, WorkerFact;
    assert WorkerOk(cfg, s.stores.jobs, s.workers[p]);
    StartedForRead(s.workers[p], n, call);
  }

  lemma StartedForRead(run: WorkerRun, n: nat, call: W.WorkerCall)
    requires WT.IsHistory(run.launch, run.log) && WT.Issues(run.launch, run.log, n, call)
    ensures call.StartChild? ==> exists x <- run.log :: ReadsJob(x) && WT.Startable(x.reply.job)
  {
    hide WT.Issues, WT.IsHistory;
    if call.StartChild? {
      WT.StartNeedsRead(run.launch, run.log, n, call);
      var k, job :| 0 <= k < n && run.log[k].call.ReadJob? && run.log[k].reply == W.Fetched(job) && WT.Startable(job);
      assert run.log[k] in run.log && ReadsJob(run.log[k]);
    }
  }

  lemma StepIsWrite(cfg: Config, s: Sys, h: HandoffId, reply: Co.CoordReply, s': Sys)
    requires Next(cfg, s, CoordStep(h, reply), s')
    ensures CoordSteps(s, h, reply, s')
  {
  }
}
