/** The invariant of the whole system and its preservation by every step. */
module Invariant {
  import opened Domain
  import opened C1 = C1Contract
  import opened System
  import opened Custody
  import opened Effects
  import opened Handoffs
  import R = PolicyRegistry
  import P = PushPolicy
  import D = Dedupe
  import J = JobStore
  import PI = PushIngress
  import Co = Coordinator
  import W = BrokerWorker
  import Ch = BrokerChild
  import PIT = PushIngressTrace
  import CoT = CoordinatorTrace
  import WT = BrokerWorkerTrace
  import ChT = BrokerTrace

  /** Some processing of a delivery asked for exactly this binding. */
  ghost predicate Witnessed(ingresses: map<Nonce, IngressRun>, b: R.Binding) {
    exists n, k: nat, input ::
      n in ingresses && PIT.Issues(ingresses[n].launch, ingresses[n].log, k, PI.Bind(input)) && R.BindingOf(input) == b && input.policy == b.content
  }

  ghost predicate BindingsWitnessed(files: R.Files, ingresses: map<Nonce, IngressRun>) {
    forall p <- files.bindings :: Witnessed(ingresses, files.bindings[p])
  }

  ghost predicate Inv(cfg: Config, s: Sys) {
    && StoresOk(s.stores) && IngressesOk(s.stores, s.ingresses) && BindingsWitnessed(s.stores.files, s.ingresses)
    && CoordsOk(cfg, s.stores.jobs, s.c1, s.coords) && WorkersOk(cfg, s.stores.jobs, s.workers) && ChildrenOk(s.c1, s.children)
    && LedgerOk(s.stores.jobs, s.c1) && RetirementsClosed(s.stores.files, s.c1) && AbsencesDeclared(s.c1, s.workers, s.children)
    && HandoffsOk(s.stores.jobs, s.coords, s.workers, s.leases, s.dead)
  }

  /** What no step takes back. */
  ghost predicate Progress(s: Sys, s': Sys) {
    && Evolves(s.stores, s'.stores) && Grows(s.c1, s'.c1)
    && Longer(s.ingresses, s'.ingresses) && Longer(s.coords, s'.coords)
    && Longer(s.workers, s'.workers) && Longer(s.children, s'.children)
  }

  // ---- Effects of a store change on the processes that did not move

  lemma WitnessStays(b: R.Binding, ingresses: map<Nonce, IngressRun>, ingresses': map<Nonce, IngressRun>)
    requires Witnessed(ingresses, b) && Longer(ingresses, ingresses')
    ensures Witnessed(ingresses', b)
  {
    var n, k: nat, input :| n in ingresses && PIT.Issues(ingresses[n].launch, ingresses[n].log, k, PI.Bind(input)) && R.BindingOf(input) == b && input.policy == b.content;
    assert ingresses'[n].log[..k] == ingresses[n].log[..k];
    assert PIT.Issues(ingresses'[n].launch, ingresses'[n].log, k, PI.Bind(input));
  }

  lemma WitnessesStay(files: R.Files, ingresses: map<Nonce, IngressRun>, ingresses': map<Nonce, IngressRun>)
    requires BindingsWitnessed(files, ingresses) && Longer(ingresses, ingresses')
    ensures BindingsWitnessed(files, ingresses')
  {
    forall p <- files.bindings ensures Witnessed(ingresses', files.bindings[p]) {
      WitnessStays(files.bindings[p], ingresses, ingresses');
    }
  }

  lemma LedgerStays(jobs: J.Jobs, jobs': J.Jobs, c1: Ledger)
    requires LedgerOk(jobs, c1) && J.Persists(jobs, jobs')
    ensures LedgerOk(jobs', c1)
  {
  }

  /** New jobs carry no handoff. */
  ghost predicate OnlyNewJobs(jobs: J.Jobs, jobs': J.Jobs) {
    && (forall i <- jobs :: i in jobs' && jobs'[i] == jobs[i])
    && (forall i <- jobs' :: i !in jobs ==> jobs'[i].handoff.None?)
  }

  lemma NewJobsCount(jobs: J.Jobs, jobs': J.Jobs, coords: Coords, workers: Workers, dead: set<Pid>)
    requires Counted(jobs, coords, workers, dead) && OnlyNewJobs(jobs, jobs')
    ensures Counted(jobs', coords, workers, dead)
  {
    forall p <- workers | p !in dead ensures Pending(jobs', workers, p) {
      assert Pending(jobs, workers, p);
    }
  }

  lemma Steady(cfg: Config, s: Sys)
    requires Inv(cfg, s)
    ensures WellFormed(s.c1) && Evolves(s.stores, s.stores) && Grows(s.c1, s.c1)
  {
    EvolvesReflexively(s.stores);
    GrowsReflexively(s.c1);
  }

  // ---- Steps that touch the stores

  lemma AddPolicyKeepsStores(st: Stores, record: R.PolicyRecord)
    requires StoresOk(st) && R.ValidRecord(record) && P.RefOf(record.policy) !in st.files.policies
    ensures
      var st' := st.(files := st.files.(policies := st.files.policies[P.RefOf(record.policy) := record]));
      StoresOk(st') && Evolves(st, st')
  {
    var files := st.files.(policies := st.files.policies[P.RefOf(record.policy) := record]);
    assert forall p <- st.files.bindings :: files.policies[p] == st.files.policies[p];
    FilesGrow(st, files);
  }

  lemma AddPolicyKeeps(cfg: Config, s: Sys, record: R.PolicyRecord, s': Sys)
    requires Inv(cfg, s) && AddsPolicy(s, record, s')
    ensures Inv(cfg, s') && Progress(s, s')
  {
    hide StoresOk, IngressesOk, BindingsWitnessed, CoordsOk, WorkersOk, ChildrenOk, LedgerOk, RetirementsClosed, AbsencesDeclared, HandoffsOk, Evolves, Grows;
    Steady(cfg, s);
    AddPolicyKeepsStores(s.stores, record);
    SamePoliciesElsewhere(s.stores, record, s.ingresses, s.c1);
    IngressesStayOk(s.stores, s'.stores, s.ingresses);
  }

  lemma SamePoliciesElsewhere(st: Stores, record: R.PolicyRecord, ingresses: map<Nonce, IngressRun>, c1: Ledger)
    requires BindingsWitnessed(st.files, ingresses) && RetirementsClosed(st.files, c1)
    ensures
      var files := st.files.(policies := st.files.policies[P.RefOf(record.policy) := record]);
      BindingsWitnessed(files, ingresses) && RetirementsClosed(files, c1)
  {
  }

  lemma NewDeliveryKeeps(st: Stores, ingresses: map<Nonce, IngressRun>, l: PI.Launch)
    requires IngressesOk(st, ingresses) && BindingsWitnessed(st.files, ingresses)
    requires l.nonce !in ingresses && l.event.source == PUSH_SOURCE
    ensures
      var ingresses' := ingresses[l.nonce := Run(l, [])];
      IngressesOk(st, ingresses') && BindingsWitnessed(st.files, ingresses')
  {
    WitnessesStay(st.files, ingresses, ingresses[l.nonce := Run(l, [])]);
  }

  lemma DeliverKeeps(cfg: Config, s: Sys, event: Event, nonce: Nonce, s': Sys)
    requires Inv(cfg, s) && Delivers(s, event, nonce, s')
    ensures Inv(cfg, s') && Progress(s, s')
  {
    hide StoresOk, IngressesOk, BindingsWitnessed, CoordsOk, WorkersOk, ChildrenOk, LedgerOk, RetirementsClosed, AbsencesDeclared, HandoffsOk, Evolves, Grows;
    Steady(cfg, s);
    NewDeliveryKeeps(s.stores, s.ingresses, PI.Launch(event, nonce));
  }

  lemma MoveAddsOnlyNewJobs(st: Stores, call: PI.IngressCall, reply: PI.IngressReply, now: int, st': Stores)
    requires IngressMoves(st, call, reply, now, st')
    ensures OnlyNewJobs(st.jobs, st'.jobs)
    ensures !call.Bind? ==> st'.files == st.files
    ensures call.Bind? ==> st'.files == st.files || (st'.files == R.BindResult(st.files, call.input, now).0 && call.input.policy == call.input.content)
    ensures st'.files.retirements == st.files.retirements
  {
  }

  lemma NewBindingIsWitnessed(s: Sys, nonce: Nonce, reply: PI.IngressReply, now: int, s': Sys)
    requires IngressSteps(s, nonce, reply, now, s') && BindingsWitnessed(s.stores.files, s.ingresses)
    ensures BindingsWitnessed(s'.stores.files, s'.ingresses)
  {
    var run := s.ingresses[nonce];
    var call := PI.CallOf(IngressAt(run));
    MoveAddsOnlyNewJobs(s.stores, call, reply, now, s'.stores);
    WitnessesStay(s.stores.files, s.ingresses, s'.ingresses);
    forall p <- s'.stores.files.bindings ensures Witnessed(s'.ingresses, s'.stores.files.bindings[p]) {
      if p !in s.stores.files.bindings {
        assert s'.ingresses[nonce].log[..|run.log|] == run.log;
        assert PIT.Issues(s'.ingresses[nonce].launch, s'.ingresses[nonce].log, |run.log|, PI.Bind(call.input));
      }
    }
  }

  lemma IngressKeeps(cfg: Config, s: Sys, nonce: Nonce, reply: PI.IngressReply, now: int, s': Sys)
    requires Inv(cfg, s) && IngressSteps(s, nonce, reply, now, s')
    ensures Inv(cfg, s') && Progress(s, s')
  {
    hide IngressMoves, IngressAt, PI.CallOf, StoresOk, IngressesOk, BindingsWitnessed, CoordsOk, WorkersOk, ChildrenOk, LedgerOk, RetirementsClosed, AbsencesDeclared, HandoffsOk, Evolves, Grows;
    IngressStepKeeps(s, nonce, reply, now, s');
    NewBindingIsWitnessed(s, nonce, reply, now, s');
    MoveAddsOnlyNewJobs(s.stores, PI.CallOf(IngressAt(s.ingresses[nonce])), reply, now, s'.stores);
    StoreChangeKeeps(cfg, s, s');
  }

  /** The stores evolved by new jobs at most, and only ingresses moved. */
  lemma StoreChangeKeeps(cfg: Config, s: Sys, s': Sys)
    requires Inv(cfg, s) && s' == s.(stores := s'.stores, ingresses := s'.ingresses)
    requires Evolves(s.stores, s'.stores) && OnlyNewJobs(s.stores.jobs, s'.stores.jobs)
    requires s'.stores.files.retirements == s.stores.files.retirements
    ensures CoordsOk(cfg, s'.stores.jobs, s'.c1, s'.coords) && WorkersOk(cfg, s'.stores.jobs, s'.workers) && ChildrenOk(s'.c1, s'.children)
    ensures LedgerOk(s'.stores.jobs, s'.c1) && RetirementsClosed(s'.stores.files, s'.c1) && AbsencesDeclared(s'.c1, s'.workers, s'.children)
    ensures HandoffsOk(s'.stores.jobs, s'.coords, s'.workers, s'.leases, s'.dead)
    ensures Grows(s.c1, s'.c1)
  {
    GrowsReflexively(s.c1);
    CoordsStayOk(cfg, s.stores.jobs, s'.stores.jobs, s.c1, s.c1, s.coords);
    WorkersStayOk(cfg, s.stores.jobs, s'.stores.jobs, s.workers);
    LedgerStays(s.stores.jobs, s'.stores.jobs, s.c1);
    DeclarationsStay(s.c1, s.workers, s'.workers, s.children, s'.children);
    NewJobsCount(s.stores.jobs, s'.stores.jobs, s.coords, s.workers, s.dead);
  }

  lemma CreatingAddsOnlyNewJobs(jobs: J.Jobs, frozen: J.Frozen)
    ensures OnlyNewJobs(jobs, J.CreateResult(jobs, frozen).0)
  {
  }

  lemma RecoverKeeps(cfg: Config, s: Sys, key: DedupeKey, s': Sys)
    requires Inv(cfg, s) && Recovers(s, key, s')
    ensures Inv(cfg, s') && Progress(s, s')
  {
    hide OnlyNewJobs, J.CreateResult, StoresOk, IngressesOk, BindingsWitnessed, CoordsOk, WorkersOk, ChildrenOk, LedgerOk, RetirementsClosed, AbsencesDeclared, HandoffsOk, Evolves, Grows;
    var frozen := PI.FrozenOf(key, s.stores.receipts[key].state.acceptance);
    assert FrozenBacked(s.stores.receipts, frozen);
    CreateKeeps(s.stores, frozen);
    CreatingAddsOnlyNewJobs(s.stores.jobs, frozen);
    IngressesStayOk(s.stores, s'.stores, s.ingresses);
    StoreChangeKeeps(cfg, s, s');
  }

  // ---- Coordinator passes

  lemma NewPassKeeps(cfg: Config, jobs: J.Jobs, c1: Ledger, coords: Coords, workers: Workers, leases: map<IncidentId, Pid>, dead: set<Pid>, l: Co.Launch)
    requires CoordsOk(cfg, jobs, c1, coords) && HandoffsOk(jobs, coords, workers, leases, dead) && l.handoff !in coords
    requires l == Co.Launch(l.job, cfg.operator, cfg.remediation, cfg.owner, cfg.repo, l.handoff)
    requires l.job.frozen.incident in jobs && jobs[l.job.frozen.incident].frozen == l.job.frozen
    ensures CoordsOk(cfg, jobs, c1, coords[l.handoff := Run(l, [])])
    ensures HandoffsOk(jobs, coords[l.handoff := Run(l, [])], workers, leases, dead)
  {
    var coords' := coords[l.handoff := Run(l, [])];
    assert IssuedGrows(coords, coords');
    MoreIssuedKeeps(jobs, coords, coords', workers, dead);
  }

  lemma StoredJobsAreKeyed(st: Stores, incident: IncidentId)
    requires StoresOk(st) && incident in st.jobs
    ensures st.jobs[incident].frozen.incident == incident
  {
  }

  lemma ObserveKeeps(cfg: Config, s: Sys, incident: IncidentId, handoff: HandoffId, s': Sys)
    requires Inv(cfg, s) && Observes(cfg, s, incident, handoff, s')
    ensures Inv(cfg, s') && Progress(s, s')
  {
    hide StoresOk, IngressesOk, BindingsWitnessed, CoordsOk, WorkersOk, ChildrenOk, LedgerOk, RetirementsClosed, AbsencesDeclared, HandoffsOk, Evolves, Grows;
    Steady(cfg, s);
    StoredJobsAreKeyed(s.stores, incident);
    NewPassKeeps(cfg, s.stores.jobs, s.c1, s.coords, s.workers, s.leases, s.dead, s'.coords[handoff].launch);
  }

  lemma CoordKeepsHandoffs(s: Sys, handoff: HandoffId, reply: Co.CoordReply, s': Sys)
    requires HandoffsOk(s.stores.jobs, s.coords, s.workers, s.leases, s.dead) && CoordSteps(s, handoff, reply, s')
    ensures HandoffsOk(s'.stores.jobs, s'.coords, s'.workers, s'.leases, s'.dead)
  {
    CoordStepCounts(s.stores.jobs, s'.stores.jobs, s.coords, s.workers, s.dead, handoff, reply);
    CoordNextIs(s.coords, handoff, reply);
  }

  lemma CoordMoveLeavesTheRest(s: Sys, handoff: HandoffId, reply: Co.CoordReply, s': Sys)
    requires CoordSteps(s, handoff, reply, s') && BindingsWitnessed(s.stores.files, s.ingresses)
    ensures BindingsWitnessed(s'.stores.files, s'.ingresses) && Longer(s.coords, s'.coords)
    ensures s'.c1 == s.c1 && s'.ingresses == s.ingresses && s'.workers == s.workers && s'.children == s.children
  {
  }

  lemma CoordKeeps(cfg: Config, s: Sys, handoff: HandoffId, reply: Co.CoordReply, s': Sys)
    requires Inv(cfg, s) && CoordSteps(s, handoff, reply, s')
    requires CoordTold(s.c1, cfg.operator, Co.CallOf(CoordAt(s.coords[handoff])), reply)
    ensures Inv(cfg, s') && Progress(s, s')
  {
    hide CoordMoves, CoordFact, CoordTold, StoresOk, IngressesOk, BindingsWitnessed, CoordsOk, WorkersOk, ChildrenOk, LedgerOk, RetirementsClosed, AbsencesDeclared, HandoffsOk, Grows;
    Steady(cfg, s);
    CoordHears(s.c1, cfg.operator, Co.CallOf(CoordAt(s.coords[handoff])), reply);
    CoordStepKeeps(cfg, s, handoff, reply, s');
    CoordStepStaysOk(cfg, s, handoff, reply, s');
    CoordMoveLeavesTheRest(s, handoff, reply, s');
    CoordKeepsHandoffs(s, handoff, reply, s');
    IngressesStayOk(s.stores, s'.stores, s.ingresses);
    WorkersStayOk(cfg, s.stores.jobs, s'.stores.jobs, s.workers);
    LedgerStays(s.stores.jobs, s'.stores.jobs, s.c1);
    DeclarationsStay(s.c1, s.workers, s'.workers, s.children, s'.children);
  }

  // ---- Workers

  lemma NewWorkerKeeps(jobs: J.Jobs, coords: Coords, workers: Workers, leases: map<IncidentId, Pid>, dead: set<Pid>, pid: Pid, l: W.Launch)
    requires HandoffsOk(jobs, coords, workers, leases, dead) && pid !in workers
    ensures HandoffsOk(jobs, coords, workers[pid := Run(l, [])], leases, dead)
  {
    var workers' := workers[pid := Run(l, [])];
    forall p <- workers' | p !in dead ensures Pending(jobs, workers', p) {
      if p != pid {
        assert Pending(jobs, workers, p);
      }
    }
  }

  lemma NewWorkerIsOk(cfg: Config, jobs: J.Jobs, workers: Workers, pid: Pid, l: W.Launch)
    requires WorkersOk(cfg, jobs, workers) && l.broker == cfg.broker
    ensures WorkersOk(cfg, jobs, workers[pid := Run(l, [])])
  {
  }

  lemma WorkKeeps(cfg: Config, s: Sys, pid: Pid, kind: W.Kind, incident: IncidentId, s': Sys)
    requires Inv(cfg, s) && Works(cfg, s, pid, kind, incident, s')
    ensures Inv(cfg, s') && Progress(s, s')
  {
    hide StoresOk, IngressesOk, BindingsWitnessed, CoordsOk, WorkersOk, ChildrenOk, LedgerOk, RetirementsClosed, AbsencesDeclared, HandoffsOk, Evolves, Grows;
    Steady(cfg, s);
    DeclarationsStay(s.c1, s.workers, s'.workers, s.children, s'.children);
    NewWorkerIsOk(cfg, s.stores.jobs, s.workers, pid, W.Launch(kind, incident, cfg.broker));
    NewWorkerKeeps(s.stores.jobs, s.coords, s.workers, s.leases, s.dead, pid, s'.workers[pid].launch);
  }

  lemma WorkerKeepsHandoffs(cfg: Config, s: Sys, pid: Pid, reply: W.WorkerReply, claimNonce: Nonce, startNonce: Nonce, s': Sys)
    requires HandoffsOk(s.stores.jobs, s.coords, s.workers, s.leases, s.dead) && WorkerSteps(cfg, s, pid, reply, claimNonce, startNonce, s')
    ensures HandoffsOk(s'.stores.jobs, s'.coords, s'.workers, s'.leases, s'.dead)
  {
    WorkerStepFrame(cfg, s, pid, reply, claimNonce, startNonce, s');
    WorkerStepParts(cfg, s, pid, reply, claimNonce, startNonce, s');
    WorkerStepCounts(s.stores.jobs, s'.stores.jobs, s.coords, s.leases, s.workers, s.dead, pid, reply);
    LeaseStepKeeps(s.leases, s'.leases, s.dead, s.coords, s.workers, pid, reply);
    AnsweredIs(s.workers[pid], reply);
  }

  lemma WorkerStepParts(cfg: Config, s: Sys, pid: Pid, reply: W.WorkerReply, claimNonce: Nonce, startNonce: Nonce, s': Sys)
    requires WorkerSteps(cfg, s, pid, reply, claimNonce, startNonce, s')
    ensures s'.workers == s.workers[pid := Answered(s.workers[pid], reply)]
    ensures JobStep(s.stores.jobs, W.CallOf(WorkerAt(s.workers[pid])), reply, s'.stores.jobs)
    ensures LeaseStep(s.leases, s.dead, pid, W.CallOf(WorkerAt(s.workers[pid])), reply, s'.leases)
  {
    WorkerMoveParts(cfg, s, pid, W.CallOf(WorkerAt(s.workers[pid])), reply, claimNonce, startNonce, s'.(workers := s.workers));
  }

  lemma WorkerMoveParts(cfg: Config, s: Sys, pid: Pid, call: W.WorkerCall, reply: W.WorkerReply, claimNonce: Nonce, startNonce: Nonce, s': Sys)
    requires WorkerMoves(cfg, s, pid, call, reply, claimNonce, startNonce, s')
    ensures JobStep(s.stores.jobs, call, reply, s'.stores.jobs)
    ensures LeaseStep(s.leases, s.dead, pid, call, reply, s'.leases)
  {
  }

  lemma WorkerKeeps(cfg: Config, s: Sys, pid: Pid, reply: W.WorkerReply, claimNonce: Nonce, startNonce: Nonce, s': Sys)
    requires Inv(cfg, s) && WorkerSteps(cfg, s, pid, reply, claimNonce, startNonce, s')
    ensures Inv(cfg, s') && Progress(s, s')
  {
    hide WorkerSteps, StoresOk, IngressesOk, BindingsWitnessed, CoordsOk, WorkersOk, ChildrenOk, LedgerOk, RetirementsClosed, AbsencesDeclared, HandoffsOk, Grows;
    WorkerStepKeeps(cfg, s, pid, reply, claimNonce, startNonce, s');
    WorkerStepFrame(cfg, s, pid, reply, claimNonce, startNonce, s');
    WorkerKeepsHandoffs(cfg, s, pid, reply, claimNonce, startNonce, s');
    Steady(cfg, s);
    IngressesStayOk(s.stores, s'.stores, s.ingresses);
    CoordsStayOk(cfg, s.stores.jobs, s'.stores.jobs, s.c1, s.c1, s.coords);
    LedgerStays(s.stores.jobs, s'.stores.jobs, s.c1);
    DeclarationsStay(s.c1, s.workers, s'.workers, s.children, s'.children);
  }

  lemma FewerLiveKeeps(jobs: J.Jobs, coords: Coords, workers: Workers, leases: map<IncidentId, Pid>, dead: set<Pid>, pid: Pid)
    requires HandoffsOk(jobs, coords, workers, leases, dead)
    ensures HandoffsOk(jobs, coords, workers, leases, dead + {pid})
  {
    forall p <- workers | p !in dead + {pid} ensures Pending(jobs, workers, p) {
      assert Pending(jobs, workers, p);
    }
  }

  lemma CrashKeeps(cfg: Config, s: Sys, pid: Pid, s': Sys)
    requires Inv(cfg, s) && s' == s.(dead := s.dead + {pid})
    ensures Inv(cfg, s') && Progress(s, s')
  {
    hide StoresOk, IngressesOk, BindingsWitnessed, CoordsOk, WorkersOk, ChildrenOk, LedgerOk, RetirementsClosed, AbsencesDeclared, HandoffsOk, Evolves, Grows;
    Steady(cfg, s);
    FewerLiveKeeps(s.stores.jobs, s.coords, s.workers, s.leases, s.dead, pid);
  }

  // ---- Children and C1

  lemma ContendKeeps(cfg: Config, s: Sys, launch: Ch.Launch, s': Sys)
    requires Inv(cfg, s) && Contends(s, launch, s')
    ensures Inv(cfg, s') && Progress(s, s')
  {
    hide StoresOk, IngressesOk, BindingsWitnessed, CoordsOk, WorkersOk, ChildrenOk, LedgerOk, RetirementsClosed, AbsencesDeclared, HandoffsOk, Evolves, Grows;
    Steady(cfg, s);
    NewChildIsOk(s.c1, s.children, launch);
    DeclarationsStay(s.c1, s.workers, s'.workers, s.children, s'.children);
  }

  lemma ChildKeeps(cfg: Config, s: Sys, child: Nonce, reply: Ch.ChildReply, s': Sys)
    requires Inv(cfg, s) && ChildSteps(s, child, reply, s')
    requires ChildTold(s.c1, cfg.operator, Ch.CallOf(ChildAt(s.children[child])), reply)
    ensures Inv(cfg, s') && Progress(s, s')
  {
    hide ChildFact, ChildTold, StoresOk, IngressesOk, BindingsWitnessed, CoordsOk, WorkersOk, ChildrenOk, LedgerOk, RetirementsClosed, AbsencesDeclared, HandoffsOk, Evolves, Grows;
    ChildHears(s.c1, cfg.operator, Ch.CallOf(ChildAt(s.children[child])), reply);
    ChildStepKeeps(s, child, reply, s');
    Steady(cfg, s);
    DeclarationsStay(s.c1, s.workers, s'.workers, s.children, s'.children);
  }

  lemma ClosedStays(files: R.Files, c1: Ledger, c1': Ledger)
    requires RetirementsClosed(files, c1) && Grows(c1, c1')
    ensures RetirementsClosed(files, c1')
  {
  }

  lemma TransactKeepsAll(cfg: Config, s: Sys, call: C1.Call, at: nat, s': Sys)
    requires Inv(cfg, s) && Transacts(cfg, s, call, at, s')
    ensures Inv(cfg, s') && Progress(s, s')
  {
    hide Commit, MayCommit, StoresOk, IngressesOk, BindingsWitnessed, CoordsOk, WorkersOk, ChildrenOk, LedgerOk, RetirementsClosed, AbsencesDeclared, HandoffsOk, Evolves, Grows;
    TransactKeepsLedger(cfg, s, call, at, s');
    TransactKeepsDeclarations(cfg, s, call, at, s');
    EvolvesReflexively(s.stores);
    ChildrenStayOk(s.c1, s'.c1, s.children);
    CoordsStayOk(cfg, s.stores.jobs, s.stores.jobs, s.c1, s'.c1, s.coords);
    ClosedStays(s.stores.files, s.c1, s'.c1);
  }

  // ---- Every step, every run

  lemma NextKeeps(cfg: Config, s: Sys, a: Action, s': Sys)
    requires Inv(cfg, s) && Next(cfg, s, a, s')
    ensures Inv(cfg, s') && Progress(s, s')
  {
    hide Inv, Progress, AddsPolicy, Delivers, IngressSteps, Recovers, Observes, CoordSteps, CoordTold, Works, WorkerSteps, WorkerTold, Contends, ChildSteps, ChildTold, Transacts;
    match a {
      case AddPolicy(record) => AddPolicyKeeps(cfg, s, record, s');
      case Deliver(event, nonce) => DeliverKeeps(cfg, s, event, nonce, s');
      case IngressStep(nonce, reply, now) => IngressKeeps(cfg, s, nonce, reply, now, s');
      case Recover(key) => RecoverKeeps(cfg, s, key, s');
      case Observe(incident, handoff) => ObserveKeeps(cfg, s, incident, handoff, s');
      case CoordStep(handoff, reply) => CoordKeeps(cfg, s, handoff, reply, s');
      case Work(pid, kind, incident) => WorkKeeps(cfg, s, pid, kind, incident, s');
      case WorkerStep(pid, reply, claimNonce, startNonce) => WorkerKeeps(cfg, s, pid, reply, claimNonce, startNonce, s');
      case Crash(pid) => CrashKeeps(cfg, s, pid, s');
      case Contend(launch) => ContendKeeps(cfg, s, launch, s');
      case ChildStep(child, reply) => ChildKeeps(cfg, s, child, reply, s');
      case Transact(call, at) => TransactKeepsAll(cfg, s, call, at, s');
    }
  }

  lemma EmptyIsFine(cfg: Config)
    ensures Inv(cfg, EMPTY)
  {
  }

  /** The invariant holds in every state of every run. */
  lemma {:induction false} InvariantHolds(cfg: Config, run: seq<Sys>, actions: seq<Action>, i: nat)
    requires IsRun(cfg, run, actions) && i < |run|
    ensures Inv(cfg, run[i])
    decreases i
  {
    hide Inv, Progress, Next;
    if i == 0 {
      EmptyIsFine(cfg);
    } else {
      InvariantHolds(cfg, run, actions, i - 1);
      NextKeeps(cfg, run[i - 1], actions[i - 1], run[i]);
    }
  }

  lemma Healthy(cfg: Config, run: seq<Sys>, actions: seq<Action>, i: nat)
    requires IsRun(cfg, run, actions) && i < |run|
    ensures WellFormed(run[i].c1)
  {
    InvariantHolds(cfg, run, actions, i);
  }

  lemma Advances(cfg: Config, run: seq<Sys>, actions: seq<Action>, i: nat)
    requires IsRun(cfg, run, actions) && i + 1 < |run|
    ensures Progress(run[i], run[i + 1])
  {
    hide Inv, Progress, Next;
    InvariantHolds(cfg, run, actions, i);
    NextKeeps(cfg, run[i], actions[i], run[i + 1]);
  }

  lemma ProgressComposes(a: Sys, b: Sys, c: Sys)
    requires Progress(a, b) && Progress(b, c) && WellFormed(a.c1) && WellFormed(b.c1) && WellFormed(c.c1)
    ensures Progress(a, c)
  {
    EvolvesTransitively(a.stores, b.stores, c.stores);
  }

  lemma ProgressReflexively(s: Sys)
    requires WellFormed(s.c1)
    ensures Progress(s, s)
  {
    EvolvesReflexively(s.stores);
    GrowsReflexively(s.c1);
  }

  /** Nothing durable is ever taken back. */
  lemma {:induction false} NothingIsTakenBack(cfg: Config, run: seq<Sys>, actions: seq<Action>, i: nat, j: nat)
    requires IsRun(cfg, run, actions) && i <= j < |run|
    ensures Progress(run[i], run[j])
    decreases j
  {
    hide *;
    Healthy(cfg, run, actions, i);
    if i == j {
      ProgressReflexively(run[i]);
    } else {
      NothingIsTakenBack(cfg, run, actions, i, j - 1);
      Healthy(cfg, run, actions, j - 1);
      Healthy(cfg, run, actions, j);
      Advances(cfg, run, actions, j - 1);
      ProgressComposes(run[i], run[j - 1], run[j]);
    }
  }
}
