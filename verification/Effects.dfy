/** What coordinator passes, workers and children know of C1 stays true, and what C1 holds
    comes from them. */
module Effects {
  import opened Domain
  import opened C1 = C1Contract
  import opened BrokerLogic
  import opened System
  import opened Custody
  import R = PolicyRegistry
  import J = JobStore
  import Co = Coordinator
  import W = BrokerWorker
  import Ch = BrokerChild
  import CoT = CoordinatorTrace
  import WT = BrokerWorkerTrace
  import ChT = BrokerTrace

  // ---- Logs only get longer

  ghost predicate Longer<K, L, X>(runs: map<K, Run<L, X>>, runs': map<K, Run<L, X>>) {
    forall k <- runs :: k in runs' && runs'[k].launch == runs[k].launch && runs[k].log <= runs'[k].log
  }

  // ---- Children

  ghost predicate StartHeld(c1: Ledger, incident: IncidentId, start: StartId) {
    incident in c1 && c1[incident].start == Some(start)
  }

  ghost predicate TargetHeld(c1: Ledger, incident: IncidentId, target: ClaimTarget) {
    && incident in c1 && c1[incident].owner == target.owner && c1[incident].repo == target.repo
    && c1[incident].request.keyId == target.keyId
  }

  ghost predicate ChildFact(c1: Ledger, x: Ch.Exchange) {
    x.call.Invoke? && x.reply.Answer? ==>
      match x.call.call.op {
        case ConfirmStart(_, start) => Ch.StartIsConfirmed(x.reply) ==> StartHeld(c1, x.call.call.incident, start)
        case ConfirmClaim(_) =>
          ParseClaimConfirmation(x.reply.raw).Accepted? ==> TargetHeld(c1, x.call.call.incident, ParseClaimConfirmation(x.reply.raw).value)
        case Begin(_, nonce) => Ch.BeginCommitted(x.reply.raw) ==> x.reply.raw.reply.detail.start.value.nonce == nonce
        case _ => true
      }
  }

  lemma ChildFactStays(c1: Ledger, c1': Ledger, x: Ch.Exchange)
    requires ChildFact(c1, x) && Grows(c1, c1')
    ensures ChildFact(c1', x)
  {
  }

  lemma ChildHears(c1: Ledger, operator: Did, call: Ch.ChildCall, reply: Ch.ChildReply)
    requires ChildTold(c1, operator, call, reply)
    ensures ChildFact(c1, Ch.Exchange(call, reply))
  {
  }

  ghost predicate ChildOk(c1: Ledger, nonce: Nonce, run: ChildRun) {
    && run.launch.startNonce == nonce && ChT.IsHistory(run.launch, run.log)
    && forall x <- run.log :: ChildFact(c1, x)
  }

  ghost predicate ChildrenOk(c1: Ledger, runs: map<Nonce, ChildRun>) {
    forall n <- runs :: ChildOk(c1, n, runs[n])
  }

  lemma ChildrenStayOk(c1: Ledger, c1': Ledger, runs: map<Nonce, ChildRun>)
    requires ChildrenOk(c1, runs) && Grows(c1, c1')
    ensures ChildrenOk(c1', runs)
  {
    forall n <- runs, x <- runs[n].log ensures ChildFact(c1', x) {
      ChildFactStays(c1, c1', x);
    }
  }

  lemma ChildGoesOn(c1: Ledger, nonce: Nonce, run: ChildRun, reply: Ch.ChildReply)
    requires ChildOk(c1, nonce, run) && !ChildAt(run).pc.Done? && ChildFact(c1, Ch.Exchange(Ch.CallOf(ChildAt(run)), reply))
    ensures ChildOk(c1, nonce, Extended(run, Ch.Exchange(Ch.CallOf(ChildAt(run)), reply)))
  {
    hide Ch.Step, Ch.CallOf, ChildFact, ChT.IsHistory;
    ChT.OneMore(run.launch, run.log, Ch.Exchange(Ch.CallOf(ChildAt(run)), reply));
  }

  lemma ChildStepKeeps(s: Sys, child: Nonce, reply: Ch.ChildReply, s': Sys)
    requires ChildrenOk(s.c1, s.children) && ChildSteps(s, child, reply, s')
    requires ChildFact(s.c1, Ch.Exchange(Ch.CallOf(ChildAt(s.children[child])), reply))
    ensures ChildrenOk(s'.c1, s'.children)
  {
    ChildGoesOn(s.c1, child, s.children[child], reply);
  }

  // ---- Coordinator passes

  ghost predicate CoordFact(c1: Ledger, x: Co.Exchange) {
    x.call.Ask? && x.call.call.op.Get? && Co.FoundReply(x.reply) ==>
      var d := x.reply.raw.reply.detail;
      && d.authority.Some? && x.call.call.incident in c1 && Keeps(d.authority.value, c1[x.call.call.incident])
      && x.reply.raw.reply.state == Some(d.authority.value.status)
  }

  lemma CoordFactStays(c1: Ledger, c1': Ledger, x: Co.Exchange)
    requires CoordFact(c1, x) && Grows(c1, c1')
    ensures CoordFact(c1', x)
  {
  }

  lemma CoordHears(c1: Ledger, operator: Did, call: Co.CoordCall, reply: Co.CoordReply)
    requires WellFormed(c1) && CoordTold(c1, operator, call, reply)
    ensures CoordFact(c1, Co.Exchange(call, reply))
  {
    if call.Ask? && call.call.op.Get? && Co.FoundReply(reply) {
      var base: Option<Authority>, now: nat :| reply.raw.reply == ReplyFrom(base, call.call, operator, now) && base == Committed(c1, call.call.incident);
      ReadsTellTheRecord(base, call.call, operator, now);
    }
  }

  ghost predicate CoordOk(cfg: Config, jobs: J.Jobs, c1: Ledger, handoff: HandoffId, run: CoordRun) {
    var job := run.launch.job;
    && run.launch == Co.Launch(job, cfg.operator, cfg.remediation, cfg.owner, cfg.repo, handoff)
    && job.frozen.incident in jobs && jobs[job.frozen.incident].frozen == job.frozen
    && CoT.IsHistory(run.launch, run.log)
    && forall x <- run.log :: CoordFact(c1, x)
  }

  ghost predicate CoordsOk(cfg: Config, jobs: J.Jobs, c1: Ledger, runs: map<HandoffId, CoordRun>) {
    forall h <- runs :: CoordOk(cfg, jobs, c1, h, runs[h])
  }

  lemma CoordsStayOk(cfg: Config, jobs: J.Jobs, jobs': J.Jobs, c1: Ledger, c1': Ledger, runs: map<HandoffId, CoordRun>)
    requires CoordsOk(cfg, jobs, c1, runs) && J.Persists(jobs, jobs') && Grows(c1, c1')
    ensures CoordsOk(cfg, jobs', c1', runs)
  {
    forall h <- runs, x <- runs[h].log ensures CoordFact(c1', x) {
      CoordFactStays(c1, c1', x);
    }
  }

  /** A coordinator's call to retire is backed by a CLOSED record. */
  lemma RetirementIsBacked(cfg: Config, st: Stores, c1: Ledger, handoff: HandoffId, run: CoordRun)
    requires CoordOk(cfg, st.jobs, c1, handoff, run) && !CoordAt(run).pc.Finished? && Co.CallOf(CoordAt(run)).RetirePolicy?
    ensures var call := Co.CallOf(CoordAt(run)); call.incident in c1 && c1[call.incident].status == Closed
  {
    CoT.RetirementIsWitnessed(run.launch, run.log);
    var x := run.log[|run.log| - 1];
    assert x in run.log && CoordFact(c1, x);
  }

  ghost predicate RetirementsClosed(files: R.Files, c1: Ledger) {
    forall p <- files.retirements :: files.retirements[p].incident in c1 && c1[files.retirements[p].incident].status == Closed
  }

  lemma JobMoveKeeps(st: Stores, incident: IncidentId, patch: J.Patch, allow: bool, stored: Option<J.Job>, jobs': J.Jobs)
    requires StoresOk(st) && JobMoves(st.jobs, incident, patch, allow, stored, jobs')
    ensures StoresOk(st.(jobs := jobs')) && Evolves(st, st.(jobs := jobs'))
  {
    UpdateKeeps(st, incident, patch, allow);
    EvolvesReflexively(st);
    assert st.(jobs := st.jobs) == st;
  }

  lemma RetiringKeepsClosed(files: R.Files, c1: Ledger, p: PolicyRef, incident: IncidentId)
    requires RetirementsClosed(files, c1) && incident in c1 && c1[incident].status == Closed
    ensures RetirementsClosed(R.RetireResult(files, p, incident).0, c1)
  {
  }

  lemma CoordMoveKeeps(st: Stores, c1: Ledger, call: Co.CoordCall, reply: Co.CoordReply, st': Stores)
    requires StoresOk(st) && RetirementsClosed(st.files, c1) && CoordMoves(st, call, reply, st')
    requires call.RetirePolicy? ==> call.incident in c1 && c1[call.incident].status == Closed
    ensures StoresOk(st') && Evolves(st, st') && RetirementsClosed(st'.files, c1)
  {
    EvolvesReflexively(st);
    match call {
      case Ask(_) =>
      case UpdateJob(incident, patch, allow) =>
        JobMoveKeeps(st, incident, patch, allow, if reply.Stored? then Some(reply.job) else None, st'.jobs);
      case RetirePolicy(p, incident) =>
        RetireKeeps(st, p, incident);
        RetiringKeepsClosed(st.files, c1, p, incident);
    }
  }

  lemma CoordStepKeeps(cfg: Config, s: Sys, handoff: HandoffId, reply: Co.CoordReply, s': Sys)
    requires StoresOk(s.stores) && CoordsOk(cfg, s.stores.jobs, s.c1, s.coords) && RetirementsClosed(s.stores.files, s.c1)
    requires CoordSteps(s, handoff, reply, s') && CoordFact(s.c1, Co.Exchange(Co.CallOf(CoordAt(s.coords[handoff])), reply))
    ensures StoresOk(s'.stores) && Evolves(s.stores, s'.stores) && RetirementsClosed(s'.stores.files, s'.c1)
  {
    hide StoresOk, RetirementsClosed, Evolves, CoordOk, CoordFact, CoordMoves;
    var run := s.coords[handoff];
    if Co.CallOf(CoordAt(run)).RetirePolicy? {
      RetirementIsBacked(cfg, s.stores, s.c1, handoff, run);
    }
    CoordMoveKeeps(s.stores, s.c1, Co.CallOf(CoordAt(run)), reply, s'.stores);
  }

  lemma CoordGoesOn(cfg: Config, jobs: J.Jobs, c1: Ledger, handoff: HandoffId, run: CoordRun, reply: Co.CoordReply)
    requires CoordOk(cfg, jobs, c1, handoff, run) && !CoordAt(run).pc.Finished?
    requires CoordFact(c1, Co.Exchange(Co.CallOf(CoordAt(run)), reply))
    ensures CoordOk(cfg, jobs, c1, handoff, Extended(run, Co.Exchange(Co.CallOf(CoordAt(run)), reply)))
  {
    hide Co.Step, Co.CallOf, CoordFact, CoT.IsHistory;
    CoT.OneMore(run.launch, run.log, Co.Exchange(Co.CallOf(CoordAt(run)), reply));
  }

  lemma CoordStepStaysOk(cfg: Config, s: Sys, handoff: HandoffId, reply: Co.CoordReply, s': Sys)
    requires WellFormed(s.c1) && CoordsOk(cfg, s.stores.jobs, s.c1, s.coords) && J.Persists(s.stores.jobs, s'.stores.jobs)
    requires CoordSteps(s, handoff, reply, s') && CoordFact(s.c1, Co.Exchange(Co.CallOf(CoordAt(s.coords[handoff])), reply))
    ensures CoordsOk(cfg, s'.stores.jobs, s'.c1, s'.coords)
  {
    GrowsReflexively(s.c1);
    CoordsStayOk(cfg, s.stores.jobs, s'.stores.jobs, s.c1, s.c1, s.coords);
    CoordGoesOn(cfg, s'.stores.jobs, s.c1, handoff, s.coords[handoff], reply);
  }

  lemma GrowsReflexively(c1: Ledger)
    requires WellFormed(c1)
    ensures Grows(c1, c1)
  {
  }

  // ---- Workers

  ghost predicate WorkerFact(cfg: Config, jobs: J.Jobs, x: W.Exchange) {
    && (x.call.ReadJob? && x.reply.Fetched? ==> x.call.incident in jobs && jobs[x.call.incident].frozen == x.reply.job.frozen)
    && (x.call.VerifyTarget? && x.reply.Verified? ==> VerifiedAt(cfg, x.call.keyId, x.reply.absent, x.reply.log))
  }

  ghost predicate WorkerOk(cfg: Config, jobs: J.Jobs, run: WorkerRun) {
    && run.launch.broker == cfg.broker
    && WT.IsHistory(run.launch, run.log)
    && forall x <- run.log :: WorkerFact(cfg, jobs, x)
  }

  ghost predicate WorkersOk(cfg: Config, jobs: J.Jobs, runs: map<Pid, WorkerRun>) {
    forall p <- runs :: WorkerOk(cfg, jobs, runs[p])
  }

  lemma WorkersStayOk(cfg: Config, jobs: J.Jobs, jobs': J.Jobs, runs: map<Pid, WorkerRun>)
    requires WorkersOk(cfg, jobs, runs) && J.Persists(jobs, jobs')
    ensures WorkersOk(cfg, jobs', runs)
  {
    forall p <- runs, x <- runs[p].log ensures WorkerFact(cfg, jobs', x) {
      assert WorkerFact(cfg, jobs, x);
    }
  }

  /** What a worker's move leaves alone. */
  lemma WorkerMoveFrame(cfg: Config, s: Sys, pid: Pid, call: W.WorkerCall, reply: W.WorkerReply, claimNonce: Nonce, startNonce: Nonce, s': Sys)
    requires WorkerMoves(cfg, s, pid, call, reply, claimNonce, startNonce, s')
    ensures s'.stores == s.stores.(jobs := s'.stores.jobs) && s'.c1 == s.c1
    ensures s'.ingresses == s.ingresses && s'.coords == s.coords && s'.workers == s.workers && s'.dead == s.dead
    ensures !call.UpdateJob? ==> s'.stores.jobs == s.stores.jobs
    ensures s'.children == s.children ||
            (call.StartChild? && startNonce !in s.children && s'.children == s.children[startNonce := Run(ChildLaunch(cfg, call.job, claimNonce, startNonce), [])])
    ensures WorkerFact(cfg, s.stores.jobs, W.Exchange(call, reply))
  {
  }

  lemma NewChildIsOk(c1: Ledger, runs: map<Nonce, ChildRun>, launch: Ch.Launch)
    requires ChildrenOk(c1, runs) && launch.startNonce !in runs
    ensures ChildrenOk(c1, runs[launch.startNonce := Run(launch, [])])
  {
  }

  lemma WorkerStepFrame(cfg: Config, s: Sys, pid: Pid, reply: W.WorkerReply, claimNonce: Nonce, startNonce: Nonce, s': Sys)
    requires WorkerSteps(cfg, s, pid, reply, claimNonce, startNonce, s')
    ensures s'.stores == s.stores.(jobs := s'.stores.jobs) && s'.c1 == s.c1 && s'.dead == s.dead
    ensures s'.ingresses == s.ingresses && s'.coords == s.coords && Longer(s.workers, s'.workers) && Longer(s.children, s'.children)
    ensures WorkerFact(cfg, s.stores.jobs, W.Exchange(W.CallOf(WorkerAt(s.workers[pid])), reply))
  {
    WorkerMoveFrame(cfg, s, pid, W.CallOf(WorkerAt(s.workers[pid])), reply, claimNonce, startNonce, s'.(workers := s.workers));
  }

  lemma WorkerMoveKeepsStores(cfg: Config, s: Sys, pid: Pid, call: W.WorkerCall, reply: W.WorkerReply, claimNonce: Nonce, startNonce: Nonce, s': Sys)
    requires StoresOk(s.stores) && WorkerMoves(cfg, s, pid, call, reply, claimNonce, startNonce, s')
    ensures StoresOk(s'.stores) && Evolves(s.stores, s'.stores)
  {
    WorkerMoveFrame(cfg, s, pid, call, reply, claimNonce, startNonce, s');
    if call.UpdateJob? {
      JobMoveKeeps(s.stores, call.incident, call.patch, call.allowConflict, if reply.Stored? then Some(reply.job) else None, s'.stores.jobs);
    } else {
      EvolvesReflexively(s.stores);
    }
  }

  lemma WorkerMoveKeepsChildren(cfg: Config, s: Sys, pid: Pid, call: W.WorkerCall, reply: W.WorkerReply, claimNonce: Nonce, startNonce: Nonce, s': Sys)
    requires ChildrenOk(s.c1, s.children) && WorkerMoves(cfg, s, pid, call, reply, claimNonce, startNonce, s')
    ensures ChildrenOk(s'.c1, s'.children)
  {
    WorkerMoveFrame(cfg, s, pid, call, reply, claimNonce, startNonce, s');
    if call.StartChild? && startNonce !in s.children {
      NewChildIsOk(s.c1, s.children, ChildLaunch(cfg, call.job, claimNonce, startNonce));
    }
  }

  lemma WorkerGoesOn(cfg: Config, jobs: J.Jobs, run: WorkerRun, reply: W.WorkerReply)
    requires WorkerOk(cfg, jobs, run) && !WorkerAt(run).pc.Ended?
    requires WorkerFact(cfg, jobs, W.Exchange(W.CallOf(WorkerAt(run)), reply))
    ensures WorkerOk(cfg, jobs, Extended(run, W.Exchange(W.CallOf(WorkerAt(run)), reply)))
  {
    hide W.Step, W.CallOf, WorkerFact, WT.IsHistory;
    WT.OneMore(run.launch, run.log, W.Exchange(W.CallOf(WorkerAt(run)), reply));
  }

  lemma WorkerStepKeeps(cfg: Config, s: Sys, pid: Pid, reply: W.WorkerReply, claimNonce: Nonce, startNonce: Nonce, s': Sys)
    requires StoresOk(s.stores) && ChildrenOk(s.c1, s.children) && WorkersOk(cfg, s.stores.jobs, s.workers)
    requires WorkerSteps(cfg, s, pid, reply, claimNonce, startNonce, s')
    ensures StoresOk(s'.stores) && Evolves(s.stores, s'.stores) && ChildrenOk(s'.c1, s'.children)
    ensures WorkersOk(cfg, s'.stores.jobs, s'.workers)
  {
    var run := s.workers[pid];
    var call := W.CallOf(WorkerAt(run));
    WorkerMoveKeepsStores(cfg, s, pid, call, reply, claimNonce, startNonce, s'.(workers := s.workers));
    WorkerMoveKeepsChildren(cfg, s, pid, call, reply, claimNonce, startNonce, s'.(workers := s.workers));
    WorkerStepFrame(cfg, s, pid, reply, claimNonce, startNonce, s');
    WorkersStayOk(cfg, s.stores.jobs, s'.stores.jobs, s.workers);
    assert WorkerFact(cfg, s'.stores.jobs, W.Exchange(call, reply));
    WorkerGoesOn(cfg, s'.stores.jobs, run, reply);
  }

  // ---- C1

  ghost predicate DeclaresAbsence(call: C1.Call, incident: IncidentId) {
    call.incident == incident && (call.op.Finalize? || call.op.Reconcile?) && call.op.verdict == VerifiedAbsent
  }

  ghost predicate Declared(workers: map<Pid, WorkerRun>, children: map<Nonce, ChildRun>, incident: IncidentId) {
    exists call :: DeclaresAbsence(call, incident) && (SentByWorker(workers, call) || SentByChild(children, call))
  }

  ghost predicate AbsencesDeclared(c1: Ledger, workers: map<Pid, WorkerRun>, children: map<Nonce, ChildRun>) {
    forall i <- c1 :: c1[i].final == Some(VerifiedAbsent) ==> Declared(workers, children, i)
  }

  ghost predicate LedgerOk(jobs: J.Jobs, c1: Ledger) { WellFormed(c1) && LedgerBacked(jobs, c1) }

  lemma CoordSpeaksForItsJob(l: Co.Launch, h: CoT.History, n: nat, call: C1.Call)
    requires CoT.Issues(l, h, n, Co.Ask(call))
    ensures call.incident == l.job.frozen.incident && !call.op.Finalize? && !call.op.Reconcile?
    ensures call.op.Create? ==> call.op.request == l.job.frozen.request
  {
  }

  lemma WorkerOnlyReconciles(workers: map<Pid, WorkerRun>, call: C1.Call)
    requires SentByWorker(workers, call)
    ensures call.op.Reconcile?
  {
  }

  /** A creation that commits is of an accepted job's frozen request. */
  lemma CreationIsTheJobs(cfg: Config, s: Sys, call: C1.Call)
    requires CoordsOk(cfg, s.stores.jobs, s.c1, s.coords) && call.op.Create? && call.caller == cfg.operator && MayCommit(cfg, s, call)
    ensures call.incident in s.stores.jobs && call.op.request == s.stores.jobs[call.incident].frozen.request
  {
    if SentByCoord(s.coords, call) {
      var h, n: nat :| h in s.coords && CoT.Issues(s.coords[h].launch, s.coords[h].log, n, Co.Ask(call));
      CoordSpeaksForItsJob(s.coords[h].launch, s.coords[h].log, n, call);
    } else if SentByWorker(s.workers, call) {
      WorkerOnlyReconciles(s.workers, call);
    } else if SentByChild(s.children, call) {
      var p, n: nat :| p in s.children && ChT.Issues(s.children[p].launch, s.children[p].log, n, Ch.Invoke(call));
      ChT.SpeaksForItself(s.children[p].launch, s.children[p].log, n, Ch.Invoke(call));
    }
  }

  lemma TransactKeepsLedger(cfg: Config, s: Sys, call: C1.Call, at: nat, s': Sys)
    requires CoordsOk(cfg, s.stores.jobs, s.c1, s.coords) && LedgerOk(s.stores.jobs, s.c1) && Transacts(cfg, s, call, at, s')
    ensures LedgerOk(s'.stores.jobs, s'.c1) && Grows(s.c1, s'.c1)
  {
    hide Commit, C1.Transact, CoordsOk, MayCommit, ValidShape, ReplyFrom;
    CommitKeeps(s.c1, call, cfg.operator, at);
    CommitTouchesOne(s.c1, call, cfg.operator, at);
    if call.incident in s.c1 {
      TransactKeeps(s.c1[call.incident], call, at);
    } else if call.incident in s'.c1 {
      CreationIsTheJobs(cfg, s, call);
    }
  }

  lemma VerdictsAreOurs(cfg: Config, s: Sys, call: C1.Call)
    requires (call.op.Finalize? || call.op.Reconcile?) && MayCommit(cfg, s, call)
    ensures SentByWorker(s.workers, call) || SentByChild(s.children, call)
  {
    if SentByCoord(s.coords, call) {
      var h, n: nat :| h in s.coords && CoT.Issues(s.coords[h].launch, s.coords[h].log, n, Co.Ask(call));
      CoordSpeaksForItsJob(s.coords[h].launch, s.coords[h].log, n, call);
    }
  }

  lemma TransactKeepsDeclarations(cfg: Config, s: Sys, call: C1.Call, at: nat, s': Sys)
    requires AbsencesDeclared(s.c1, s.workers, s.children) && Transacts(cfg, s, call, at, s')
    ensures AbsencesDeclared(s'.c1, s.workers, s.children)
  {
    CommitTouchesOne(s.c1, call, cfg.operator, at);
    forall i <- s'.c1 | s'.c1[i].final == Some(VerifiedAbsent) ensures Declared(s.workers, s.children, i) {
      if !(i in s.c1 && s.c1[i].final == Some(VerifiedAbsent)) {
        AbsenceIsDeclared(s.c1[i], call, at);
        VerdictsAreOurs(cfg, s, call);
        assert DeclaresAbsence(call, i);
      }
    }
  }

  lemma WorkerSendsStay(workers: map<Pid, WorkerRun>, workers': map<Pid, WorkerRun>, call: C1.Call)
    requires SentByWorker(workers, call) && Longer(workers, workers')
    ensures SentByWorker(workers', call)
  {
    var p, n: nat :| p in workers && WT.Issues(workers[p].launch, workers[p].log, n, W.Ask(call));
    assert workers'[p].log[..n] == workers[p].log[..n];
    assert WT.Issues(workers'[p].launch, workers'[p].log, n, W.Ask(call));
  }

  lemma ChildSendsStay(children: map<Nonce, ChildRun>, children': map<Nonce, ChildRun>, call: C1.Call)
    requires SentByChild(children, call) && Longer(children, children')
    ensures SentByChild(children', call)
  {
    var p, n: nat :| p in children && ChT.Issues(children[p].launch, children[p].log, n, Ch.Invoke(call));
    assert children'[p].log[..n] == children[p].log[..n];
    assert ChT.Issues(children'[p].launch, children'[p].log, n, Ch.Invoke(call));
  }

  lemma DeclarationsStay(c1: Ledger, workers: map<Pid, WorkerRun>, workers': map<Pid, WorkerRun>, children: map<Nonce, ChildRun>, children': map<Nonce, ChildRun>)
    requires AbsencesDeclared(c1, workers, children) && Longer(workers, workers') && Longer(children, children')
    ensures AbsencesDeclared(c1, workers', children')
  {
    forall i <- c1 | c1[i].final == Some(VerifiedAbsent) ensures Declared(workers', children', i) {
      var call :| DeclaresAbsence(call, i) && (SentByWorker(workers, call) || SentByChild(children, call));
      if SentByWorker(workers, call) {
        WorkerSendsStay(workers, workers', call);
      } else {
        ChildSendsStay(children, children', call);
      }
    }
  }
}
