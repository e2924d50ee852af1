/** What the conversations of the single programs mean over whole runs: for C1's window, for
    pushes without authority, for recorded effects and for ended incidents. */
module Consequences {
  import opened Domain
  import opened C1 = C1Contract
  import opened System
  import opened Custody
  import opened Effects
  import opened Handoffs
  import opened Invariant
  import Laws = C1Laws
  import Safety
  import Aftermath
  import E = PushEvidence
  import P = PushPolicy
  import R = PolicyRegistry
  import D = Dedupe
  import J = JobStore
  import PI = PushIngress
  import Co = Coordinator
  import W = BrokerWorker
  import Ch = BrokerChild
  import PIT = PushIngressTrace
  import CoT = CoordinatorTrace
  import WT = BrokerWorkerTrace
  import ChT = BrokerTrace
  import BC = BrokerConversation
  import CC = CoordinatorConversation
  import WC = WorkerConversation
  import IC = IngressConversation

  // ---- The window of an incident

  lemma OnlyTransactionsChangeC1(cfg: Config, s: Sys, a: Action, s': Sys)
    requires Next(cfg, s, a, s') && !a.Transact?
    ensures s'.c1 == s.c1
  {
    hide WorkerSteps, WorkerTold, CoordMoves, CoordTold, IngressMoves, ChildTold;
    match a {
      case WorkerStep(pid, reply, claimNonce, startNonce) => WorkerStepFrame(cfg, s, pid, reply, claimNonce, startNonce, s');
      case _ =>
    }
  }

  /** Step `a` put this start on record, inside the window the incident was created with. */
  ghost predicate StartsNow(s: Sys, a: Action, incident: IncidentId, later: Authority) {
    && a.Transact? && incident in s.c1 && later.start.Some?
    && Laws.StartsEffect(s.c1, incident, a.call, a.at, later.start.value)
    && later.createdAt <= a.at < later.expiresAt
  }

  lemma TransactionStarts(cfg: Config, s: Sys, a: Action, s': Sys, incident: IncidentId)
    requires Next(cfg, s, a, s') && WellFormed(s.c1) && incident in s'.c1 && s'.c1[incident].start.Some?
    requires incident in s.c1 ==> s.c1[incident].start != s'.c1[incident].start
    ensures StartsNow(s, a, incident, s'.c1[incident])
  {
    if !a.Transact? {
      OnlyTransactionsChangeC1(cfg, s, a, s');
    } else {
      CommitIs(cfg, s, a, s');
      Laws.CommitStarts(s.c1, a.call, cfg.operator, a.at, incident);
      CommitKeeps(s.c1, a.call, cfg.operator, a.at);
    }
  }

  lemma CommitIs(cfg: Config, s: Sys, a: Action, s': Sys)
    requires Next(cfg, s, a, s') && a.Transact?
    ensures s'.c1 == Commit(s.c1, a.call, cfg.operator, a.at)
  {
    hide Commit, MayCommit;
  }

  /** In every run: the window of an incident stays as it was created, and the effect on record
      was started by the broker's own begin, for the claim then on record, inside that window. */
  lemma {:induction false} EffectsStartInTime(cfg: Config, run: seq<Sys>, actions: seq<Action>, i: nat, incident: IncidentId)
    requires IsRun(cfg, run, actions) && i < |run| && incident in run[i].c1 && run[i].c1[incident].start.Some?
    ensures exists j | 0 <= j < i :: StartsNow(run[j], actions[j], incident, run[i].c1[incident])
    decreases i
  {
    hide Next, StartsNow, WellFormed, Progress;
    if i > 0 {
      Healthy(cfg, run, actions, i - 1);
      RunSteps(cfg, run, actions, i - 1);
      if incident in run[i - 1].c1 && run[i - 1].c1[incident].start == run[i].c1[incident].start {
        EffectsStartInTime(cfg, run, actions, i - 1, incident);
        var j :| 0 <= j < i - 1 && StartsNow(run[j], actions[j], incident, run[i - 1].c1[incident]);
        WindowStays(cfg, run, actions, i - 1, i, incident);
        SameWindow(run[j], actions[j], incident, run[i - 1].c1[incident], run[i].c1[incident]);
      } else {
        TransactionStarts(cfg, run[i - 1], actions[i - 1], run[i], incident);
      }
    } else {
      NothingAtFirst(cfg, run, actions);
    }
  }

  lemma SameWindow(s: Sys, a: Action, incident: IncidentId, later: Authority, still: Authority)
    requires StartsNow(s, a, incident, later) && still.start == later.start
    requires still.createdAt == later.createdAt && still.expiresAt == later.expiresAt
    ensures StartsNow(s, a, incident, still)
  {
  }

  lemma RunSteps(cfg: Config, run: seq<Sys>, actions: seq<Action>, i: nat)
    requires IsRun(cfg, run, actions) && i + 1 < |run|
    ensures Next(cfg, run[i], actions[i], run[i + 1])
  {
    hide Next;
  }

  lemma NothingAtFirst(cfg: Config, run: seq<Sys>, actions: seq<Action>)
    requires IsRun(cfg, run, actions)
    ensures run[0].c1 == map[] && run[0].coords == map[] && run[0].workers == map[]
  {
    hide Next;
  }

  lemma WindowStays(cfg: Config, run: seq<Sys>, actions: seq<Action>, i: nat, j: nat, incident: IncidentId)
    requires IsRun(cfg, run, actions) && i <= j < |run| && incident in run[i].c1
    ensures incident in run[j].c1
    ensures run[j].c1[incident].createdAt == run[i].c1[incident].createdAt && run[j].c1[incident].expiresAt == run[i].c1[incident].expiresAt
    ensures run[i].c1[incident].status in {Closed, Expired} ==> run[j].c1[incident] == run[i].c1[incident]
  {
    hide IsRun;
    Safety.JobsAndAuthorityOnlyAdvance(cfg, run, actions, i, j, incident);
  }

  // ---- Pushes without authority

  lemma BindingIsNotBarred(st: Stores, ingresses: map<Nonce, IngressRun>, p: PolicyRef)
    requires IngressesOk(st, ingresses) && BindingsWitnessed(st.files, ingresses) && p in st.files.bindings
    ensures !IC.IsBarred(st.files.bindings[p].event.body)
  {
    hide IC.IsBarred, PIT.IsHistory, PIT.Issues, IngressFact;
    var b := st.files.bindings[p];
    assert Witnessed(ingresses, b);
    var n, k: nat, input :| n in ingresses && PIT.Issues(ingresses[n].launch, ingresses[n].log, k, PI.Bind(input)) && R.BindingOf(input) == b && input.policy == b.content;
    assert IngressOk(st, n, ingresses[n]);
    BoundEvent(ingresses[n].launch, ingresses[n].log, k, input);
  }

  lemma BoundEvent(l: PI.Launch, h: PIT.History, k: nat, input: R.BindInput)
    requires PIT.IsHistory(l, h) && PIT.Issues(l, h, k, PI.Bind(input))
    ensures input.event == l.event && !IC.IsBarred(l.event.body)
  {
    hide IC.IsBarred, PIT.IsHistory, PI.CallOf, PIT.At;
    if IC.IsBarred(l.event.body) {
      IC.BarredIsNotRead(l, h, k, PI.Bind(input));
    }
    PIT.PrefixIsHistory(l, h, k);
    PIT.BindIsGrounded(l, h[..k]);
  }

  lemma StoresAreNotBarred(st: Stores, ingresses: map<Nonce, IngressRun>)
    requires StoresOk(st) && IngressesOk(st, ingresses) && BindingsWitnessed(st.files, ingresses)
    ensures forall p <- st.files.bindings :: !IC.IsBarred(st.files.bindings[p].event.body)
    ensures forall k <- st.receipts :: st.receipts[k].state.Accepted? ==> !IC.IsBarred(st.receipts[k].event.body)
    ensures forall x <- st.jobs :: !IC.IsBarred(x.body)
  {
    hide StoresOk, IngressesOk, BindingsWitnessed, IC.IsBarred;
    forall p <- st.files.bindings ensures !IC.IsBarred(st.files.bindings[p].event.body) {
      BindingIsNotBarred(st, ingresses, p);
    }
    forall k <- st.receipts | st.receipts[k].state.Accepted? ensures !IC.IsBarred(st.receipts[k].event.body) {
      Safety.AcceptedIsBound(st, k);
    }
    forall x <- st.jobs ensures !IC.IsBarred(x.body) {
      Safety.JobIsFounded(st, x);
    }
  }

  /** In every run, no binding, accepted receipt, job or C1 incident comes from a push that
      creates, deletes or forces the ref, or is not between two different commits. */
  lemma AuthorityIsEligible(cfg: Config, run: seq<Sys>, actions: seq<Action>, i: nat)
    requires IsRun(cfg, run, actions) && i < |run|
    ensures forall p <- run[i].stores.files.bindings :: !IC.IsBarred(run[i].stores.files.bindings[p].event.body)
    ensures forall k <- run[i].stores.receipts :: run[i].stores.receipts[k].state.Accepted? ==> !IC.IsBarred(run[i].stores.receipts[k].event.body)
    ensures forall x <- run[i].stores.jobs :: !IC.IsBarred(x.body)
    ensures forall x <- run[i].c1 :: !IC.IsBarred(x.body)
  {
    hide IsRun, StoresOk, BindingsWitnessed, IngressesOk, CoordsOk, WorkersOk, ChildrenOk, RetirementsClosed, AbsencesDeclared, HandoffsOk, IC.IsBarred;
    InvariantHolds(cfg, run, actions, i);
    StoresAreNotBarred(run[i].stores, run[i].ingresses);
    LedgerHasJobs(run[i].stores.jobs, run[i].c1);
  }

  lemma LedgerHasJobs(jobs: J.Jobs, c1: Ledger)
    requires LedgerOk(jobs, c1)
    ensures forall x <- c1 :: x in jobs && c1[x].request == jobs[x].frozen.request
  {
  }

  // ---- What a job freezes

  /** In every run each policy on file is of the one source, path and action, with a title and a
      read-only key; and each job and C1 incident names exactly what its policy says. */
  lemma JobsFreezeThePolicy(cfg: Config, run: seq<Sys>, actions: seq<Action>, i: nat, incident: IncidentId)
    requires IsRun(cfg, run, actions) && i < |run| && incident in run[i].stores.jobs
    ensures incident.policy in run[i].stores.files.policies
    ensures
      var p := run[i].stores.files.policies[incident.policy].policy;
      && p.id == incident.policy.id && p.version == incident.policy.version
      && p.source == PUSH_SOURCE && p.path == SECRET_PATH && p.revokesDeployKey && p.readOnly && p.title != ""
      && 0 < p.keyId && 0 < p.ttlSecs <= 86400 && p.provenance != None && p.provenance.value.live && p.provenance.value.enabledBeforeEvent
      && run[i].stores.jobs[incident].frozen == J.Frozen(
           incident, run[i].stores.jobs[incident].frozen.receiptKey, incident.policy, p.keyId, p.title,
           CreateRequest(incident, p.remediation, p.broker, p.keyId, p.ttlSecs))
      && (incident in run[i].c1 ==> run[i].c1[incident].request == CreateRequest(incident, p.remediation, p.broker, p.keyId, p.ttlSecs))
  {
    hide IsRun, StoresOk, BindingsWitnessed, IngressesOk, CoordsOk, WorkersOk, ChildrenOk, RetirementsClosed, AbsencesDeclared, HandoffsOk;
    InvariantHolds(cfg, run, actions, i);
    FrozenPolicy(run[i].stores, incident);
    LedgerHasJobs(run[i].stores.jobs, run[i].c1);
  }

  lemma FrozenPolicy(st: Stores, incident: IncidentId)
    requires StoresOk(st) && incident in st.jobs
    ensures incident.policy in st.files.policies
    ensures
      var p := st.files.policies[incident.policy].policy;
      && P.IsLive(p) && P.RefOf(p) == incident.policy
      && st.jobs[incident].frozen == J.Frozen(
           incident, st.jobs[incident].frozen.receiptKey, incident.policy, p.keyId, p.title,
           CreateRequest(incident, p.remediation, p.broker, p.keyId, p.ttlSecs))
  {
    Safety.JobIsFounded(st, incident);
    assert R.ValidRecord(st.files.policies[incident.policy]);
  }

  // ---- The DELETE of a run

  /** In every run, every DELETE stands behind the child's whole conversation, up to the key read
      and listed there, read-only and under the frozen title. */
  lemma DeletesAreChecked(cfg: Config, run: seq<Sys>, actions: seq<Action>, i: nat, child: Nonce, n: nat, call: Ch.ChildCall)
    requires IsRun(cfg, run, actions) && i < |run| && child in run[i].children
    requires ChT.Issues(run[i].children[child].launch, run[i].children[child].log, n, call) && call.DeleteKey?
    ensures
      var r := run[i].children[child];
      n <= |r.log| && exists d: BC.Deed :: BC.MayDelete(r.launch, r.log[..n], d) && call == Ch.DeleteKey(d.token, r.launch.owner, r.launch.repo, d.key)
  {
    hide IsRun, ChT.IsHistory, ChT.At, Ch.CallOf, BC.MayDelete, ChildFact;
    Safety.ChildrenAreOk(cfg, run, actions, i);
    var r := run[i].children[child];
    ChildHistory(run[i].c1, run[i].children, child);
    ChT.PrefixIsHistory(r.launch, r.log, n);
    BC.DeletesExactly(r.launch, r.log[..n], call);
  }

  lemma ChildHistory(c1: Ledger, children: map<Nonce, ChildRun>, child: Nonce)
    requires ChildrenOk(c1, children) && child in children
    ensures ChT.IsHistory(children[child].launch, children[child].log)
  {
    hide ChT.IsHistory, ChildFact;
    assert ChildOk(c1, child, children[child]);
  }

  // ---- After a recorded effect

  /** Worker `pid` is about to record a child that says its effect started. */
  ghost predicate RecordsStart(s: Sys, pid: Pid, reply: W.WorkerReply) {
    && pid in s.workers && s.workers[pid].log != []
    && var x := s.workers[pid].log[|s.workers[pid].log| - 1];
       x.call.AwaitChild? && x.reply.ChildEnded? && (x.reply.result.startConfirmed || x.reply.result.start.Some?) && reply.Stored?
  }

  lemma RecordingAsks(run: WorkerRun)
    requires WT.IsHistory(run.launch, run.log) && run.log != []
    requires
      var x := run.log[|run.log| - 1];
      x.call.AwaitChild? && x.reply.ChildEnded? && (x.reply.result.startConfirmed || x.reply.result.start.Some?)
    ensures !WorkerAt(run).pc.Ended?
    ensures
      var call := W.CallOf(WorkerAt(run));
      call.UpdateJob? && call.incident == run.launch.incident && call.patch.state.Some? && J.Final(call.patch.state.value)
  {
    hide WT.IsHistory, WT.At, W.Step, W.CallOf, WC.HasResult;
    WC.ResultsAreRecorded(run.launch, run.log);
  }

  lemma StoredIsFinal(jobs: J.Jobs, incident: IncidentId, patch: J.Patch, allow: bool, stored: J.Job, jobs': J.Jobs)
    requires JobMoves(jobs, incident, patch, allow, Some(stored), jobs') && patch.state.Some? && J.Final(patch.state.value)
    ensures incident in jobs' && J.Final(jobs'[incident].state)
  {
    hide J.CanTransition;
  }

  lemma RecordedStartIsFinal(cfg: Config, s: Sys, pid: Pid, reply: W.WorkerReply, claimNonce: Nonce, startNonce: Nonce, s': Sys)
    requires WorkersOk(cfg, s.stores.jobs, s.workers) && WorkerSteps(cfg, s, pid, reply, claimNonce, startNonce, s') && RecordsStart(s, pid, reply)
    ensures s.workers[pid].launch.incident in s'.stores.jobs && J.Final(s'.stores.jobs[s.workers[pid].launch.incident].state)
  {
    hide WT.IsHistory, WT.At, W.Step, W.CallOf, WorkerFact, VerifiedAt, JobMoves, J.Final;
    var run := s.workers[pid];
    assert WorkerOk(cfg, s.stores.jobs, run);
    RecordingAsks(run);
    var call := W.CallOf(WorkerAt(run));
    StoredIsFinal(s.stores.jobs, call.incident, call.patch, call.allowConflict, reply.job, s'.stores.jobs);
  }

  lemma StepIsRecording(cfg: Config, run: seq<Sys>, actions: seq<Action>, t: nat, pid: Pid, reply: W.WorkerReply, claimNonce: Nonce, startNonce: Nonce)
    requires IsRun(cfg, run, actions) && t + 1 < |run| && actions[t] == WorkerStep(pid, reply, claimNonce, startNonce) && RecordsStart(run[t], pid, reply)
    ensures
      var incident := run[t].workers[pid].launch.incident;
      incident in run[t + 1].stores.jobs && J.Final(run[t + 1].stores.jobs[incident].state)
  {
    hide Next, StoresOk, IngressesOk, BindingsWitnessed, CoordsOk, WorkersOk, ChildrenOk, LedgerOk, RetirementsClosed, AbsencesDeclared, HandoffsOk, RecordsStart, J.Final;
    InvariantHolds(cfg, run, actions, t);
    Aftermath.StepIsWorker(cfg, run[t], pid, reply, claimNonce, startNonce, run[t + 1]);
    RecordedStartIsFinal(cfg, run[t], pid, reply, claimNonce, startNonce, run[t + 1]);
  }

  /** Over every run: once a worker has recorded a child whose effect started, no worker that had
      not read the job by then ever starts a child for that incident. */
  lemma RecordedStartsEndChildren(cfg: Config, run: seq<Sys>, actions: seq<Action>, t: nat, pid: Pid, reply: W.WorkerReply, claimNonce: Nonce, startNonce: Nonce, j: nat, p: Pid, n: nat, call: W.WorkerCall)
    requires IsRun(cfg, run, actions) && t < j < |run| && actions[t] == WorkerStep(pid, reply, claimNonce, startNonce) && RecordsStart(run[t], pid, reply)
    requires p in run[j].workers && run[j].workers[p].launch.incident == run[t].workers[pid].launch.incident && !Aftermath.HasRead(run[t + 1], p)
    requires WT.Issues(run[j].workers[p].launch, run[j].workers[p].log, n, call)
    ensures !call.StartChild?
  {
    hide Next, StoresOk, IngressesOk, BindingsWitnessed, CoordsOk, WorkersOk, ChildrenOk, LedgerOk, RetirementsClosed, AbsencesDeclared, HandoffsOk, WT.Issues, WT.IsHistory, Aftermath.HasRead, Aftermath.ReadsAreFinal, J.Final;
    var incident := run[t].workers[pid].launch.incident;
    StepIsRecording(cfg, run, actions, t, pid, reply, claimNonce, startNonce);
    Aftermath.LaterReadsAreFinal(cfg, run, actions, t + 1, j, incident);
    InvariantHolds(cfg, run, actions, j);
    Aftermath.NoStartWithoutRead(cfg, run[j], incident, Aftermath.Readers(run[t + 1]), p, n, call);
  }

  // ---- After an incident ended

  /** Read as C1 holds it. */
  predicate ToldOf(x: Co.Exchange, a: Authority) {
    x.call.Ask? && x.call.call.op.Get? && x.call.call.incident == a.request.incident && CC.Finds(x.reply) ==>
      x.reply.raw.reply.state == Some(a.status)
  }

  /** The passes of this incident other than the early ones heard nothing else of it. */
  ghost predicate PassesTold(s: Sys, early: set<HandoffId>, a: Authority) {
    forall h <- s.coords :: h !in early ==> forall x <- s.coords[h].log :: ToldOf(x, a)
  }

  lemma CoordIsTold(cfg: Config, s: Sys, h: HandoffId, reply: Co.CoordReply, s': Sys, early: set<HandoffId>, a: Authority)
    requires CoordSteps(s, h, reply, s') && CoordTold(s.c1, cfg.operator, Co.CallOf(CoordAt(s.coords[h])), reply)
    requires PassesTold(s, early, a) && Committed(s.c1, a.request.incident) == Some(a)
    ensures PassesTold(s', early, a)
  {
    hide CoT.At, Co.Step, Co.CallOf, CoordMoves, ReplyFrom;
    ReadIsTold(s.c1, cfg.operator, Co.CallOf(CoordAt(s.coords[h])), reply, a);
  }

  lemma ReadIsTold(c1: Ledger, operator: Did, call: Co.CoordCall, reply: Co.CoordReply, a: Authority)
    requires CoordTold(c1, operator, call, reply) && Committed(c1, a.request.incident) == Some(a)
    ensures ToldOf(Co.Exchange(call, reply), a)
  {
    hide ReplyFrom;
    if call.Ask? && call.call.op.Get? && call.call.incident == a.request.incident && CC.Finds(reply) {
      var base: Option<Authority>, now: nat :| reply.raw.reply == ReplyFrom(base, call.call, operator, now) && base == Committed(c1, call.call.incident);
      ReadsTellTheRecord(base, call.call, operator, now);
    }
  }

  lemma OtherCoordsStay(cfg: Config, s: Sys, a: Action, s': Sys)
    requires Next(cfg, s, a, s') && !a.CoordStep? && !a.Observe?
    ensures s'.coords == s.coords
  {
    hide WorkerSteps, WorkerTold, IngressMoves, ChildTold, Commit, MayCommit;
    match a {
      case WorkerStep(pid, reply, claimNonce, startNonce) => WorkerStepFrame(cfg, s, pid, reply, claimNonce, startNonce, s');
      case _ =>
    }
  }

  lemma CoordStepIs(cfg: Config, s: Sys, h: HandoffId, reply: Co.CoordReply, s': Sys)
    requires Next(cfg, s, CoordStep(h, reply), s')
    ensures CoordSteps(s, h, reply, s') && CoordTold(s.c1, cfg.operator, Co.CallOf(CoordAt(s.coords[h])), reply)
  {
    hide CoordMoves, CoordTold;
  }

  lemma NewPassHeardNothing(cfg: Config, s: Sys, a: Action, s': Sys, early: set<HandoffId>, told: Authority)
    requires Next(cfg, s, a, s') && a.Observe? && PassesTold(s, early, told)
    ensures PassesTold(s', early, told)
  {
    hide ToldOf;
  }

  lemma NextIsTold(cfg: Config, s: Sys, a: Action, s': Sys, early: set<HandoffId>, told: Authority)
    requires Next(cfg, s, a, s') && PassesTold(s, early, told) && Committed(s.c1, told.request.incident) == Some(told)
    ensures PassesTold(s', early, told)
  {
    hide Next, PassesTold, CoordSteps, CoordTold;
    match a {
      case CoordStep(h, reply) =>
        CoordStepIs(cfg, s, h, reply, s');
        CoordIsTold(cfg, s, h, reply, s', early, told);
      case Observe(_, _) => NewPassHeardNothing(cfg, s, a, s', early, told);
      case _ =>
        OtherCoordsStay(cfg, s, a, s');
        SameCoordsTold(s, s', early, told);
    }
  }

  lemma SameCoordsTold(s: Sys, s': Sys, early: set<HandoffId>, told: Authority)
    requires PassesTold(s, early, told) && s'.coords == s.coords
    ensures PassesTold(s', early, told)
  {
  }

  lemma {:induction false} LaterPassesAreTold(cfg: Config, run: seq<Sys>, actions: seq<Action>, i: nat, j: nat, incident: IncidentId)
    requires IsRun(cfg, run, actions) && i <= j < |run| && incident in run[i].c1 && run[i].c1[incident].request.incident == incident
    requires run[i].c1[incident].status in {Closed, Expired}
    ensures PassesTold(run[j], run[i].coords.Keys, run[i].c1[incident])
    decreases j
  {
    hide Next, ToldOf;
    if i < j {
      LaterPassesAreTold(cfg, run, actions, i, j - 1, incident);
      WindowStays(cfg, run, actions, i, j - 1, incident);
      RunSteps(cfg, run, actions, j - 1);
      NextIsTold(cfg, run[j - 1], actions[j - 1], run[j], run[i].coords.Keys, run[i].c1[incident]);
    }
  }

  lemma IncidentIsKeyed(c1: Ledger, incident: IncidentId)
    requires WellFormed(c1) && incident in c1
    ensures c1[incident].request.incident == incident
  {
  }

  lemma PassHistory(cfg: Config, jobs: J.Jobs, c1: Ledger, coords: Coords, h: HandoffId)
    requires CoordsOk(cfg, jobs, c1, coords) && h in coords
    ensures CoT.IsHistory(coords[h].launch, coords[h].log)
  {
    hide CoT.IsHistory, CoordFact;
    assert CoordOk(cfg, jobs, c1, h, coords[h]);
  }

  /** Over every run: once C1 holds an incident CLOSED or EXPIRED, it stays so, and no pass that
      begins afterwards ever hands it to the broker. */
  lemma EndedIncidentsAreNotHandedOn(cfg: Config, run: seq<Sys>, actions: seq<Action>, i: nat, j: nat, incident: IncidentId, h: HandoffId, n: nat, call: Co.CoordCall)
    requires IsRun(cfg, run, actions) && i <= j < |run| && incident in run[i].c1 && run[i].c1[incident].status in {Closed, Expired}
    requires h in run[j].coords && h !in run[i].coords && run[j].coords[h].launch.job.frozen.incident == incident
    requires CoT.Issues(run[j].coords[h].launch, run[j].coords[h].log, n, call) && call.UpdateJob?
    ensures incident in run[j].c1 && run[j].c1[incident] == run[i].c1[incident]
    ensures call.patch.handoff.Some? ==> call.patch.handoff.value.None?
  {
    hide IsRun, StoresOk, IngressesOk, BindingsWitnessed, CoordsOk, WorkersOk, ChildrenOk, LedgerOk, RetirementsClosed, AbsencesDeclared, HandoffsOk, CoT.Issues, CoT.IsHistory, ToldOf, WellFormed;
    Healthy(cfg, run, actions, i);
    IncidentIsKeyed(run[i].c1, incident);
    WindowStays(cfg, run, actions, i, j, incident);
    LaterPassesAreTold(cfg, run, actions, i, j, incident);
    InvariantHolds(cfg, run, actions, j);
    PassHistory(cfg, run[j].stores.jobs, run[j].c1, run[j].coords, h);
    ToldPassesIssueNothing(run[j].coords[h].launch, run[j].coords[h].log, n, call, run[i].c1[incident]);
  }

  lemma ToldPassesIssueNothing(l: Co.Launch, h: CoT.History, n: nat, call: Co.CoordCall, a: Authority)
    requires CoT.IsHistory(l, h) && (forall x <- h :: ToldOf(x, a)) && a.request.incident == l.job.frozen.incident && a.status in {Closed, Expired}
    requires CoT.Issues(l, h, n, call) && call.UpdateJob?
    ensures call.patch.handoff.Some? ==> call.patch.handoff.value.None?
  {
    hide CoT.IsHistory, CoT.At, Co.CallOf, CC.Contradicts, CC.CopiesReply;
    CoT.PrefixIsHistory(l, h, n);
    var g := h[..n];
    assert forall x <- g :: x in h;
    CC.WritesExactly(l, g, call);
    if b :| CC.RoutesOn(l, g, b) && CC.RoutedWrite(l, b, call) {
      ToldPassesRouteNothing(l, g, b, a);
    }
  }

  /** Such a pass comes to its write by its first reading only. */
  lemma ToldPassesRouteNothing(l: Co.Launch, h: CoT.History, b: CC.Basis, a: Authority)
    requires (forall x <- h :: ToldOf(x, a)) && a.request.incident == l.job.frozen.incident && a.status in {Closed, Expired}
    requires CC.RoutesOn(l, h, b)
    ensures b.reply.state == Some(a.status)
  {
    hide CC.HasLost, CC.HasCreated;
    if CC.HasReserved(l, h) || CC.HasReread(l, h) {
      var k := ActiveReading(l, h);
      assert false;
    }
    assert h[|h| - 1] in h;
  }

  /** What is reserved was read as ACTIVE. */
  lemma ActiveReading(l: Co.Launch, h: CoT.History) returns (k: nat)
    requires CC.HasReserved(l, h) || CC.HasReread(l, h)
    ensures k < |h| && h[k] in h && h[k].call == CC.GetCall(l) && CC.Finds(h[k].reply) && h[k].reply.raw.reply.state == Some(Active)
  {
    hide CC.HasLost, CC.HasCreated;
    k := if CC.HasReserved(l, h) then |h| - 2 else |h| - 3;
    assert CC.HasReserved(l, h) ==> CC.Prior(h)[|h| - 2] == h[|h| - 2];
    assert CC.HasReread(l, h) ==> CC.Prior(CC.Prior(h)) == h[..|h| - 2];
  }
}
