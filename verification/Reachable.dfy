/** The theorems about runs are not empty: for every live policy and every eligible push
    there is a run in which the key is deleted once and C1 ends CLOSED. */
module Reachable {
  import opened Domain
  import opened C1 = C1Contract
  import opened BrokerLogic
  import opened System
  import opened Invariant
  import Safety
  import E = PushEvidence
  import R = PolicyRegistry
  import D = Dedupe
  import J = JobStore
  import P = PushPolicy
  import PI = PushIngress
  import Co = Coordinator
  import W = BrokerWorker
  import Ch = BrokerChild
  import PIT = PushIngressTrace
  import CoT = CoordinatorTrace
  import WT = BrokerWorkerTrace
  import ChT = BrokerTrace

  // ---- Runs, one step at a time

  ghost predicate Reached(cfg: Config, s: Sys) {
    exists run, actions :: IsRun(cfg, run, actions) && run != [] && run[|run| - 1] == s
  }

  lemma Goes(cfg: Config, s: Sys, a: Action, s': Sys)
    requires Reached(cfg, s) && Next(cfg, s, a, s')
    ensures Reached(cfg, s')
  {
    hide Next;
    var run, actions :| IsRun(cfg, run, actions) && run != [] && run[|run| - 1] == s;
    var longer, more := run + [s'], actions + [a];
    forall i | 0 <= i < |more| ensures Next(cfg, longer[i], more[i], longer[i + 1]) {
      if i < |actions| {
        assert Next(cfg, run[i], actions[i], run[i + 1]);
      }
    }
    assert IsRun(cfg, longer, more);
  }

  lemma Starts(cfg: Config)
    ensures Reached(cfg, EMPTY)
  {
    hide Next;
    assert IsRun(cfg, [EMPTY], []);
  }

  // ---- The setting

  /** A configured deployment, a live policy in it and an eligible push of its source. */
  predicate Fits(cfg: Config, record: R.PolicyRecord, event: Event) {
    && cfg.owner == GITHUB_OWNER && cfg.repo == GITHUB_REPOSITORY
    && cfg.operator != cfg.remediation && cfg.operator != cfg.broker && cfg.remediation != cfg.broker
    && R.ValidRecord(record) && record.policy.enabled
    && record.policy.remediation == cfg.remediation && record.policy.broker == cfg.broker
    && MIN_INCIDENT_TTL_SECS <= record.policy.ttlSecs <= MAX_INCIDENT_TTL_SECS
    && event.source == PUSH_SOURCE && E.Eligible(event) && E.IsCommit(event.body.before) && E.IsCommit(event.body.after)
  }

  function IncidentIn(record: R.PolicyRecord, event: Event): IncidentId { E.IncidentOf(event, record.policy) }

  function FrozenIn(record: R.PolicyRecord, event: Event): J.Frozen {
    var request := E.CreateRequestOf(event, record.policy);
    J.Frozen(request.incident, KeyOf(event), P.RefOf(record.policy), record.policy.keyId, record.policy.title, request)
  }

  // ---- The delivery

  lemma IngressHears(cfg: Config, s: Sys, n: Nonce, reply: PI.IngressReply, now: int, st': Stores) returns (s': Sys)
    requires Reached(cfg, s) && n in s.ingresses && !IngressAt(s.ingresses[n]).pc.Ended?
    requires IngressMoves(s.stores, PI.CallOf(IngressAt(s.ingresses[n])), reply, now, st')
    ensures Reached(cfg, s') && n in s'.ingresses && IngressAt(s'.ingresses[n]) == PI.Step(IngressAt(s.ingresses[n]), reply)
    ensures s' == s.(stores := st', ingresses := s'.ingresses)
  {
    hide PI.Step, PI.CallOf, IngressMoves;
    var run := s.ingresses[n];
    var x := PI.Exchange(PI.CallOf(IngressAt(run)), reply);
    s' := s.(stores := st', ingresses := s.ingresses[n := Extended(run, x)]);
    assert Extended(run, x).log[..|run.log|] == run.log;
    Goes(cfg, s, IngressStep(n, reply, now), s');
  }

  /** Nothing but the stores and the deliveries is there. */
  predicate OnlyStores(s: Sys) {
    s.c1 == map[] && s.leases == map[] && s.dead == {} && s.coords == map[] && s.workers == map[] && s.children == map[]
  }

  ghost predicate Delivering(cfg: Config, s: Sys, event: Event, pc: PI.Pc) {
    Reached(cfg, s) && OnlyStores(s) && 0 in s.ingresses && IngressAt(s.ingresses[0]) == PI.Ingress(PI.Launch(event, 0), pc)
  }

  function Registry(record: R.PolicyRecord): R.Files { R.Files(map[P.RefOf(record.policy) := record], map[], map[]) }

  function Reservation(event: Event): D.Reservation { D.Reservation(D.New, D.Receipt(KeyOf(event), event, D.Reserved, 0, 0)) }

  function Hold(event: Event): PI.Hold { PI.Hold(Reservation(event), false) }

  function PlanOf(event: Event): E.ReadPlan { E.ReadPlan(PUSH_REPOSITORY, event.body.before, event.body.after, SECRET_PATH) }

  lemma Arrives(cfg: Config, record: R.PolicyRecord, event: Event) returns (s: Sys)
    requires Fits(cfg, record, event)
    ensures Delivering(cfg, s, event, PI.Finding) && s.stores == Stores(Registry(record), map[], map[])
  {
    Starts(cfg);
    var s1 := EMPTY.(stores := EMPTY.stores.(files := Registry(record)));
    Goes(cfg, EMPTY, AddPolicy(record), s1);
    s := s1.(ingresses := s1.ingresses[0 := Run(PI.Launch(event, 0), [])]);
    Goes(cfg, s1, Deliver(event, 0), s);
  }

  lemma Reserves(cfg: Config, record: R.PolicyRecord, event: Event) returns (s: Sys)
    requires Fits(cfg, record, event)
    ensures Delivering(cfg, s, event, PI.Reserving([record], false)) && s.stores == Stores(Registry(record), map[], map[])
  {
    hide R.ValidRecord, Reached;
    s := Arrives(cfg, record, event);
    s := IngressHears(cfg, s, 0, PI.FoundReceipt(None), 0, s.stores);
    assert Registered(s.stores.files, record);
    CoversItsSource(record, event);
    s := IngressHears(cfg, s, 0, PI.Records([record]), 0, s.stores);
  }

  lemma CoversItsSource(record: R.PolicyRecord, event: Event)
    requires R.ValidRecord(record) && event.source == PUSH_SOURCE
    ensures PI.CoversSource([record], event)
  {
    assert record in [record];
  }

  lemma Selects(record: R.PolicyRecord, event: Event)
    requires R.ValidRecord(record) && record.policy.enabled && event.source == PUSH_SOURCE
    ensures P.Select(event, [record.policy], {}) == P.Match(record.policy)
  {
    hide P.Select;
    P.SelectionIsUnique(event, [record.policy], {}, record.policy);
  }

  lemma Chooses(p: PI.Ingress, record: R.PolicyRecord, hold: PI.Hold)
    requires R.ValidRecord(record) && record.policy.enabled && p.launch.event.source == PUSH_SOURCE && E.Eligible(p.launch.event)
    ensures PI.Choose(p, [record], hold) == p.(pc := PI.ReadingSource(hold, record.policy, record, PlanOf(p.launch.event)))
  {
    hide P.Select;
    Selects(record, p.launch.event);
    assert PI.PoliciesOf([record]) == [record.policy];
    FindsIts(record);
  }

  lemma FindsIts(record: R.PolicyRecord)
    ensures PI.RecordFor([record], record.policy) == Some(record)
  {
    assert [record][1..] == [];
  }

  lemma Plans(cfg: Config, record: R.PolicyRecord, event: Event) returns (s: Sys)
    requires Fits(cfg, record, event)
    ensures Delivering(cfg, s, event, PI.ReadingSource(Hold(event), record.policy, record, PlanOf(event)))
    ensures s.stores == Stores(Registry(record), map[KeyOf(event) := Reservation(event).receipt], map[])
  {
    hide R.ValidRecord, Reached, PI.Choose;
    s := Reserves(cfg, record, event);
    Chooses(IngressAt(s.ingresses[0]), record, Hold(event));
    s := IngressHears(cfg, s, 0, PI.ReservedAs(Reservation(event), false), 0, s.stores.(receipts := map[KeyOf(event) := Reservation(event).receipt]));
  }

  function Before(event: Event): E.Observation { E.Observation(PUSH_REPOSITORY, event.body.before, SECRET_PATH, 404, None) }

  function After(record: R.PolicyRecord, event: Event): E.Observation {
    E.Observation(PUSH_REPOSITORY, event.body.after, SECRET_PATH, 200, Some(record.policy.privateSha))
  }

  function InputOf(record: R.PolicyRecord, event: Event): R.BindInput {
    R.BindInput(record.policy, event, E.JudgeTransition(Before(event), After(record, event), record.policy, PlanOf(event)),
                IncidentIn(record, event), KeyOf(event), record.registryIdentity, record.policy)
  }

  lemma Reads(cfg: Config, record: R.PolicyRecord, event: Event) returns (s: Sys)
    requires Fits(cfg, record, event)
    ensures Delivering(cfg, s, event, PI.BindingPolicy(Hold(event), InputOf(record, event)))
    ensures s.stores == Stores(Registry(record), map[KeyOf(event) := Reservation(event).receipt], map[])
  {
    hide Reached, E.JudgeTransition;
    s := Plans(cfg, record, event);
    E.CausalMeansIntroduced(Before(event), After(record, event), record.policy, PlanOf(event));
    s := IngressHears(cfg, s, 0, PI.Observed(Before(event), After(record, event)), 0, s.stores);
  }

  lemma Binds(cfg: Config, record: R.PolicyRecord, event: Event) returns (s: Sys)
    requires Fits(cfg, record, event)
    ensures Delivering(cfg, s, event, PI.Finalizing(Hold(event), D.Accepted(PI.AcceptanceOf(InputOf(record, event)))))
    ensures s.stores.receipts == map[KeyOf(event) := Reservation(event).receipt] && s.stores.jobs == map[]
  {
    hide R.ValidRecord, Reached, E.JudgeTransition;
    s := Reads(cfg, record, event);
    var files := R.BindResult(s.stores.files, InputOf(record, event), record.activatedAt).0;
    s := IngressHears(cfg, s, 0, PI.BindReply(R.Bound), record.activatedAt, s.stores.(files := files));
  }

  lemma AcceptanceIsComplete(record: R.PolicyRecord, event: Event)
    requires R.ValidRecord(record)
    ensures D.Complete(Reservation(event).receipt.(state := D.Accepted(PI.AcceptanceOf(InputOf(record, event)))))
  {
    hide E.JudgeTransition;
  }

  lemma Accepts(cfg: Config, record: R.PolicyRecord, event: Event) returns (s: Sys)
    requires Fits(cfg, record, event)
    ensures Delivering(cfg, s, event, PI.CreatingJob(FrozenIn(record, event), false)) && s.stores.jobs == map[]
  {
    hide Reached, E.JudgeTransition;
    s := Binds(cfg, record, event);
    var next := D.Accepted(PI.AcceptanceOf(InputOf(record, event)));
    var receipts := s.stores.receipts[KeyOf(event) := Reservation(event).receipt.(state := next)];
    AcceptanceIsComplete(record, event);
    assert D.Finalize(s.stores.receipts, Reservation(event), next, false) == Some(receipts);
    s := IngressHears(cfg, s, 0, PI.Finalized, 0, s.stores.(receipts := receipts));
  }

  /** The delivery is over: a PENDING job waits. */
  lemma JobWaits(cfg: Config, record: R.PolicyRecord, event: Event) returns (s: Sys)
    requires Fits(cfg, record, event)
    ensures Reached(cfg, s) && OnlyStores(s) && s.stores.jobs == map[IncidentIn(record, event) := J.NewJob(FrozenIn(record, event))]
  {
    hide R.ValidRecord, Reached;
    s := Accepts(cfg, record, event);
    var job := J.NewJob(FrozenIn(record, event));
    s := IngressHears(cfg, s, 0, PI.JobReady(job), 0, s.stores.(jobs := map[IncidentIn(record, event) := job]));
  }

  // ---- The coordinator

  lemma CoordHears(cfg: Config, s: Sys, h: HandoffId, reply: Co.CoordReply, st': Stores) returns (s': Sys)
    requires Reached(cfg, s) && h in s.coords && !CoordAt(s.coords[h]).pc.Finished?
    requires CoordMoves(s.stores, Co.CallOf(CoordAt(s.coords[h])), reply, st')
    requires CoordTold(s.c1, cfg.operator, Co.CallOf(CoordAt(s.coords[h])), reply)
    ensures Reached(cfg, s') && h in s'.coords && CoordAt(s'.coords[h]) == Co.Step(CoordAt(s.coords[h]), reply)
    ensures s' == s.(stores := st', coords := s'.coords)
  {
    hide Co.Step, Co.CallOf, CoordMoves, CoordTold;
    var run := s.coords[h];
    var x := Co.Exchange(Co.CallOf(CoordAt(run)), reply);
    s' := s.(stores := st', coords := s.coords[h := Extended(run, x)]);
    assert Extended(run, x).log[..|run.log|] == run.log;
    Goes(cfg, s, CoordStep(h, reply), s');
  }

  /** The call a pass is about to make commits. */
  lemma CoordCommits(cfg: Config, s: Sys, h: HandoffId, call: C1.Call) returns (s': Sys)
    requires Reached(cfg, s) && h in s.coords && !CoordAt(s.coords[h]).pc.Finished? && Co.CallOf(CoordAt(s.coords[h])) == Co.Ask(call)
    ensures Reached(cfg, s') && s' == s.(c1 := Commit(s.c1, call, cfg.operator, 0))
  {
    hide Commit, Co.CallOf, Co.Step;
    s' := s.(c1 := Commit(s.c1, call, cfg.operator, 0));
    var run := s.coords[h];
    assert run.log[..|run.log|] == run.log;
    assert CoT.Issues(run.launch, run.log, |run.log|, Co.Ask(call));
    assert SentByCoord(s.coords, call);
    Goes(cfg, s, Transact(call, 0), s');
  }

  predicate OnlyPass(s: Sys) {
    s.leases == map[] && s.dead == {} && s.workers == map[] && s.children == map[]
  }

  function PassOf(cfg: Config, record: R.PolicyRecord, event: Event): Co.Launch {
    Co.Launch(J.NewJob(FrozenIn(record, event)), cfg.operator, cfg.remediation, cfg.owner, cfg.repo, 0)
  }

  ghost predicate Passing(cfg: Config, s: Sys, record: R.PolicyRecord, event: Event, pc: Co.Pc) {
    && Reached(cfg, s) && OnlyPass(s) && 0 in s.coords && CoordAt(s.coords[0]) == Co.Coord(PassOf(cfg, record, event), pc)
    && s.stores.jobs == map[IncidentIn(record, event) := J.NewJob(FrozenIn(record, event))]
  }

  /** The record of the incident at its creation. */
  function Created(record: R.PolicyRecord, event: Event): Authority
    requires record.policy.ttlSecs >= 0
  {
    Authority(FrozenIn(record, event).request, GITHUB_OWNER, GITHUB_REPOSITORY, 0, record.policy.ttlSecs, 0, Active, 0, None, 0, None, None)
  }

  lemma Creates(cfg: Config, record: R.PolicyRecord, event: Event) returns (s: Sys)
    requires Fits(cfg, record, event)
    ensures Passing(cfg, s, record, event, Co.Creating) && s.c1 == map[IncidentIn(record, event) := Created(record, event)]
  {
    hide R.ValidRecord, Reached;
    var incident := IncidentIn(record, event);
    var before := JobWaits(cfg, record, event);
    s := before.(coords := before.coords[0 := Run(PassOf(cfg, record, event), [])]);
    Goes(cfg, before, Observe(incident, 0), s);
    var get := C1.Call(cfg.operator, incident, Get);
    var absent := Co.Answer(Object(ReplyFrom(None, get, cfg.operator, 0)));
    assert absent.raw.reply == ReplyFrom(None, get, cfg.operator, 0) && Committed(s.c1, incident) == None;
    s := CoordHears(cfg, s, 0, absent, s.stores);
    CreatedIs(cfg, record, event);
    s := CoordCommits(cfg, s, 0, C1.Call(cfg.operator, incident, Create(FrozenIn(record, event).request)));
  }

  lemma CreatedIs(cfg: Config, record: R.PolicyRecord, event: Event)
    requires Fits(cfg, record, event)
    ensures Build(FrozenIn(record, event).request, cfg.operator, 0) == Some(Created(record, event))
  {
  }

  lemma Finds(cfg: Config, record: R.PolicyRecord, event: Event) returns (s: Sys)
    requires Fits(cfg, record, event)
    ensures Passing(cfg, s, record, event, Co.Reserving(false)) && s.c1 == map[IncidentIn(record, event) := Created(record, event)]
  {
    hide R.ValidRecord, Reached;
    var incident := IncidentIn(record, event);
    s := Creates(cfg, record, event);
    CreatedIs(cfg, record, event);
    var create := C1.Call(cfg.operator, incident, Create(FrozenIn(record, event).request));
    var created := Co.Answer(Object(ReplyFrom(None, create, cfg.operator, 0)));
    s := CoordHears(cfg, s, 0, created, s.stores);
    var get := C1.Call(cfg.operator, incident, Get);
    var found := Co.Answer(Object(ReplyFrom(Some(Created(record, event)), get, cfg.operator, 0)));
    assert Committed(s.c1, incident) == Some(Created(record, event));
    s := CoordHears(cfg, s, 0, found, s.stores);
  }

  function ReservedRecord(record: R.PolicyRecord, event: Event): Authority
    requires record.policy.ttlSecs >= 0
  {
    Created(record, event).(reservation := 1, status := Reserved)
  }

  /** The job as the pass leaves it to the broker. */
  function HandedJob(record: R.PolicyRecord, event: Event): J.Job {
    J.Job(FrozenIn(record, event), J.HandoffReady, Some(Reserved), None, None, None, None, Some(0), None)
  }

  lemma Routes(cfg: Config, record: R.PolicyRecord, event: Event) returns (s: Sys, patch: J.Patch)
    requires Fits(cfg, record, event)
    ensures Passing(cfg, s, record, event, Co.Updating(patch, false, Co.Return))
    ensures J.Updated(J.NewJob(FrozenIn(record, event)), patch, false) == Some(HandedJob(record, event))
    ensures s.c1 == map[IncidentIn(record, event) := ReservedRecord(record, event)]
  {
    hide R.ValidRecord, Reached;
    var incident := IncidentIn(record, event);
    s := Finds(cfg, record, event);
    var reserve := C1.Call(cfg.remediation, incident, Reserve);
    s := CoordCommits(cfg, s, 0, reserve);
    var won := Co.Answer(Object(ReplyFrom(Some(Created(record, event)), reserve, cfg.operator, 0)));
    s := CoordHears(cfg, s, 0, won, s.stores);
    patch := CoordAt(s.coords[0]).pc.patch;
  }

  /** The pass is over: the incident is RESERVED and the job handed to the broker. */
  lemma HandsOver(cfg: Config, record: R.PolicyRecord, event: Event) returns (s: Sys)
    requires Fits(cfg, record, event)
    ensures Reached(cfg, s) && OnlyPass(s) && s.stores.jobs == map[IncidentIn(record, event) := HandedJob(record, event)]
    ensures s.c1 == map[IncidentIn(record, event) := ReservedRecord(record, event)]
  {
    hide R.ValidRecord, Reached;
    var incident := IncidentIn(record, event);
    var patch;
    s, patch := Routes(cfg, record, event);
    var jobs := s.stores.jobs[incident := HandedJob(record, event)];
    s := CoordHears(cfg, s, 0, Co.Stored(HandedJob(record, event)), s.stores.(jobs := jobs));
  }

  // ---- The worker

  lemma WorkerHears(cfg: Config, s: Sys, p: Pid, reply: W.WorkerReply, claimNonce: Nonce, startNonce: Nonce, t: Sys) returns (s': Sys)
    requires Reached(cfg, s) && p in s.workers && p !in s.dead && !WorkerAt(s.workers[p]).pc.Ended?
    requires WorkerMoves(cfg, s, p, W.CallOf(WorkerAt(s.workers[p])), reply, claimNonce, startNonce, t) && t.workers == s.workers
    requires !reply.Answer?
    ensures Reached(cfg, s') && p in s'.workers && WorkerAt(s'.workers[p]) == W.Step(WorkerAt(s.workers[p]), reply)
    ensures s' == t.(workers := s'.workers)
  {
    hide W.Step, W.CallOf, WorkerMoves;
    var run := s.workers[p];
    var x := W.Exchange(W.CallOf(WorkerAt(run)), reply);
    s' := t.(workers := s.workers[p := Extended(run, x)]);
    assert Extended(run, x).log[..|run.log|] == run.log;
    assert s'.(workers := s.workers) == t;
    Goes(cfg, s, WorkerStep(p, reply, claimNonce, startNonce), s');
  }

  ghost predicate Working(cfg: Config, s: Sys, record: R.PolicyRecord, event: Event, pc: W.Pc) {
    && Fits(cfg, record, event) && Reached(cfg, s) && s.dead == {} && s.children == map[] && 0 in s.workers
    && WorkerAt(s.workers[0]) == W.Worker(W.Launch(W.Handoff, IncidentIn(record, event), cfg.broker), pc)
    && s.c1 == map[IncidentIn(record, event) := ReservedRecord(record, event)]
  }

  lemma Fetches(cfg: Config, record: R.PolicyRecord, event: Event) returns (s: Sys)
    requires Fits(cfg, record, event)
    ensures Working(cfg, s, record, event, W.Consuming(HandedJob(record, event)))
    ensures s.stores.jobs == map[IncidentIn(record, event) := HandedJob(record, event)]
  {
    hide R.ValidRecord, Reached;
    var incident := IncidentIn(record, event);
    var before := HandsOver(cfg, record, event);
    s := before.(workers := before.workers[0 := Run(W.Launch(W.Handoff, incident, cfg.broker), [])]);
    Goes(cfg, before, Work(0, W.Handoff, incident), s);
    s := WorkerHears(cfg, s, 0, W.Held(true), 0, 0, s.(leases := s.leases[incident := 0]));
    s := WorkerHears(cfg, s, 0, W.Fetched(HandedJob(record, event)), 0, 0, s);
  }

  function ProcessedJob(record: R.PolicyRecord, event: Event): J.Job {
    HandedJob(record, event).(state := J.Processing, consumed := Some(0))
  }

  lemma Consumes(cfg: Config, record: R.PolicyRecord, event: Event) returns (s: Sys)
    requires Fits(cfg, record, event)
    ensures Working(cfg, s, record, event, W.Launching(ProcessedJob(record, event), 0, true))
  {
    hide R.ValidRecord, Reached;
    var incident := IncidentIn(record, event);
    s := Fetches(cfg, record, event);
    var consumed := HandedJob(record, event).(consumed := Some(0));
    var t := s.(stores := s.stores.(jobs := s.stores.jobs[incident := consumed]));
    assert J.UpdateResult(s.stores.jobs, incident, J.NO_CHANGE.(consumed := Some(Some(0))), false) == (t.stores.jobs, J.Success(consumed));
    s := WorkerHears(cfg, s, 0, W.Stored(consumed), 0, 0, t);
    t := s.(stores := s.stores.(jobs := s.stores.jobs[incident := ProcessedJob(record, event)]));
    assert J.UpdateResult(s.stores.jobs, incident, J.NO_CHANGE.(state := Some(J.Processing)), false) == (t.stores.jobs, J.Success(ProcessedJob(record, event)));
    s := WorkerHears(cfg, s, 0, W.Stored(ProcessedJob(record, event)), 0, 0, t);
  }

  function ChildOf(cfg: Config, record: R.PolicyRecord, event: Event): Ch.Launch {
    Ch.Launch(IncidentIn(record, event), cfg.broker, 0, None, record.policy.title, GITHUB_OWNER, GITHUB_REPOSITORY, "broker", 1, 2)
  }

  lemma StartsChild(cfg: Config, record: R.PolicyRecord, event: Event) returns (s: Sys)
    requires Fits(cfg, record, event)
    ensures Reached(cfg, s) && s.children == map[2 := Run(ChildOf(cfg, record, event), [])]
    ensures s.c1 == map[IncidentIn(record, event) := ReservedRecord(record, event)]
  {
    hide R.ValidRecord, Reached;
    s := Consumes(cfg, record, event);
    var run := Run(ChildLaunch(cfg, ProcessedJob(record, event), 1, 2), []);
    assert run.launch == ChildOf(cfg, record, event);
    s := WorkerHears(cfg, s, 0, W.ChildStarted, 1, 2, s.(children := s.children[2 := run]));
  }

  // ---- The child

  lemma ChildHears(cfg: Config, s: Sys, child: Nonce, reply: Ch.ChildReply) returns (s': Sys)
    requires Reached(cfg, s) && child in s.children && !ChildAt(s.children[child]).pc.Done?
    requires ChildTold(s.c1, cfg.operator, Ch.CallOf(ChildAt(s.children[child])), reply)
    ensures Reached(cfg, s') && child in s'.children && ChildAt(s'.children[child]) == Ch.Step(ChildAt(s.children[child]), reply)
    ensures s'.c1 == s.c1 && s.children[child].log <= s'.children[child].log
    ensures s'.children[child].launch == s.children[child].launch
  {
    hide Ch.Step, Ch.CallOf, ChildTold;
    var run := s.children[child];
    var x := Ch.Exchange(Ch.CallOf(ChildAt(run)), reply);
    s' := s.(children := s.children[child := Extended(run, x)]);
    assert Extended(run, x).log[..|run.log|] == run.log;
    Goes(cfg, s, ChildStep(child, reply), s');
  }

  lemma ChildCommits(cfg: Config, s: Sys, child: Nonce, call: C1.Call) returns (s': Sys)
    requires Reached(cfg, s) && child in s.children && !ChildAt(s.children[child]).pc.Done?
    requires Ch.CallOf(ChildAt(s.children[child])) == Ch.Invoke(call)
    ensures Reached(cfg, s') && s' == s.(c1 := Commit(s.c1, call, cfg.operator, 0))
  {
    hide Commit, Ch.CallOf, Ch.Step;
    s' := s.(c1 := Commit(s.c1, call, cfg.operator, 0));
    var run := s.children[child];
    assert run.log[..|run.log|] == run.log;
    assert ChT.Issues(run.launch, run.log, |run.log|, Ch.Invoke(call));
    assert SentByChild(s.children, call);
    Goes(cfg, s, Transact(call, 0), s');
  }

  /** The child's call commits against a record it reads, and it hears the reply. */
  lemma ChildTransacts(cfg: Config, s: Sys, child: Nonce, call: C1.Call, a: Authority) returns (s': Sys)
    requires Reached(cfg, s) && child in s.children && !ChildAt(s.children[child]).pc.Done?
    requires Ch.CallOf(ChildAt(s.children[child])) == Ch.Invoke(call) && !OperatorOnly(call.op)
    requires s.c1 == map[call.incident := a]
    ensures Reached(cfg, s') && child in s'.children
    ensures ChildAt(s'.children[child]) == Ch.Step(ChildAt(s.children[child]), Ch.Answer(Object(ReplyFrom(Some(a), call, cfg.operator, 0))))
    ensures s'.c1 == Commit(s.c1, call, cfg.operator, 0) && s.children[child].log <= s'.children[child].log
    ensures s'.children[child].launch == s.children[child].launch
  {
    hide Commit, Ch.CallOf, Ch.Step, ReplyFrom, C1.Transact;
    var reply := Ch.Answer(Object(ReplyFrom(Some(a), call, cfg.operator, 0)));
    if ReadsCommitted(call.op) {
      assert Committed(s.c1, call.incident) == Some(a);
      s' := ChildHears(cfg, s, child, reply);
      ConfirmingChangesNothing(s.c1, call, a, cfg.operator);
    } else {
      s' := ChildCommits(cfg, s, child, call);
      s' := ChildHears(cfg, s', child, reply);
    }
  }

  lemma ConfirmingChangesNothing(c1: Ledger, call: C1.Call, a: Authority, operator: Did)
    requires c1 == map[call.incident := a] && ReadsCommitted(call.op)
    ensures Commit(c1, call, operator, 0) == c1
  {
    assert c1[call.incident := a] == c1;
  }

  /** Where child 2 is, and what C1 holds of its incident. */
  ghost predicate Acting(cfg: Config, s: Sys, record: R.PolicyRecord, event: Event, c: Ch.Child, a: Authority) {
    && Fits(cfg, record, event) && Reached(cfg, s) && 2 in s.children && s.children[2].launch == ChildOf(cfg, record, event)
    && c.launch == ChildOf(cfg, record, event) && ChildAt(s.children[2]) == c
    && s.c1 == map[IncidentIn(record, event) := a]
  }

  const CLAIM := Claimed(ClaimId(1, 1), 1)
  const START := StartId(1, 2)

  function ClaimedRecord(record: R.PolicyRecord, event: Event): Authority
    requires record.policy.ttlSecs >= 0
  {
    ReservedRecord(record, event).(claimVersion := 1, claim := Some(CLAIM.id), status := EffectClaimed)
  }

  function StartedRecord(record: R.PolicyRecord, event: Event): Authority
    requires record.policy.ttlSecs >= 0
  {
    ClaimedRecord(record, event).(attempts := 1, start := Some(START), status := EffectStarted)
  }

  function ClosedRecord(record: R.PolicyRecord, event: Event): Authority
    requires record.policy.ttlSecs >= 0
  {
    StartedRecord(record, event).(final := Some(VerifiedAbsent), status := Closed)
  }

  function Target(record: R.PolicyRecord): ClaimTarget { ClaimTarget(GITHUB_OWNER, GITHUB_REPOSITORY, record.policy.keyId, CLAIM) }

  lemma Claims(cfg: Config, record: R.PolicyRecord, event: Event) returns (s: Sys, c: Ch.Child)
    requires Fits(cfg, record, event)
    ensures Acting(cfg, s, record, event, c, ClaimedRecord(record, event)) && c.pc.StoringProposal? && c.claim == Some(CLAIM)
    ensures c.token.None? && !c.cleaned
  {
    hide R.ValidRecord, Reached, Ch.StepEffect, Ch.StepAftermath, Ch.StepVerifier, Ch.StepExit, ParseClaimProposal;
    s := StartsChild(cfg, record, event);
    var a := ReservedRecord(record, event);
    var call := C1.Call(cfg.broker, IncidentIn(record, event), Claim(0, 1));
    assert ChildAt(s.children[2]) == Ch.Launched(ChildOf(cfg, record, event));
    ClaimRepliesParse(a, call, cfg.operator, 0);
    s := ChildTransacts(cfg, s, 2, call, a);
    c := ChildAt(s.children[2]);
  }

  lemma Confirms(cfg: Config, record: R.PolicyRecord, event: Event) returns (s: Sys, c: Ch.Child)
    requires Fits(cfg, record, event)
    ensures Acting(cfg, s, record, event, c, ClaimedRecord(record, event)) && c.pc.Installing? && c.target == Some(Target(record))
    ensures c.token.None? && !c.cleaned
  {
    hide Reached, Ch.StepEffect, Ch.StepAftermath, Ch.StepVerifier, Ch.StepExit, ParseClaimConfirmation;
    s, c := Claims(cfg, record, event);
    var a := ClaimedRecord(record, event);
    s := ChildHears(cfg, s, 2, Ch.Stored);
    var call := C1.Call(cfg.broker, IncidentIn(record, event), ConfirmClaim(CLAIM.id));
    ConfirmationRepliesParse(a, call, cfg.operator, 0);
    s := ChildTransacts(cfg, s, 2, call, a);
    c := ChildAt(s.children[2]);
  }

  lemma Installs(cfg: Config, record: R.PolicyRecord, event: Event) returns (s: Sys, c: Ch.Child)
    requires Fits(cfg, record, event)
    ensures Acting(cfg, s, record, event, c, ClaimedRecord(record, event)) && c.pc.Beginning? && c.target == Some(Target(record))
    ensures c.token.None? && !c.cleaned
  {
    hide R.ValidRecord, Reached, Ch.StepClaim, Ch.StepAftermath, Ch.StepVerifier, Ch.StepExit, Ch.Fail;
    s, c := Confirms(cfg, record, event);
    s := ChildHears(cfg, s, 2, Ch.Http(200));
    c := ChildAt(s.children[2]);
  }

  lemma Begins(cfg: Config, record: R.PolicyRecord, event: Event) returns (s: Sys, c: Ch.Child)
    requires Fits(cfg, record, event)
    ensures Acting(cfg, s, record, event, c, StartedRecord(record, event)) && c.pc.ConfirmingStart? && c.target == Some(Target(record))
    ensures c.start == Some(START) && c.token.None? && !c.cleaned
  {
    hide R.ValidRecord, Reached, Ch.StepClaim, Ch.StepAftermath, Ch.StepVerifier, Ch.StepExit, Ch.Fail;
    s, c := Installs(cfg, record, event);
    var call := C1.Call(cfg.broker, IncidentIn(record, event), Begin(CLAIM.id, 2));
    s := ChildTransacts(cfg, s, 2, call, ClaimedRecord(record, event));
    c := ChildAt(s.children[2]);
  }

  lemma Mints(cfg: Config, record: R.PolicyRecord, event: Event) returns (s: Sys, c: Ch.Child)
    requires Fits(cfg, record, event)
    ensures Acting(cfg, s, record, event, c, StartedRecord(record, event)) && c.pc.Scoping? && c.target == Some(Target(record))
    ensures c.start == Some(START) && c.token == Some(0) && !c.cleaned
  {
    hide R.ValidRecord, Reached, Ch.StepClaim, Ch.StepAftermath, Ch.StepVerifier, Ch.StepExit, Ch.Fail;
    s, c := Begins(cfg, record, event);
    var call := C1.Call(cfg.broker, IncidentIn(record, event), ConfirmStart(CLAIM.id, START));
    s := ChildTransacts(cfg, s, 2, call, StartedRecord(record, event));
    s := ChildHears(cfg, s, 2, Ch.Minted(201, Some(0)));
    c := ChildAt(s.children[2]);
  }

  lemma Inspects(cfg: Config, record: R.PolicyRecord, event: Event) returns (s: Sys, c: Ch.Child)
    requires Fits(cfg, record, event)
    ensures Acting(cfg, s, record, event, c, StartedRecord(record, event)) && c.pc.Deleting? && c.target == Some(Target(record))
    ensures c.start == Some(START) && c.token == Some(0) && !c.cleaned
  {
    hide R.ValidRecord, Reached, Ch.StepClaim, Ch.StepAftermath, Ch.StepVerifier, Ch.StepExit, Ch.Fail, ListIsWellFormed, ListContains;
    s, c := Mints(cfg, record, event);
    var keyId := record.policy.keyId;
    KeyIsPositive(record);
    ListsOne(keyId);
    s := ChildHears(cfg, s, 2, Ch.Repositories(200, true));
    s := ChildHears(cfg, s, 2, Ch.KeyBody(200, Some(keyId), Some(record.policy.title), true));
    s := ChildHears(cfg, s, 2, Ch.Keys(200, Some([Some(keyId)])));
    c := ChildAt(s.children[2]);
  }

  lemma KeyIsPositive(record: R.PolicyRecord)
    requires R.ValidRecord(record)
    ensures 0 < record.policy.keyId <= MAX_SAFE_INTEGER
  {
  }

  lemma ListsOne(keyId: int)
    ensures ListContains(Some([Some(keyId)]), keyId) && (keyId > 0 ==> ListIsWellFormed(Some([Some(keyId)])))
    ensures !ListContains(Some([]), keyId) && ListIsWellFormed(Some([]))
  {
    assert Some(keyId) in [Some(keyId)];
  }

  /** Child 2 has issued the DELETE of the policy's key. */
  ghost predicate Deleted(s: Sys, record: R.PolicyRecord) {
    exists n: nat :: 2 in s.children && ChT.Issues(s.children[2].launch, s.children[2].log, n, Ch.DeleteKey(0, GITHUB_OWNER, GITHUB_REPOSITORY, record.policy.keyId))
  }

  lemma DeletionStays(s: Sys, s': Sys, record: R.PolicyRecord)
    requires Deleted(s, record) && 2 in s'.children && s'.children[2].launch == s.children[2].launch && s.children[2].log <= s'.children[2].log
    ensures Deleted(s', record)
  {
    hide Ch.CallOf, Ch.Step;
    var n: nat :| ChT.Issues(s.children[2].launch, s.children[2].log, n, Ch.DeleteKey(0, GITHUB_OWNER, GITHUB_REPOSITORY, record.policy.keyId));
    assert s'.children[2].log[..n] == s.children[2].log[..n];
    assert ChT.Issues(s'.children[2].launch, s'.children[2].log, n, Ch.DeleteKey(0, GITHUB_OWNER, GITHUB_REPOSITORY, record.policy.keyId));
  }

  lemma Deletes(cfg: Config, record: R.PolicyRecord, event: Event) returns (s: Sys, c: Ch.Child)
    requires Fits(cfg, record, event)
    ensures Acting(cfg, s, record, event, c, StartedRecord(record, event)) && c.pc == Ch.Reinspecting(Some(204)) && c.target == Some(Target(record))
    ensures c.start == Some(START) && c.token == Some(0) && !c.cleaned && Deleted(s, record)
  {
    hide R.ValidRecord, Reached, Ch.StepClaim, Ch.StepAftermath, Ch.StepVerifier, Ch.StepExit;
    var before: Sys;
    before, c := Inspects(cfg, record, event);
    var run := before.children[2];
    assert run.log[..|run.log|] == run.log;
    assert ChT.Issues(run.launch, run.log, |run.log|, Ch.DeleteKey(0, GITHUB_OWNER, GITHUB_REPOSITORY, record.policy.keyId));
    s := ChildHears(cfg, before, 2, Ch.Http(204));
    DeletionStays(before, s, record);
    c := ChildAt(s.children[2]);
  }

  lemma Classifies(cfg: Config, record: R.PolicyRecord, event: Event) returns (s: Sys, c: Ch.Child)
    requires Fits(cfg, record, event)
    ensures Acting(cfg, s, record, event, c, StartedRecord(record, event)) && c.pc.RevokingEffect? && c.target == Some(Target(record))
    ensures c.start == Some(START) && c.token == Some(0) && c.classification == Some(VerifiedAbsent) && Deleted(s, record)
  {
    hide R.ValidRecord, Reached, Ch.StepClaim, Ch.StepEffect, Ch.StepVerifier, Ch.StepExit, Ch.Fail, Deleted, ListIsWellFormed, ListContains;
    var before: Sys;
    before, c := Deletes(cfg, record, event);
    ListsOne(record.policy.keyId);
    s := ChildHears(cfg, before, 2, Ch.KeyBody(404, None, None, false));
    s := ChildHears(cfg, s, 2, Ch.Keys(200, Some([])));
    DeletionStays(before, s, record);
    c := ChildAt(s.children[2]);
  }

  lemma Revokes(cfg: Config, record: R.PolicyRecord, event: Event) returns (s: Sys, c: Ch.Child)
    requires Fits(cfg, record, event)
    ensures Acting(cfg, s, record, event, c, StartedRecord(record, event)) && c.pc.MintingReader? && c.target == Some(Target(record))
    ensures c.start == Some(START) && c.classification == Some(VerifiedAbsent) && Deleted(s, record)
  {
    hide R.ValidRecord, Reached, Ch.StepClaim, Ch.StepEffect, Ch.StepVerifier, Ch.StepExit, Ch.Fail, Deleted;
    var before: Sys;
    before, c := Classifies(cfg, record, event);
    s := ChildHears(cfg, before, 2, Ch.Http(204));
    s := ChildHears(cfg, s, 2, Ch.Http(401));
    DeletionStays(before, s, record);
    c := ChildAt(s.children[2]);
  }

  lemma ReadsAgain(cfg: Config, record: R.PolicyRecord, event: Event) returns (s: Sys, c: Ch.Child)
    requires Fits(cfg, record, event)
    ensures Acting(cfg, s, record, event, c, StartedRecord(record, event)) && c.pc == Ch.ReaderSurveying(404) && c.target == Some(Target(record))
    ensures c.start == Some(START) && c.reader == Some(1) && c.classification == Some(VerifiedAbsent) && Deleted(s, record)
  {
    hide R.ValidRecord, Reached, Ch.StepClaim, Ch.StepEffect, Ch.StepAftermath, Ch.StepExit, Ch.Fail, Deleted;
    var before: Sys;
    before, c := Revokes(cfg, record, event);
    s := ChildHears(cfg, before, 2, Ch.Minted(201, Some(1)));
    s := ChildHears(cfg, s, 2, Ch.Repositories(200, true));
    s := ChildHears(cfg, s, 2, Ch.KeyBody(404, None, None, false));
    DeletionStays(before, s, record);
    c := ChildAt(s.children[2]);
  }

  lemma Verifies(cfg: Config, record: R.PolicyRecord, event: Event) returns (s: Sys, c: Ch.Child)
    requires Fits(cfg, record, event)
    ensures Acting(cfg, s, record, event, c, StartedRecord(record, event)) && c.pc.Concluding? && c.target == Some(Target(record))
    ensures c.start == Some(START) && c.classification == Some(VerifiedAbsent) && Deleted(s, record)
  {
    hide R.ValidRecord, Reached, Ch.StepClaim, Ch.StepEffect, Ch.StepAftermath, Ch.StepExit, Ch.Fail, Deleted, ListIsWellFormed, ListContains;
    var before: Sys;
    before, c := ReadsAgain(cfg, record, event);
    ListsOne(record.policy.keyId);
    s := ChildHears(cfg, before, 2, Ch.Keys(200, Some([])));
    s := ChildHears(cfg, s, 2, Ch.Http(204));
    s := ChildHears(cfg, s, 2, Ch.Http(403));
    DeletionStays(before, s, record);
    c := ChildAt(s.children[2]);
  }

  /** The policy's key was asked to be deleted, and C1 holds this push's incident as done. */
  ghost predicate Removed(s: Sys, record: R.PolicyRecord, event: Event) {
    && Safety.IssuesDeleteOf(s, GITHUB_OWNER, GITHUB_REPOSITORY, record.policy.keyId)
    && IncidentIn(record, event) in s.c1 && s.c1[IncidentIn(record, event)].status == Closed
    && s.c1[IncidentIn(record, event)].final == Some(VerifiedAbsent)
  }

  /** For every configured deployment, every live and enabled policy of it and every eligible
      push there is a run in which a broker child deletes exactly that policy's key and C1
      holds the incident of this push CLOSED / VERIFIED_ABSENT. */
  lemma KeyIsRemoved(cfg: Config, record: R.PolicyRecord, event: Event)
    requires Fits(cfg, record, event)
    ensures exists s :: Reached(cfg, s) && Removed(s, record, event)
  {
    hide R.ValidRecord, Reached, Ch.Step, Deleted;
    var before, c := Verifies(cfg, record, event);
    var call := C1.Call(cfg.broker, IncidentIn(record, event), Finalize(CLAIM.id, START, VerifiedAbsent));
    var s := ChildCommits(cfg, before, 2, call);
    assert s.c1[IncidentIn(record, event)] == ClosedRecord(record, event);
    DeletionStays(before, s, record);
    DeletionIsOneOfTheKey(s, record);
    assert Removed(s, record, event);
  }

  lemma DeletionIsOneOfTheKey(s: Sys, record: R.PolicyRecord)
    requires Deleted(s, record)
    ensures Safety.IssuesDeleteOf(s, GITHUB_OWNER, GITHUB_REPOSITORY, record.policy.keyId)
  {
    hide ChT.Issues;
  }

  // ---- Such settings exist

  function Sixes(n: nat): string { seq(n, _ => '6') }

  /** A setting that fits. */
  lemma SomethingFits() returns (cfg: Config, record: R.PolicyRecord, event: Event)
    ensures Fits(cfg, record, event)
  {
    cfg := Config(0, 1, 2, GITHUB_OWNER, GITHUB_REPOSITORY);
    var provenance := P.Provenance(true, "registry", true);
    var policy := P.Policy("policy", 1, PUSH_SOURCE, SECRET_PATH, true, 1, "key", true, "SHA256:a", Sixes(64), 1, 2, 60, true, Some(0), "registry", Some(provenance));
    record := R.PolicyRecord("registry", 0, policy);
    event := Event("delivery", PUSH_SOURCE, Body(Sixes(40), Sixes(39) + "7", false, false, false, ""));
    var fingerprint := "SHA256:a";
    assert |fingerprint| == 8;
    assert fingerprint[..6] == "SHA256" && fingerprint[7..] == "a";
    assert P.IsPaddedBase64("a", 0);
    assert P.IsFingerprint("SHA256:a");
    assert |event.body.before| == 40 && |event.body.after| == 40 && |E.ZERO_SHA| == 40;
    assert event.body.before[39] == '6' && event.body.after[39] == '7' && E.ZERO_SHA[0] == '0' && event.body.before[0] == '6' && event.body.after[0] == '6';
  }
}
