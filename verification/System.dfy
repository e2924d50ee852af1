/** The whole of BreakGlass as one step system: any number of deliveries, coordinator passes,
    broker workers and broker children, over the durable stores and the C1 contract.

    A process is what it was launched with and the exchanges it has had; what it will do
    next is a function of these (the machines of PushIngress, Coordinator, BrokerWorker and
    BrokerChild).  Processes interleave at every call.  A process that crashes is one that
    never moves again, so any process may crash anywhere; only for workers does it matter
    to others that they are dead, because their lease may then be taken over.

    Local files: a call takes effect and is answered in one step, or throws with or without
    having taken effect.  C1: a call somebody issued may commit at any time, any number of
    times, or never, and whether it does is independent of the reply its issuer hears.
    GitHub and the result file of a child: every reply is possible. */
module System {
  import opened Domain
  import opened C1 = C1Contract
  import opened BrokerLogic
  import R = PolicyRegistry
  import D = Dedupe
  import J = JobStore
  import P = PushPolicy
  import PI = PushIngress
  import Co = Coordinator
  import W = BrokerWorker
  import Ch = BrokerChild
  import TR = TokenReaders
  import PIT = PushIngressTrace
  import CoT = CoordinatorTrace
  import WT = BrokerWorkerTrace
  import ChT = BrokerTrace

  type Pid = nat

  datatype Config = Config(operator: Did, remediation: Did, broker: Did, owner: string, repo: string)

  datatype Stores = Stores(files: R.Files, receipts: D.Receipts, jobs: J.Jobs)

  datatype Run<L, X> = Run(launch: L, log: seq<X>)

  type IngressRun = Run<PI.Launch, PI.Exchange>
  type CoordRun = Run<Co.Launch, Co.Exchange>
  type WorkerRun = Run<W.Launch, W.Exchange>
  type ChildRun = Run<Ch.Launch, Ch.Exchange>

  /** Processes are named by the random value they draw: an ingress by its reservation nonce,
      a coordinator pass by its handoff id, a child by its start nonce. */
  datatype Sys = Sys(
    stores: Stores, c1: Ledger,
    leases: map<IncidentId, Pid>, dead: set<Pid>,
    ingresses: map<Nonce, IngressRun>,
    coords: map<HandoffId, CoordRun>,
    workers: map<Pid, WorkerRun>,
    children: map<Nonce, ChildRun>)

  function Extended<L, X>(run: Run<L, X>, x: X): Run<L, X> { run.(log := run.log + [x]) }

  // ---- Where the processes are

  function IngressAt(run: IngressRun): PI.Ingress { PIT.At(run.launch, run.log) }
  function CoordAt(run: CoordRun): Co.Coord { CoT.At(run.launch, run.log) }
  function WorkerAt(run: WorkerRun): (w: W.Worker) ensures W.Ready(w) { WT.At(run.launch, run.log) }
  function ChildAt(run: ChildRun): (c: Ch.Child) ensures Ch.Ready(c) { ChT.At(run.launch, run.log) }

  // ---- What the stores answer an ingress

  ghost predicate Registered(files: R.Files, record: R.PolicyRecord) {
    P.RefOf(record.policy) in files.policies && files.policies[P.RefOf(record.policy)] == record
  }

  ghost predicate IngressMoves(st: Stores, call: PI.IngressCall, reply: PI.IngressReply, now: int, st': Stores) {
    match call {
      case FindReceipt(key) =>
        st' == st && (reply.Threw? || reply == PI.FoundReceipt(if key in st.receipts then Some(st.receipts[key]) else None))
      case ListActive | ListBound(_) =>
        st' == st && (reply.Threw? || (reply.Records? && forall r <- reply.records :: Registered(st.files, r)))
      case FindBound(_) =>
        st' == st && (reply.Threw? || (reply.BoundRecord? && (reply.record.Some? ==> Registered(st.files, reply.record.value))))
      case ReserveReceipt(event, nonce) =>
        var (receipts, reservation) := D.Reserve(st.receipts, event, nonce, now);
        || (st' == st.(receipts := receipts) && (reply.Threw? || (reply.ReservedAs? && reply.reservation == reservation)))
        || (st' == st && reply.Threw?)
      case ReadSource(_) => st' == st && (reply.Threw? || reply.Observed?)
      case Bind(input) =>
        var (files, outcome) := R.BindResult(st.files, input, now);
        || (st' == st.(files := files) && (reply.Threw? || reply == PI.BindReply(outcome)))
        || (st' == st && (reply.Threw? || (P.RefOf(input.policy) in st.files.bindings && reply == PI.BindReply(R.AlreadyBound))))
      case FinalizeReceipt(reservation, next, recovering) =>
        var receipts := D.Finalize(st.receipts, reservation, next, recovering);
        || (receipts.Some? && st' == st.(receipts := receipts.value) && (reply.Threw? || reply.Finalized?))
        || (st' == st && reply.Threw?)
      case CreateJob(frozen) =>
        var (jobs, result) := J.CreateResult(st.jobs, frozen);
        || (st' == st.(jobs := jobs) && (reply.Threw? || (result.Success? && reply == PI.JobReady(result.value))))
        || (st' == st && reply.Threw?)
    }
  }

  // ---- What C1 answers

  /** A reply that arrives was computed from some record of the incident; a confirmation or
      a read from the record as committed. */
  ghost predicate C1Answers(c1: Ledger, call: C1.Call, operator: Did, raw: Raw) {
    raw.Garbled? ||
    exists base: Option<Authority>, now: nat ::
      raw.reply == ReplyFrom(base, call, operator, now) && (ReadsCommitted(call.op) ==> base == Committed(c1, call.incident))
  }

  // ---- What a coordinator pass is answered

  ghost predicate JobMoves(jobs: J.Jobs, incident: IncidentId, patch: J.Patch, allow: bool, stored: Option<J.Job>, jobs': J.Jobs) {
    var (next, result) := J.UpdateResult(jobs, incident, patch, allow);
    if stored.Some? then jobs' == next && result == J.Success(stored.value) else jobs' == next || jobs' == jobs
  }

  ghost predicate CoordMoves(st: Stores, call: Co.CoordCall, reply: Co.CoordReply, st': Stores) {
    match call {
      case Ask(_) => st' == st && (reply.Threw? || reply.Answer?)
      case UpdateJob(incident, patch, allow) =>
        && st' == st.(jobs := st'.jobs)
        && (reply.Threw? || reply.Stored?)
        && JobMoves(st.jobs, incident, patch, allow, if reply.Stored? then Some(reply.job) else None, st'.jobs)
      case RetirePolicy(policy, incident) =>
        var (files, outcome) := R.RetireResult(st.files, policy, incident);
        || (st' == st.(files := files) && (reply.Threw? || (outcome.RetiredNow? && reply.Retired?)))
        || (st' == st && reply.Threw?)
    }
  }

  ghost predicate CoordTold(c1: Ledger, operator: Did, call: Co.CoordCall, reply: Co.CoordReply) {
    call.Ask? && reply.Answer? ==> C1Answers(c1, call.call, operator, reply.raw)
  }

  // ---- What a worker is answered

  function ChildLaunch(cfg: Config, job: J.Job, claimNonce: Nonce, startNonce: Nonce): Ch.Launch {
    var version := if job.claimVersion.Some? && job.claimVersion.value >= 0 then job.claimVersion.value else 0;
    Ch.Launch(job.frozen.incident, cfg.broker, version, W.ExistingClaim(job), job.frozen.title, cfg.owner, cfg.repo, "broker", claimNonce, startNonce)
  }

  /** The lease is free, or its owner is a worker that is dead. */
  predicate Takeable(s: Sys, incident: IncidentId) {
    incident in s.leases ==> s.leases[incident] in s.dead
  }

  /** GitHub may say anything, but the verification runs as VerifyProviderTarget does. */
  ghost predicate VerifiedAt(cfg: Config, keyId: int, absent: bool, log: TR.Log) {
    TR.Verified(log, cfg.owner, cfg.repo, keyId) && absent == TR.FoundAbsent(log[..4], keyId)
  }

  /** Everything but the worker's own log. */
  ghost predicate WorkerMoves(cfg: Config, s: Sys, pid: Pid, call: W.WorkerCall, reply: W.WorkerReply, claimNonce: Nonce, startNonce: Nonce, s': Sys) {
    match call {
      case AcquireLease(incident) =>
        || (Takeable(s, incident) && s' == s.(leases := s.leases[incident := pid]) && (reply == W.Held(true) || reply.Threw?))
        || (s' == s && (reply == W.Held(false) || reply.Threw?))
      case ReleaseLease(incident) =>
        || (incident in s.leases && s.leases[incident] == pid && s' == s.(leases := s.leases - {incident}) && reply.Released?)
        || (s' == s && reply.Released?)
      case ReadJob(incident) => s' == s && (reply.Threw? || (incident in s.stores.jobs && reply == W.Fetched(s.stores.jobs[incident])))
      case UpdateJob(incident, patch, allow) =>
        && s' == s.(stores := s.stores.(jobs := s'.stores.jobs))
        && (reply.Threw? || reply.Stored?)
        && JobMoves(s.stores.jobs, incident, patch, allow, if reply.Stored? then Some(reply.job) else None, s'.stores.jobs)
      case StartChild(job, _) =>
        || (startNonce !in s.children && s' == s.(children := s.children[startNonce := Run(ChildLaunch(cfg, job, claimNonce, startNonce), [])])
            && (reply.ChildStarted? || reply.Threw?))
        || (s' == s && reply.Threw?)
      case AwaitChild => s' == s && (reply.Threw? || reply.ChildEnded?)
      case VerifyTarget(keyId, _) => s' == s && (reply.Threw? || (reply.Verified? && VerifiedAt(cfg, keyId, reply.absent, reply.log)))
      case Ask(_) => s' == s && (reply.Threw? || reply.Answer?)
    }
  }

  ghost predicate WorkerTold(c1: Ledger, operator: Did, call: W.WorkerCall, reply: W.WorkerReply) {
    call.Ask? && reply.Answer? ==> C1Answers(c1, call.call, operator, reply.raw)
  }

  // ---- What a child is answered

  ghost predicate ChildTold(c1: Ledger, operator: Did, call: Ch.ChildCall, reply: Ch.ChildReply) {
    call.Invoke? && reply.Answer? ==> C1Answers(c1, call.call, operator, reply.raw)
  }

  // ---- Calls that may commit

  ghost predicate SentByCoord(coords: map<HandoffId, CoordRun>, call: C1.Call) {
    exists h, n: nat :: h in coords && CoT.Issues(coords[h].launch, coords[h].log, n, Co.Ask(call))
  }

  ghost predicate SentByWorker(workers: map<Pid, WorkerRun>, call: C1.Call) {
    exists pid, n: nat :: pid in workers && WT.Issues(workers[pid].launch, workers[pid].log, n, W.Ask(call))
  }

  ghost predicate SentByChild(children: map<Nonce, ChildRun>, call: C1.Call) {
    exists pid, n: nat :: pid in children && ChT.Issues(children[pid].launch, children[pid].log, n, Ch.Invoke(call))
  }

  /** Calls of strangers and of contenders that hold the broker's or the remediation
      credential without running this program: anything but the operator's creation of
      incidents and the verdicts on an effect. */
  predicate Rival(cfg: Config, call: C1.Call) {
    (call.op.Create? ==> call.caller != cfg.operator) && !call.op.Finalize? && !call.op.Reconcile?
  }

  // ---- Steps

  datatype Action =
    | AddPolicy(record: R.PolicyRecord)
    | Deliver(event: Event, nonce: Nonce)
    | IngressStep(nonce: Nonce, ireply: PI.IngressReply, now: int)
    | Recover(key: DedupeKey)
    | Observe(incident: IncidentId, handoff: HandoffId)
    | CoordStep(handoff: HandoffId, creply: Co.CoordReply)
    | Work(pid: Pid, kind: W.Kind, incident: IncidentId)
    | WorkerStep(pid: Pid, wreply: W.WorkerReply, claimNonce: Nonce, startNonce: Nonce)
    | Crash(pid: Pid)
    | Contend(launch: Ch.Launch)
    | ChildStep(child: Nonce, reply: Ch.ChildReply)
    | Transact(call: C1.Call, at: nat)

  ghost predicate Delivers(s: Sys, event: Event, nonce: Nonce, s': Sys) {
    nonce !in s.ingresses && event.source == PUSH_SOURCE && s' == s.(ingresses := s.ingresses[nonce := Run(PI.Launch(event, nonce), [])])
  }

  ghost predicate IngressSteps(s: Sys, nonce: Nonce, reply: PI.IngressReply, now: int, s': Sys) {
    nonce in s.ingresses && !IngressAt(s.ingresses[nonce]).pc.Ended? &&
    var call := PI.CallOf(IngressAt(s.ingresses[nonce]));
    && IngressMoves(s.stores, call, reply, now, s'.stores)
    && s' == s.(stores := s'.stores, ingresses := s.ingresses[nonce := Extended(s.ingresses[nonce], PI.Exchange(call, reply))])
  }

  ghost predicate Recovers(s: Sys, key: DedupeKey, s': Sys) {
    && key in s.stores.receipts && s.stores.receipts[key].state.Accepted?
    && s' == s.(stores := s.stores.(jobs := J.CreateResult(s.stores.jobs, PI.FrozenOf(key, s.stores.receipts[key].state.acceptance)).0))
  }

  ghost predicate Observes(cfg: Config, s: Sys, incident: IncidentId, handoff: HandoffId, s': Sys) {
    && incident in s.stores.jobs && handoff !in s.coords
    && s' == s.(coords := s.coords[handoff := Run(Co.Launch(s.stores.jobs[incident], cfg.operator, cfg.remediation, cfg.owner, cfg.repo, handoff), [])])
  }

  ghost predicate CoordSteps(s: Sys, handoff: HandoffId, reply: Co.CoordReply, s': Sys) {
    handoff in s.coords && !CoordAt(s.coords[handoff]).pc.Finished? &&
    var call := Co.CallOf(CoordAt(s.coords[handoff]));
    && CoordMoves(s.stores, call, reply, s'.stores)
    && s' == s.(stores := s'.stores, coords := s.coords[handoff := Extended(s.coords[handoff], Co.Exchange(call, reply))])
  }

  ghost predicate Works(cfg: Config, s: Sys, pid: Pid, kind: W.Kind, incident: IncidentId, s': Sys) {
    pid !in s.workers && s' == s.(workers := s.workers[pid := Run(W.Launch(kind, incident, cfg.broker), [])])
  }

  ghost predicate WorkerSteps(cfg: Config, s: Sys, pid: Pid, reply: W.WorkerReply, claimNonce: Nonce, startNonce: Nonce, s': Sys) {
    pid in s.workers && pid !in s.dead && !WorkerAt(s.workers[pid]).pc.Ended? &&
    var call := W.CallOf(WorkerAt(s.workers[pid]));
    && s'.workers == s.workers[pid := Extended(s.workers[pid], W.Exchange(call, reply))]
    && WorkerMoves(cfg, s, pid, call, reply, claimNonce, startNonce, s'.(workers := s.workers))
  }

  ghost predicate Contends(s: Sys, launch: Ch.Launch, s': Sys) {
    launch.startNonce !in s.children && s' == s.(children := s.children[launch.startNonce := Run(launch, [])])
  }

  ghost predicate ChildSteps(s: Sys, child: Nonce, reply: Ch.ChildReply, s': Sys) {
    child in s.children && !ChildAt(s.children[child]).pc.Done? &&
    var call := Ch.CallOf(ChildAt(s.children[child]));
    && s' == s.(children := s.children[child := Extended(s.children[child], Ch.Exchange(call, reply))])
  }

  ghost predicate MayCommit(cfg: Config, s: Sys, call: C1.Call) {
    SentByCoord(s.coords, call) || SentByWorker(s.workers, call) || SentByChild(s.children, call) || Rival(cfg, call)
  }

  ghost predicate Transacts(cfg: Config, s: Sys, call: C1.Call, at: nat, s': Sys) {
    && MayCommit(cfg, s, call)
    && s' == s.(c1 := Commit(s.c1, call, cfg.operator, at))
  }

  ghost predicate AddsPolicy(s: Sys, record: R.PolicyRecord, s': Sys) {
    var ref := P.RefOf(record.policy);
    && R.ValidRecord(record) && ref !in s.stores.files.policies
    && s' == s.(stores := s.stores.(files := s.stores.files.(policies := s.stores.files.policies[ref := record])))
  }

  ghost predicate Next(cfg: Config, s: Sys, a: Action, s': Sys) {
    match a {
      case AddPolicy(record) => AddsPolicy(s, record, s')
      case Deliver(event, nonce) => Delivers(s, event, nonce, s')
      case IngressStep(nonce, reply, now) => IngressSteps(s, nonce, reply, now, s')
      case Recover(key) => Recovers(s, key, s')
      case Observe(incident, handoff) => Observes(cfg, s, incident, handoff, s')
      case CoordStep(handoff, reply) =>
        CoordSteps(s, handoff, reply, s') && CoordTold(s.c1, cfg.operator, Co.CallOf(CoordAt(s.coords[handoff])), reply)
      case Work(pid, kind, incident) => Works(cfg, s, pid, kind, incident, s')
      case WorkerStep(pid, reply, claimNonce, startNonce) =>
        WorkerSteps(cfg, s, pid, reply, claimNonce, startNonce, s') && WorkerTold(s.c1, cfg.operator, W.CallOf(WorkerAt(s.workers[pid])), reply)
      case Crash(pid) => s' == s.(dead := s.dead + {pid})
      case Contend(launch) => Contends(s, launch, s')
      case ChildStep(child, reply) =>
        ChildSteps(s, child, reply, s') && ChildTold(s.c1, cfg.operator, Ch.CallOf(ChildAt(s.children[child])), reply)
      case Transact(call, at) => Transacts(cfg, s, call, at, s')
    }
  }

  const EMPTY := Sys(Stores(R.Files(map[], map[], map[]), map[], map[]), map[], map[], {}, map[], map[], map[], map[])

  /** A behaviour of the deployment, from empty stores. */
  ghost predicate IsRun(cfg: Config, run: seq<Sys>, actions: seq<Action>) {
    && |run| == |actions| + 1 && run[0] == EMPTY
    && forall i | 0 <= i < |actions| :: Next(cfg, run[i], actions[i], run[i + 1])
  }
}
