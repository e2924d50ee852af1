/** winner/runtime/broker-worker.ts: one `processHandoff` or `processReconciliation` under
    its lease, as a machine that makes one call at a time. */
module BrokerWorker {
  import opened Domain
  import opened C1 = C1Contract
  import opened BrokerLogic
  import J = JobStore
  import TR = TokenReaders

  datatype Kind = Handoff | Reconciliation

  datatype Launch = Launch(kind: Kind, incident: IncidentId, broker: Did)

  /** The fields of a child's result file that the worker looks at. */
  datatype ChildResult = ChildResult(
    startConfirmed: bool, start: Option<StartId>, c1State: Option<Status>, c1Result: Option<Outcome>,
    claim: Option<ClaimId>, claimVersion: Option<int>, classification: Option<Classification>)

  datatype WorkerCall =
    | AcquireLease(incident: IncidentId)
    | ReadJob(incident: IncidentId)
    | UpdateJob(incident: IncidentId, patch: J.Patch, allowConflict: bool)
    | StartChild(job: J.Job, handoff: HandoffId)
    | AwaitChild
    | VerifyTarget(keyId: int, handoff: HandoffId)
    | Ask(call: C1.Call)
    | ReleaseLease(incident: IncidentId)

  /** `Verified` comes with what the verification said to GitHub and heard. */
  datatype WorkerReply =
    | Threw
    | Held(acquired: bool)
    | Fetched(job: J.Job)
    | Stored(job: J.Job)
    | ChildStarted
    | ChildEnded(result: ChildResult)
    | Verified(absent: bool, log: TR.Log)
    | Answer(raw: Raw)
    | Released

  datatype Exchange = Exchange(call: WorkerCall, reply: WorkerReply)

  /** `handoff` is the id this invocation read and consumes. */
  datatype Pc =
    | Acquiring
    | Fetching
    | MarkingConflict
    | Consuming(leased: J.Job)
    | MarkingProcessing(handoff: HandoffId)
    | Launching(job: J.Job, handoff: HandoffId, first: bool)
    | Awaiting(job: J.Job, first: bool)
    | Recording(patch: J.Patch, first: bool)
    | RecordingFailure(first: bool)
    | Verifying(job: J.Job, handed: J.Job, handoff: HandoffId)
    | Reconciling(handed: J.Job, absent: bool)
    | RecordingVerdict(absent: bool, remote: Option<Status>)
    | Releasing
    | Ended

  datatype Worker = Worker(launch: Launch, pc: Pc)

  function Launched(l: Launch): Worker { Worker(l, Acquiring) }

  /** The checks on the leased job: nothing to do, a contradiction, or go on. */
  datatype Routing = Nothing | Conflict | Proceed

  predicate Unconsumed(job: J.Job) { job.handoff.Some? && job.handoff != job.consumed }

  predicate ClaimKnown(job: J.Job) {
    job.claim.Some? && job.claimVersion.Some? && job.claimVersion.value != 0
  }

  function Route(kind: Kind, job: J.Job): Routing {
    match kind {
      case Handoff =>
        if job.state != J.HandoffReady && job.state != J.RetryReady then Nothing
        else if !Unconsumed(job) then Nothing
        else if job.remote !in {Some(Reserved), Some(ReadyRetry), Some(EffectClaimed)} then Conflict
        else if job.remote == Some(EffectClaimed) && !ClaimKnown(job) then Conflict
        else Proceed
      case Reconciliation =>
        if job.state != J.ReconcileRequired || job.claim.None? || job.start.None? then Nothing
        else if !Unconsumed(job) then Nothing
        else if job.remote !in {Some(EffectStarted), Some(ReconcileRequired), Some(Failed)} then Conflict
        else Proceed
    }
  }

  /** The environment handed to the child: an existing claim only for EFFECT_CLAIMED. */
  function ExistingClaim(job: J.Job): Option<Claimed> {
    if job.remote == Some(EffectClaimed) && ClaimKnown(job) then Some(Claimed(job.claim.value, job.claimVersion.value)) else None
  }

  predicate EffectStartedIn(result: ChildResult) { result.startConfirmed || result.start.Some? }

  predicate ClosedIn(result: ChildResult) { result.c1State == Some(Closed) && result.c1Result == Some(Won) }

  function OutcomePatch(job: J.Job, result: ChildResult): J.Patch {
    var state := if ClosedIn(result) then J.Closed else if EffectStartedIn(result) then J.ReconcileRequired else J.RetryReady;
    J.NO_CHANGE.(
      state := Some(state),
      claim := Some(if result.claim.Some? then result.claim else job.claim),
      claimVersion := Some(if result.claimVersion.Some? then result.claimVersion else job.claimVersion),
      start := Some(if result.start.Some? then result.start else job.start),
      classification := Some(result.classification))
  }

  function FailurePatch(first: bool): J.Patch {
    J.NO_CHANGE.(state := Some(if first then J.Processing else J.RetryReady))
  }

  function VerdictPatch(absent: bool, remote: Option<Status>): J.Patch {
    J.NO_CHANGE.(
      state := Some(if absent then J.Closed else J.ReconcileRequired),
      classification := Some(Some(if absent then VerifiedAbsent else VerifiedPresent)),
      remote := Some(remote))
  }

  function Verdict(absent: bool): Classification { if absent then VerifiedAbsent else VerifiedPresent }

  /** Without both ids the request is malformed and the call throws. */
  predicate ReadyToReconcile(job: J.Job) { job.claim.Some? && job.start.Some? }

  predicate Ready(w: Worker) {
    match w.pc {
      case Consuming(leased) => leased.handoff.Some?
      case Reconciling(handed, _) => ReadyToReconcile(handed)
      case _ => true
    }
  }

  function CallOf(w: Worker): WorkerCall
    requires Ready(w) && !w.pc.Ended?
  {
    var incident := w.launch.incident;
    match w.pc {
      case Acquiring => AcquireLease(incident)
      case Fetching => ReadJob(incident)
      case MarkingConflict => UpdateJob(incident, J.NO_CHANGE.(state := Some(J.StateConflict)), true)
      case Consuming(leased) => UpdateJob(incident, J.NO_CHANGE.(consumed := Some(leased.handoff)), false)
      case MarkingProcessing(_) => UpdateJob(incident, J.NO_CHANGE.(state := Some(J.Processing)), false)
      case Launching(job, handoff, _) => StartChild(job, handoff)
      case Awaiting(_, _) => AwaitChild
      case Recording(patch, _) => UpdateJob(incident, patch, false)
      case RecordingFailure(first) => UpdateJob(incident, FailurePatch(first), false)
      case Verifying(job, _, handoff) => VerifyTarget(job.frozen.keyId, handoff)
      case Reconciling(handed, absent) =>
        Ask(C1.Call(w.launch.broker, incident, Reconcile(handed.claim.value, handed.start.value, Verdict(absent))))
      case RecordingVerdict(absent, remote) => UpdateJob(incident, VerdictPatch(absent, remote), false)
      case Releasing => ReleaseLease(incident)
    }
  }

  function Step(w: Worker, r: WorkerReply): (w': Worker)
    requires Ready(w) && !w.pc.Ended?
    ensures Ready(w') && w'.launch == w.launch
  {
    match w.pc {
      case Acquiring => if r.Held? && r.acquired then w.(pc := Fetching) else w.(pc := Ended)
      case Fetching =>
        if !r.Fetched? then w.(pc := Releasing)
        else match Route(w.launch.kind, r.job) {
          case Nothing => w.(pc := Releasing)
          case Conflict => w.(pc := MarkingConflict)
          case Proceed => w.(pc := Consuming(r.job))
        }
      case MarkingConflict => w.(pc := Releasing)
      case Consuming(leased) =>
        if !r.Stored? then w.(pc := Releasing)
        else if w.launch.kind == Reconciliation then w.(pc := Verifying(leased, r.job, leased.handoff.value))
        else if r.job.state == J.HandoffReady then w.(pc := MarkingProcessing(leased.handoff.value))
        else w.(pc := Launching(r.job, leased.handoff.value, false))
      case MarkingProcessing(handoff) =>
        if r.Stored? then w.(pc := Launching(r.job, handoff, true)) else w.(pc := Releasing)
      case Launching(job, _, first) => if r.ChildStarted? then w.(pc := Awaiting(job, first)) else w.(pc := RecordingFailure(first))
      case Awaiting(job, first) =>
        if r.ChildEnded? then w.(pc := Recording(OutcomePatch(job, r.result), first)) else w.(pc := RecordingFailure(first))
      case Recording(_, first) => if r.Stored? then w.(pc := Releasing) else w.(pc := RecordingFailure(first))
      case RecordingFailure(_) => w.(pc := Releasing)
      case Verifying(_, handed, _) => if r.Verified? && ReadyToReconcile(handed) then w.(pc := Reconciling(handed, r.absent)) else w.(pc := Releasing)
      case Reconciling(_, absent) =>
        if r.Answer? && r.raw.Object? then w.(pc := RecordingVerdict(absent, r.raw.reply.state)) else w.(pc := Releasing)
      case RecordingVerdict(_, _) => w.(pc := Releasing)
      case Releasing => w.(pc := Ended)
    }
  }
}
