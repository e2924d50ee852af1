/** What a leased worker must hear before each of its calls, and what it records of a child, of
    a failure and of a reconciliation, with every branch spelled out over exchanges. */
module WorkerConversation {
  import opened Domain
  import opened C1 = C1Contract
  import opened BrokerLogic
  import opened BrokerWorker
  import opened BrokerWorkerTrace
  import J = JobStore
  import TR = TokenReaders

  function Prior(h: History): History
    requires h != []
  {
    h[..|h| - 1]
  }

  predicate EndsWith(h: History, call: WorkerCall) { h != [] && h[|h| - 1].call == call }

  function Heard(h: History): WorkerReply
    requires h != []
  {
    h[|h| - 1].reply
  }

  // ---- Up to the handoff's consumption

  predicate HasLease(l: Launch, h: History) { |h| == 1 && EndsWith(h, AcquireLease(l.incident)) && Heard(h) == Held(true) }

  predicate HasJob(l: Launch, h: History, job: J.Job) {
    EndsWith(h, ReadJob(l.incident)) && Heard(h) == Fetched(job) && HasLease(l, Prior(h))
  }

  /** The operator's handoff is there and was not used. */
  predicate IsHanded(job: J.Job) { job.handoff.Some? && (job.consumed.None? || job.consumed.value != job.handoff.value) }

  /** The job waits for this kind of invocation. */
  predicate Awaits(l: Launch, job: J.Job) {
    && IsHanded(job)
    && (l.kind == Handoff ==> job.state == J.HandoffReady || job.state == J.RetryReady)
    && (l.kind == Reconciliation ==> job.state == J.ReconcileRequired && job.claim.Some? && job.start.Some?)
  }

  /** And C1's state, as the operator observed it, agrees. */
  predicate MayAct(l: Launch, job: J.Job) {
    && (l.kind == Handoff ==>
          || job.remote == Some(Reserved) || job.remote == Some(ReadyRetry)
          || (job.remote == Some(EffectClaimed) && job.claim.Some? && job.claimVersion.Some? && job.claimVersion.value != 0))
    && (l.kind == Reconciliation ==>
          job.remote == Some(EffectStarted) || job.remote == Some(ReconcileRequired) || job.remote == Some(Failed))
  }

  function Consumption(l: Launch, job: J.Job): WorkerCall {
    UpdateJob(l.incident, J.Patch(None, None, None, None, None, None, None, Some(job.handoff)), false)
  }

  /** The handoff is used up, before anything is done with it. */
  predicate HasConsumed(l: Launch, h: History, job: J.Job, handed: J.Job) {
    && EndsWith(h, Consumption(l, job)) && Heard(h) == Stored(handed)
    && HasJob(l, Prior(h), job) && Awaits(l, job) && MayAct(l, job)
  }

  function StateWrite(l: Launch, state: J.JobState, allow: bool): WorkerCall {
    UpdateJob(l.incident, J.Patch(Some(state), None, None, None, None, None, None, None), allow)
  }

  // ---- The child

  /** A handoff under way: the job as leased, the job the child is started for, and whether this
      is its first attempt. */
  datatype Errand = Errand(leased: J.Job, job: J.Job, first: bool)

  /** A child may be started: for the first time, the job being PROCESSING now, or once more. */
  predicate MayStart(l: Launch, h: History, e: Errand) {
    l.kind == Handoff &&
    if e.first then
      && EndsWith(h, StateWrite(l, J.Processing, false)) && Heard(h) == Stored(e.job)
      && Prior(h) != [] && Heard(Prior(h)).Stored? && Heard(Prior(h)).job.state == J.HandoffReady
      && HasConsumed(l, Prior(h), e.leased, Heard(Prior(h)).job)
    else HasConsumed(l, h, e.leased, e.job) && e.job.state != J.HandoffReady
  }

  function Start(e: Errand): WorkerCall
    requires e.leased.handoff.Some?
  {
    StartChild(e.job, e.leased.handoff.value)
  }

  predicate HasStarted(l: Launch, h: History, e: Errand) {
    e.leased.handoff.Some? && EndsWith(h, Start(e)) && Heard(h).ChildStarted? && MayStart(l, Prior(h), e)
  }

  predicate HasResult(l: Launch, h: History, e: Errand, result: ChildResult) {
    EndsWith(h, AwaitChild) && Heard(h) == ChildEnded(result) && HasStarted(l, Prior(h), e)
  }

  /** What is recorded of a child: CLOSED on C1's own WON and CLOSED, else RECONCILE_REQUIRED as
      soon as the effect may have started, else RETRY_READY. */
  predicate Recorded(result: ChildResult, state: J.JobState) {
    var closed := result.c1State == Some(Closed) && result.c1Result == Some(Won);
    var started := result.startConfirmed || result.start.Some?;
    && (state == J.Closed <==> closed)
    && (state == J.ReconcileRequired <==> !closed && started)
    && (state == J.RetryReady <==> !closed && !started)
  }

  /** The result's value, or the job's where the result has none. */
  predicate FallsBack<T(==)>(change: Option<Option<T>>, told: Option<T>, known: Option<T>) {
    change.Some? && (told.Some? ==> change.value == told) && (told.None? ==> change.value == known)
  }

  predicate ResultWrite(l: Launch, job: J.Job, result: ChildResult, call: WorkerCall) {
    && call.UpdateJob? && call.incident == l.incident && !call.allowConflict
    && call.patch.state.Some? && Recorded(result, call.patch.state.value)
    && FallsBack(call.patch.claim, result.claim, job.claim)
    && FallsBack(call.patch.claimVersion, result.claimVersion, job.claimVersion)
    && FallsBack(call.patch.start, result.start, job.start)
    && call.patch.classification == Some(result.classification)
    && call.patch.remote.None? && call.patch.handoff.None? && call.patch.consumed.None?
  }

  /** The child could not be started or awaited, or its result could not be recorded. */
  predicate HasFailed(l: Launch, h: History, e: Errand) {
    h != [] && e.leased.handoff.Some? &&
    ( || (EndsWith(h, Start(e)) && !Heard(h).ChildStarted? && MayStart(l, Prior(h), e))
      || (EndsWith(h, AwaitChild) && !Heard(h).ChildEnded? && HasStarted(l, Prior(h), e))
      || (h[|h| - 1].call.UpdateJob? && !Heard(h).Stored? && Prior(h) != [] && Heard(Prior(h)).ChildEnded?
          && HasResult(l, Prior(h), e, Heard(Prior(h)).result)))
  }

  // ---- A reconciliation

  /** The provider was asked about the leased job's key, after the handoff was used up. */
  predicate HasVerified(l: Launch, h: History, leased: J.Job, handed: J.Job) {
    && l.kind == Reconciliation && leased.handoff.Some?
    && EndsWith(h, VerifyTarget(leased.frozen.keyId, leased.handoff.value)) && Heard(h).Verified?
    && HasConsumed(l, Prior(h), leased, handed)
  }

  function VerdictCall(l: Launch, handed: J.Job, absent: bool): WorkerCall
    requires handed.claim.Some? && handed.start.Some?
  {
    Ask(C1.Call(l.broker, l.incident, Reconcile(handed.claim.value, handed.start.value, if absent then VerifiedAbsent else VerifiedPresent)))
  }

  /** C1 answered the verdict, with WON or not. */
  predicate HasReconciled(l: Launch, h: History, leased: J.Job, handed: J.Job) {
    && handed.claim.Some? && handed.start.Some? && h != [] && Prior(h) != [] && HasVerified(l, Prior(h), leased, handed)
    && h[|h| - 1].call == VerdictCall(l, handed, Heard(Prior(h)).absent) && Heard(h).Answer? && Heard(h).raw.Object?
  }

  function VerdictWrite(l: Launch, absent: bool, remote: Option<Status>): WorkerCall {
    UpdateJob(l.incident,
              J.Patch(Some(if absent then J.Closed else J.ReconcileRequired), Some(remote), None, None, None,
                      Some(Some(if absent then VerifiedAbsent else VerifiedPresent)), None, None),
              false)
  }

  // ---- Where an invocation comes from

  predicate Follows(before: Pc, pc: Pc) {
    match pc {
      case Acquiring => false
      case Fetching => before.Acquiring?
      case MarkingConflict => before.Fetching?
      case Consuming(_) => before.Fetching?
      case MarkingProcessing(_) => before.Consuming?
      case Launching(_, _, first) => if first then before.MarkingProcessing? else before.Consuming?
      case Awaiting(_, _) => before.Launching?
      case Recording(_, _) => before.Awaiting?
      case RecordingFailure(_) => before.Launching? || before.Awaiting? || before.Recording?
      case Verifying(_, _, _) => before.Consuming?
      case Reconciling(_, _) => before.Verifying?
      case RecordingVerdict(_, _) => before.Reconciling?
      case Releasing => true
      case Ended => before.Acquiring? || before.Releasing?
    }
  }

  lemma LastStep(l: Launch, h: History)
    requires IsHistory(l, h) && h != []
    ensures IsHistory(l, Prior(h)) && !At(l, Prior(h)).pc.Ended?
    ensures h[|h| - 1].call == CallOf(At(l, Prior(h))) && At(l, h) == Step(At(l, Prior(h)), Heard(h))
    ensures Follows(At(l, Prior(h)).pc, At(l, h).pc)
  {
    hide Route, OutcomePatch, FailurePatch, VerdictPatch;
  }

  lemma AtAcquiring(l: Launch, h: History)
    requires IsHistory(l, h)
    ensures At(l, h).pc.Acquiring? <==> h == []
    ensures h == [] ==> At(l, h) == Launched(l)
  {
    hide Step, CallOf, IsHistory;
    if h != [] {
      LastStep(l, h);
    }
  }

  lemma AtFetching(l: Launch, h: History)
    requires IsHistory(l, h)
    ensures At(l, h).pc.Fetching? <==> HasLease(l, h)
  {
    hide IsHistory, At, Route, OutcomePatch;
    if h == [] {
      AtAcquiring(l, h);
    } else {
      LastStep(l, h);
      AtAcquiring(l, Prior(h));
    }
  }

  lemma AtConsuming(l: Launch, h: History, job: J.Job)
    requires IsHistory(l, h)
    ensures At(l, h).pc == Consuming(job) <==> HasJob(l, h, job) && Awaits(l, job) && MayAct(l, job)
    ensures At(l, h).pc == MarkingConflict && HasJob(l, h, job) <==> HasJob(l, h, job) && Awaits(l, job) && !MayAct(l, job)
  {
    hide IsHistory, At, OutcomePatch;
    if h == [] {
      AtAcquiring(l, h);
    } else {
      LastStep(l, h);
      AtFetching(l, Prior(h));
    }
  }

  lemma AtConsumed(l: Launch, h: History, leased: J.Job, handed: J.Job)
    requires IsHistory(l, h) && HasConsumed(l, h, leased, handed)
    ensures leased.handoff.Some?
    ensures At(l, h).pc == if l.kind == Reconciliation then Verifying(leased, handed, leased.handoff.value)
                           else if handed.state == J.HandoffReady then MarkingProcessing(leased.handoff.value)
                           else Launching(handed, leased.handoff.value, false)
  {
    hide IsHistory, At, OutcomePatch, HasJob, MayAct, Route;
    LastStep(l, h);
    AtConsuming(l, Prior(h), leased);
  }

  /** Past the consumption there was one. */
  lemma ConsumedBefore(l: Launch, h: History) returns (leased: J.Job, handed: J.Job)
    requires IsHistory(l, h) && h != [] && At(l, Prior(h)).pc.Consuming? && Heard(h).Stored?
    ensures HasConsumed(l, h, leased, handed)
  {
    hide IsHistory, At, OutcomePatch, HasJob, MayAct, Awaits, Route;
    LastStep(l, h);
    leased := At(l, Prior(h)).pc.leased;
    handed := Heard(h).job;
    AtConsuming(l, Prior(h), leased);
  }

  lemma AtLaunching(l: Launch, h: History, e: Errand)
    requires IsHistory(l, h)
    ensures MayStart(l, h, e) ==> e.leased.handoff.Some? && At(l, h).pc == Launching(e.job, e.leased.handoff.value, e.first)
  {
    hide IsHistory, At, OutcomePatch, HasConsumed, Route;
    if MayStart(l, h, e) {
      if e.first {
        LastStep(l, h);
        AtConsumed(l, Prior(h), e.leased, Heard(Prior(h)).job);
      } else {
        AtConsumed(l, h, e.leased, e.job);
      }
    }
  }

  lemma LaunchingErrand(l: Launch, h: History) returns (e: Errand)
    requires IsHistory(l, h) && At(l, h).pc.Launching?
    ensures MayStart(l, h, e) && e.leased.handoff.Some? && At(l, h).pc == Launching(e.job, e.leased.handoff.value, e.first)
  {
    hide IsHistory, At, OutcomePatch, HasConsumed, Route;
    if h == [] {
      AtAcquiring(l, h);
    } else {
      LastStep(l, h);
      if At(l, h).pc.first {
        e := MarkedErrand(l, h);
      } else {
        var leased, handed := ConsumedBefore(l, h);
        AtConsumed(l, h, leased, handed);
        e := Errand(leased, handed, false);
      }
    }
  }

  lemma MarkedErrand(l: Launch, h: History) returns (e: Errand)
    requires IsHistory(l, h) && h != [] && At(l, Prior(h)).pc.MarkingProcessing? && At(l, h).pc.Launching?
    ensures MayStart(l, h, e) && e.first && e.leased.handoff.Some? && At(l, h).pc == Launching(e.job, e.leased.handoff.value, true)
  {
    hide IsHistory, At, OutcomePatch, HasConsumed, Route;
    LastStep(l, h);
    var before := Prior(h);
    if before == [] {
      AtAcquiring(l, before);
    } else {
      LastStep(l, before);
      var leased, handed := ConsumedBefore(l, before);
      AtConsumed(l, before, leased, handed);
      e := Errand(leased, Heard(h).job, true);
      HandedIsHeard(l, before, leased, handed);
    }
  }

  lemma HandedIsHeard(l: Launch, h: History, leased: J.Job, handed: J.Job)
    requires HasConsumed(l, h, leased, handed)
    ensures h != [] && Heard(h) == Stored(handed)
  {
  }

  lemma AtAwaiting(l: Launch, h: History, e: Errand)
    requires IsHistory(l, h) && HasStarted(l, h, e)
    ensures At(l, h).pc == Awaiting(e.job, e.first)
  {
    hide IsHistory, At, OutcomePatch, MayStart, Route;
    LastStep(l, h);
    AtLaunching(l, Prior(h), e);
  }

  lemma AwaitingErrand(l: Launch, h: History) returns (e: Errand)
    requires IsHistory(l, h) && At(l, h).pc.Awaiting?
    ensures HasStarted(l, h, e) && At(l, h).pc == Awaiting(e.job, e.first)
  {
    hide IsHistory, At, OutcomePatch, MayStart, Route;
    if h == [] {
      AtAcquiring(l, h);
    } else {
      LastStep(l, h);
      e := LaunchingErrand(l, Prior(h));
    }
  }

  lemma AtRecording(l: Launch, h: History, e: Errand, result: ChildResult)
    requires IsHistory(l, h) && HasResult(l, h, e, result)
    ensures At(l, h).pc == Recording(OutcomePatch(e.job, result), e.first)
  {
    hide IsHistory, At, OutcomePatch, HasStarted, Route;
    LastStep(l, h);
    AtAwaiting(l, Prior(h), e);
  }

  lemma RecordingErrand(l: Launch, h: History) returns (e: Errand, result: ChildResult)
    requires IsHistory(l, h) && At(l, h).pc.Recording?
    ensures HasResult(l, h, e, result) && At(l, h).pc == Recording(OutcomePatch(e.job, result), e.first)
  {
    hide IsHistory, At, OutcomePatch, HasStarted, Route;
    if h == [] {
      AtAcquiring(l, h);
    } else {
      LastStep(l, h);
      e := AwaitingErrand(l, Prior(h));
      result := Heard(h).result;
    }
  }

  lemma AtFailure(l: Launch, h: History, e: Errand)
    requires IsHistory(l, h) && HasFailed(l, h, e)
    ensures At(l, h).pc == RecordingFailure(e.first)
  {
    hide IsHistory, At, OutcomePatch, HasStarted, HasResult, MayStart, Route;
    LastStep(l, h);
    AtLaunching(l, Prior(h), e);
    if HasStarted(l, Prior(h), e) {
      AtAwaiting(l, Prior(h), e);
    }
    if Prior(h) != [] && Heard(Prior(h)).ChildEnded? && HasResult(l, Prior(h), e, Heard(Prior(h)).result) {
      AtRecording(l, Prior(h), e, Heard(Prior(h)).result);
    }
  }

  lemma FailureErrand(l: Launch, h: History) returns (e: Errand)
    requires IsHistory(l, h) && At(l, h).pc.RecordingFailure?
    ensures HasFailed(l, h, e) && At(l, h).pc == RecordingFailure(e.first)
  {
    hide IsHistory, At, OutcomePatch, Route, MayStart;
    if h == [] {
      AtAcquiring(l, h);
    } else {
      LastStep(l, h);
      match At(l, Prior(h)).pc {
        case Launching(_, _, _) => e := LaunchingErrand(l, Prior(h));
        case Awaiting(_, _) => e := AwaitingErrand(l, Prior(h));
        case Recording(_, _) =>
          var result;
          e, result := RecordingErrand(l, Prior(h));
        case _ =>
      }
    }
  }

  lemma AtVerifying(l: Launch, h: History, leased: J.Job, handed: J.Job)
    requires IsHistory(l, h) && HasVerified(l, h, leased, handed)
    ensures At(l, h).pc == if handed.claim.Some? && handed.start.Some? then Reconciling(handed, Heard(h).absent) else Releasing
  {
    hide IsHistory, At, OutcomePatch, HasConsumed, Route;
    LastStep(l, h);
    AtConsumed(l, Prior(h), leased, handed);
  }

  lemma ReconcilingJobs(l: Launch, h: History) returns (leased: J.Job, handed: J.Job)
    requires IsHistory(l, h) && At(l, h).pc.Reconciling?
    ensures HasVerified(l, h, leased, handed) && At(l, h).pc == Reconciling(handed, Heard(h).absent)
    ensures handed.claim.Some? && handed.start.Some?
  {
    hide IsHistory, At, OutcomePatch, HasConsumed, Route;
    if h == [] {
      AtAcquiring(l, h);
    } else {
      LastStep(l, h);
      var before := Prior(h);
      if before == [] {
        AtAcquiring(l, before);
      } else {
        LastStep(l, before);
        leased, handed := ConsumedBefore(l, before);
        AtConsumed(l, before, leased, handed);
      }
    }
  }

  lemma AtVerdict(l: Launch, h: History, leased: J.Job, handed: J.Job)
    requires IsHistory(l, h) && HasReconciled(l, h, leased, handed)
    ensures At(l, h).pc == RecordingVerdict(Heard(Prior(h)).absent, Heard(h).raw.reply.state)
  {
    hide IsHistory, At, OutcomePatch, HasVerified, Route;
    LastStep(l, h);
    AtVerifying(l, Prior(h), leased, handed);
  }

  lemma VerdictJobs(l: Launch, h: History) returns (leased: J.Job, handed: J.Job)
    requires IsHistory(l, h) && At(l, h).pc.RecordingVerdict?
    ensures HasReconciled(l, h, leased, handed) && At(l, h).pc == RecordingVerdict(Heard(Prior(h)).absent, Heard(h).raw.reply.state)
  {
    hide IsHistory, At, OutcomePatch, HasVerified, Route;
    if h == [] {
      AtAcquiring(l, h);
    } else {
      LastStep(l, h);
      leased, handed := ReconcilingJobs(l, Prior(h));
      VerifiedIsNotEmpty(l, Prior(h), leased, handed);
    }
  }

  lemma VerifiedIsNotEmpty(l: Launch, h: History, leased: J.Job, handed: J.Job)
    requires HasVerified(l, h, leased, handed)
    ensures h != []
  {
  }

  // ---- The promises

  /** The child is handed the claim on record exactly where C1's state says that it is held. */
  lemma ClaimsAreHandedOver(job: J.Job, c: Claimed)
    ensures ExistingClaim(job) == Some(c) <==>
            job.remote == Some(EffectClaimed) && job.claim == Some(c.id) && job.claimVersion == Some(c.version) && c.version != 0
  {
  }

  /** A child is started exactly for a handoff that was read unused, agrees with C1's state as
      observed, and is used up by now; never where that state is past the claim. */
  lemma StartsExactly(l: Launch, h: History, call: WorkerCall)
    requires IsHistory(l, h) && call.StartChild?
    ensures !At(l, h).pc.Ended? && CallOf(At(l, h)) == call <==>
            exists e: Errand :: MayStart(l, h, e) && e.leased.handoff.Some? && call == Start(e)
  {
    hide IsHistory, At, MayStart;
    if !At(l, h).pc.Ended? && CallOf(At(l, h)) == call {
      var e := LaunchingErrand(l, h);
    }
    if e: Errand :| MayStart(l, h, e) && e.leased.handoff.Some? && call == Start(e) {
      AtLaunching(l, h, e);
    }
  }

  /** So no child is started, nor the handoff used up, for a job whose remote state is past the
      claim: it is marked as a conflict. */
  lemma NoChildPastTheClaim(l: Launch, h: History, job: J.Job)
    requires IsHistory(l, h) && l.kind == Handoff && HasJob(l, h, job) && Awaits(l, job)
    requires job.remote !in {Some(Reserved), Some(ReadyRetry), Some(EffectClaimed)}
    ensures !At(l, h).pc.Ended? && CallOf(At(l, h)) == StateWrite(l, J.StateConflict, true)
  {
    hide IsHistory, At, HasJob;
    AtConsuming(l, h, job);
  }

  /** The provider is asked exactly for the leased job's key, and C1 then told VERIFIED_ABSENT or
      VERIFIED_PRESENT exactly as it was found, for the claim and the start of the job. */
  lemma VerifiesExactly(l: Launch, h: History, call: WorkerCall)
    requires IsHistory(l, h)
    ensures call.VerifyTarget? ==>
              (!At(l, h).pc.Ended? && CallOf(At(l, h)) == call <==>
                 exists leased, handed ::
                   && l.kind == Reconciliation && HasConsumed(l, h, leased, handed)
                   && leased.handoff.Some? && call == VerifyTarget(leased.frozen.keyId, leased.handoff.value))
    ensures call.Ask? ==>
              (!At(l, h).pc.Ended? && CallOf(At(l, h)) == call <==>
                 exists leased, handed ::
                   && HasVerified(l, h, leased, handed) && h != [] && handed.claim.Some? && handed.start.Some?
                   && call == VerdictCall(l, handed, Heard(h).absent))
  {
    hide IsHistory, At, HasConsumed, OutcomePatch, Route;
    if !At(l, h).pc.Ended? && CallOf(At(l, h)) == call {
      if call.VerifyTarget? {
        var leased, handed := VerifyingJobs(l, h);
      }
      if call.Ask? {
        var leased, handed := ReconcilingJobs(l, h);
        VerifiedIsNotEmpty(l, h, leased, handed);
      }
    }
    if leased, handed :|
      && l.kind == Reconciliation && HasConsumed(l, h, leased, handed)
      && leased.handoff.Some? && call == VerifyTarget(leased.frozen.keyId, leased.handoff.value)
    {
      AtConsumed(l, h, leased, handed);
    }
    if leased, handed :|
      && HasVerified(l, h, leased, handed) && h != [] && handed.claim.Some? && handed.start.Some?
      && call == VerdictCall(l, handed, Heard(h).absent)
    {
      AtVerifying(l, h, leased, handed);
    }
  }

  lemma VerifyingJobs(l: Launch, h: History) returns (leased: J.Job, handed: J.Job)
    requires IsHistory(l, h) && At(l, h).pc.Verifying?
    ensures HasConsumed(l, h, leased, handed) && l.kind == Reconciliation && leased.handoff.Some?
    ensures At(l, h).pc == Verifying(leased, handed, leased.handoff.value)
  {
    hide IsHistory, At, OutcomePatch, HasConsumed, Route;
    if h == [] {
      AtAcquiring(l, h);
    } else {
      LastStep(l, h);
      leased, handed := ConsumedBefore(l, h);
      AtConsumed(l, h, leased, handed);
    }
  }

  /** The six writes of a worker. */
  ghost predicate IsDue(l: Launch, h: History, call: WorkerCall) {
    || (exists job :: HasJob(l, h, job) && Awaits(l, job) && MayAct(l, job) && call == Consumption(l, job))
    || (exists job :: HasJob(l, h, job) && Awaits(l, job) && !MayAct(l, job) && call == StateWrite(l, J.StateConflict, true))
    || (exists leased, handed ::
          l.kind == Handoff && HasConsumed(l, h, leased, handed) && handed.state == J.HandoffReady && call == StateWrite(l, J.Processing, false))
    || (exists e: Errand, result :: HasResult(l, h, e, result) && ResultWrite(l, e.job, result, call))
    || (exists e: Errand :: HasFailed(l, h, e) && call == StateWrite(l, if e.first then J.Processing else J.RetryReady, false))
    || (exists leased, handed ::
          && HasReconciled(l, h, leased, handed) && h != [] && Prior(h) != [] && Heard(Prior(h)).Verified?
          && Heard(h).Answer? && Heard(h).raw.Object? && call == VerdictWrite(l, Heard(Prior(h)).absent, Heard(h).raw.reply.state))
  }

  lemma OutcomeIsRecorded(l: Launch, job: J.Job, result: ChildResult)
    ensures ResultWrite(l, job, result, UpdateJob(l.incident, OutcomePatch(job, result), false))
  {
  }

  lemma OneResultWrite(l: Launch, job: J.Job, result: ChildResult, call: WorkerCall, other: WorkerCall)
    requires ResultWrite(l, job, result, call) && ResultWrite(l, job, result, other)
    ensures call == other
  {
    assert call.patch == other.patch;
  }

  /** Whatever a worker writes is due. */
  lemma WritesAreDue(l: Launch, h: History, call: WorkerCall)
    requires IsHistory(l, h) && !At(l, h).pc.Ended? && CallOf(At(l, h)) == call && call.UpdateJob?
    ensures IsDue(l, h, call)
  {
    hide IsHistory, At, HasJob, HasConsumed, HasResult, HasFailed, HasReconciled, ResultWrite, OutcomePatch, Route, Awaits, MayAct;
    match At(l, h).pc {
      case Consuming(job) => AtConsuming(l, h, job);
      case MarkingConflict =>
        var job := ConflictJob(l, h);
      case MarkingProcessing(_) =>
        var leased, handed := MarkingJobs(l, h);
      case Recording(patch, _) =>
        var e, result := RecordingErrand(l, h);
        OutcomeIsRecorded(l, e.job, result);
      case RecordingFailure(_) =>
        var e := FailureErrand(l, h);
      case RecordingVerdict(_, _) =>
        var leased, handed := VerdictJobs(l, h);
        ReconciledIsHeard(l, h, leased, handed);
      case _ =>
    }
  }

  lemma ReconciledIsHeard(l: Launch, h: History, leased: J.Job, handed: J.Job)
    requires HasReconciled(l, h, leased, handed)
    ensures h != [] && Prior(h) != [] && Heard(Prior(h)).Verified? && Heard(h).Answer? && Heard(h).raw.Object?
  {
  }

  lemma ConflictJob(l: Launch, h: History) returns (job: J.Job)
    requires IsHistory(l, h) && At(l, h).pc.MarkingConflict?
    ensures HasJob(l, h, job) && Awaits(l, job) && !MayAct(l, job)
  {
    hide IsHistory, At, OutcomePatch, Awaits, MayAct;
    if h == [] {
      AtAcquiring(l, h);
    } else {
      LastStep(l, h);
      AtFetching(l, Prior(h));
      job := Heard(h).job;
      AtConsuming(l, h, job);
    }
  }

  lemma MarkingJobs(l: Launch, h: History) returns (leased: J.Job, handed: J.Job)
    requires IsHistory(l, h) && At(l, h).pc.MarkingProcessing?
    ensures l.kind == Handoff && HasConsumed(l, h, leased, handed) && handed.state == J.HandoffReady
  {
    hide IsHistory, At, OutcomePatch, HasConsumed, Route;
    if h == [] {
      AtAcquiring(l, h);
    } else {
      LastStep(l, h);
      leased, handed := ConsumedBefore(l, h);
      AtConsumed(l, h, leased, handed);
    }
  }

  /** And whatever is due is written. */
  lemma DueIsWritten(l: Launch, h: History, call: WorkerCall)
    requires IsHistory(l, h) && IsDue(l, h, call)
    ensures !At(l, h).pc.Ended? && CallOf(At(l, h)) == call
  {
    hide IsHistory, At, HasJob, HasConsumed, HasResult, HasFailed, HasReconciled, ResultWrite, OutcomePatch, Route, Awaits, MayAct;
    if job :| HasJob(l, h, job) && Awaits(l, job) && call == (if MayAct(l, job) then Consumption(l, job) else StateWrite(l, J.StateConflict, true)) {
      AtConsuming(l, h, job);
    }
    if leased, handed :|
      l.kind == Handoff && HasConsumed(l, h, leased, handed) && handed.state == J.HandoffReady && call == StateWrite(l, J.Processing, false)
    {
      AtConsumed(l, h, leased, handed);
    }
    if e: Errand, result :| HasResult(l, h, e, result) && ResultWrite(l, e.job, result, call) {
      AtRecording(l, h, e, result);
      OutcomeIsRecorded(l, e.job, result);
      OneResultWrite(l, e.job, result, call, UpdateJob(l.incident, OutcomePatch(e.job, result), false));
    }
    if e: Errand :| HasFailed(l, h, e) && call == StateWrite(l, if e.first then J.Processing else J.RetryReady, false) {
      AtFailure(l, h, e);
    }
    if leased, handed :|
      && HasReconciled(l, h, leased, handed) && h != [] && Prior(h) != [] && Heard(Prior(h)).Verified?
      && Heard(h).Answer? && Heard(h).raw.Object? && call == VerdictWrite(l, Heard(Prior(h)).absent, Heard(h).raw.reply.state)
    {
      AtVerdict(l, h, leased, handed);
    }
  }

  /** What a worker writes into its job, and when: the consumption of a handoff that agrees with
      C1's state, a conflict for one that does not, PROCESSING, what its child's result says,
      the failure of that, and the verdict C1 answered. */
  lemma WritesExactly(l: Launch, h: History, call: WorkerCall)
    requires IsHistory(l, h) && call.UpdateJob?
    ensures !At(l, h).pc.Ended? && CallOf(At(l, h)) == call <==> IsDue(l, h, call)
  {
    hide IsHistory, At, CallOf, IsDue;
    if !At(l, h).pc.Ended? && CallOf(At(l, h)) == call {
      WritesAreDue(l, h, call);
    }
    if IsDue(l, h, call) {
      DueIsWritten(l, h, call);
    }
  }

  /** In particular, every result of a child is recorded as it says. */
  lemma ResultsAreRecorded(l: Launch, h: History)
    requires IsHistory(l, h) && EndsWith(h, AwaitChild) && Heard(h).ChildEnded?
    ensures !At(l, h).pc.Ended? && exists e: Errand :: HasResult(l, h, e, Heard(h).result) && ResultWrite(l, e.job, Heard(h).result, CallOf(At(l, h)))
  {
    hide IsHistory, At, HasStarted, ResultWrite, OutcomePatch, Route;
    LastStep(l, h);
    var e := AwaitingErrand(l, Prior(h));
    AtRecording(l, h, e, Heard(h).result);
    OutcomeIsRecorded(l, e.job, Heard(h).result);
  }

  // ---- Every write of a history

  ghost predicate WritesAreDueIn(l: Launch, h: History) {
    forall n {:trigger h[n]} | 0 <= n < |h| && h[n].call.UpdateJob? :: IsDue(l, h[..n], h[n].call)
  }

  /** Every result of a child is followed by the write that records it. */
  ghost predicate ResultsRecordedIn(l: Launch, h: History) {
    forall n {:trigger h[n]} | 0 <= n < |h| && h[n].call.AwaitChild? && h[n].reply.ChildEnded? ::
      && n > 0 && n + 1 < |h| && h[n - 1].call.StartChild?
      && ResultWrite(l, h[n - 1].call.job, h[n].reply.result, h[n + 1].call)
  }

  lemma EveryWriteIsDue(l: Launch, h: History)
    requires IsHistory(l, h)
    ensures WritesAreDueIn(l, h)
  {
    hide IsHistory, At, CallOf, IsDue;
    forall n {:trigger h[n]} | 0 <= n < |h| && h[n].call.UpdateJob? ensures IsDue(l, h[..n], h[n].call) {
      PrefixIsHistory(l, h, n);
      WritesExactly(l, h[..n], h[n].call);
    }
  }

  lemma EveryResultIsRecorded(l: Launch, h: History)
    requires IsHistory(l, h) && At(l, h).pc.Ended?
    ensures ResultsRecordedIn(l, h)
  {
    hide IsHistory, At, CallOf, ResultWrite, MayStart;
    forall n {:trigger h[n]} | 0 <= n < |h| && h[n].call.AwaitChild? && h[n].reply.ChildEnded?
      ensures n > 0 && n + 1 < |h| && h[n - 1].call.StartChild? && ResultWrite(l, h[n - 1].call.job, h[n].reply.result, h[n + 1].call)
    {
      var g := h[..n + 1];
      PrefixIsHistory(l, h, n + 1);
      ResultsAreRecorded(l, g);
      assert g == h ==> false;
      assert Prior(g) == h[..n];
    }
  }
}
