/** `processHandoff` and `processReconciliation` of winner/runtime/broker-worker.ts, with the
    lease they hold, as the programs they are; every call is proved to be the one the machine
    in BrokerWorker makes. */
module RunWorker {
  import opened Domain
  import opened C1 = C1Contract
  import opened BrokerLogic
  import opened BrokerWorker
  import J = JobStore
  import T = BrokerWorkerTrace
  import V = WorkerConversation

  /** Every reply is the world's. */
  predicate AnsweredBy(log: seq<Exchange>, answer: (seq<Exchange>, WorkerCall) -> WorkerReply) {
    forall i | 0 <= i < |log| :: log[i].reply == answer(log[..i], log[i].call)
  }

  lemma AnswersOneMore(log: seq<Exchange>, answer: (seq<Exchange>, WorkerCall) -> WorkerReply, x: Exchange)
    requires AnsweredBy(log, answer) && x.reply == answer(log, x.call)
    ensures AnsweredBy(log + [x], answer)
  {
    var later := log + [x];
    assert later[..|log|] == log;
    assert forall i | 0 <= i < |log| :: later[..i] == log[..i];
  }

  class Invocation {
    const launch: Launch
    const answer: (seq<Exchange>, WorkerCall) -> WorkerReply
    var log: seq<Exchange>
    ghost var at: Worker

    constructor (launch: Launch, answer: (seq<Exchange>, WorkerCall) -> WorkerReply)
      ensures this.launch == launch && this.answer == answer && log == [] && Following() && at == Launched(launch)
    {
      this.launch := launch;
      this.answer := answer;
      log := [];
      at := Launched(launch);
    }

    ghost predicate Following()
      reads `log, `at
    {
      && AnsweredBy(log, answer)
      && Ready(at) && at.launch == launch && T.IsHistory(launch, log) && at == T.At(launch, log)
    }

    ghost predicate Stands(pc: Pc)
      reads `at
    {
      at == Worker(launch, pc)
    }

    method Call(call: WorkerCall) returns (reply: WorkerReply)
      requires Following() && !at.pc.Ended? && CallOf(at) == call
      modifies this`log, this`at
      ensures Following() && at == Step(old(at), reply)
      ensures log == old(log) + [Exchange(call, reply)]
    {
      hide Step, CallOf, T.IsHistory, T.At, AnsweredBy, Ready;
      reply := answer(log, call);
      T.OneMore(launch, log, Exchange(call, reply));
      AnswersOneMore(log, answer, Exchange(call, reply));
      log := log + [Exchange(call, reply)];
      at := Step(at, reply);
    }

    /** The read inside withLease: None when it throws. */
    method LeasedJob() returns (job: Option<J.Job>)
      requires Following() && Stands(Fetching)
      modifies this`log, this`at
      ensures Following()
      ensures if job.None? then Stands(Releasing)
              else match Route(launch.kind, job.value) {
                case Nothing => Stands(Releasing)
                case Conflict => Stands(MarkingConflict)
                case Proceed => job.value.handoff.Some? && Stands(Consuming(job.value))
              }
    {
      hide T.IsHistory, T.At;
      var fetched := Call(ReadJob(launch.incident));
      return if fetched.Fetched? then Some(fetched.job) else None;
    }

    method MarkConflict()
      requires Following() && Stands(MarkingConflict)
      modifies this`log, this`at
      ensures Following() && Stands(Releasing)
    {
      hide T.IsHistory, T.At;
      var stored := Call(UpdateJob(launch.incident, J.NO_CHANGE.(state := Some(J.StateConflict)), true));
    }

    /** The signed handoff is used up before anything is done with it. */
    method Consume(leased: J.Job) returns (handed: Option<J.Job>)
      requires Following() && Stands(Consuming(leased)) && leased.handoff.Some?
      modifies this`log, this`at
      ensures Following()
      ensures if handed.None? then Stands(Releasing)
              else Stands(if launch.kind == Reconciliation then Verifying(leased, handed.value, leased.handoff.value)
                          else if handed.value.state == J.HandoffReady then MarkingProcessing(leased.handoff.value)
                          else Launching(handed.value, leased.handoff.value, false))
    {
      hide T.IsHistory, T.At;
      var stored := Call(UpdateJob(launch.incident, J.NO_CHANGE.(consumed := Some(leased.handoff)), false));
      return if stored.Stored? then Some(stored.job) else None;
    }

    method MarkProcessing(handoff: HandoffId) returns (job: Option<J.Job>)
      requires Following() && Stands(MarkingProcessing(handoff))
      modifies this`log, this`at
      ensures Following() && Stands(if job.None? then Releasing else Launching(job.value, handoff, true))
    {
      hide T.IsHistory, T.At;
      var stored := Call(UpdateJob(launch.incident, J.NO_CHANGE.(state := Some(J.Processing)), false));
      return if stored.Stored? then Some(stored.job) else None;
    }

    /** The child was started and awaited, as far as that went. */
    predicate Ran(before: seq<Exchange>, after: seq<Exchange>, job: J.Job, handoff: HandoffId, result: Option<ChildResult>) {
      && before < after && after[|before|].call == StartChild(job, handoff)
      && if !after[|before|].reply.ChildStarted? then |after| == |before| + 1 && result.None?
         else
           && |after| == |before| + 2 && after[|before| + 1].call == AwaitChild
           && if result.Some? then after[|before| + 1].reply == ChildEnded(result.value) else !after[|before| + 1].reply.ChildEnded?
    }

    /** What comes of it is recorded; otherwise the job keeps PROCESSING after a first attempt and
        RETRY_READY after any other. */
    predicate Settled(ran: seq<Exchange>, after: seq<Exchange>, job: J.Job, result: Option<ChildResult>, first: bool) {
      var failure := V.StateWrite(launch, if first then J.Processing else J.RetryReady, false);
      && ran < after
      && if result.None? then |after| == |ran| + 1 && after[|ran|].call == failure
         else
           && V.ResultWrite(launch, job, result.value, after[|ran|].call)
           && if after[|ran|].reply.Stored? then |after| == |ran| + 1
              else |after| == |ran| + 2 && after[|ran| + 1].call == failure
    }

    /** runChild: None when it rejects. */
    method RunChild(job: J.Job, handoff: HandoffId, firstAttempt: bool) returns (result: Option<ChildResult>)
      requires Following() && Stands(Launching(job, handoff, firstAttempt))
      modifies this`log, this`at
      ensures Following()
      ensures Stands(if result.None? then RecordingFailure(firstAttempt) else Recording(OutcomePatch(job, result.value), firstAttempt))
      ensures Ran(old(log), log, job, handoff, result)
    {
      hide T.IsHistory, T.At, OutcomePatch;
      var started := Call(StartChild(job, handoff));
      if !started.ChildStarted? {
        return None;
      }
      var ended := Call(AwaitChild);
      return if ended.ChildEnded? then Some(ended.result) else None;
    }

    /** The try block around the child; its catch leaves the job as ambiguous as it is. */
    method Attempt(job: J.Job, handoff: HandoffId, firstAttempt: bool)
      requires Following() && Stands(Launching(job, handoff, firstAttempt))
      modifies this`log, this`at
      ensures Following() && Stands(Releasing)
      ensures exists ran, result :: Ran(old(log), ran, job, handoff, result) && Settled(ran, log, job, result, firstAttempt)
    {
      hide T.IsHistory, T.At, OutcomePatch, V.ResultWrite, Ran;
      var result := RunChild(job, handoff, firstAttempt);
      ghost var ran := log;
      assert Ran(old(log), ran, job, handoff, result);
      if result.Some? {
        V.OutcomeIsRecorded(launch, job, result.value);
        var stored := Call(UpdateJob(launch.incident, OutcomePatch(job, result.value), false));
        if stored.Stored? {
          return;
        }
      }
      var deferred := Call(UpdateJob(launch.incident, FailurePatch(firstAttempt), false));
    }

    method ProcessHandoff(leased: J.Job)
      requires Following() && launch.kind == Handoff && Stands(Consuming(leased)) && leased.handoff.Some?
      modifies this`log, this`at
      ensures Following() && Stands(Releasing)
    {
      hide T.IsHistory, T.At, Step, CallOf, Following;
      var handed := Consume(leased);
      if handed.None? {
        return;
      }
      var job := handed.value;
      var firstAttempt := job.state == J.HandoffReady;
      if firstAttempt {
        var marked := MarkProcessing(leased.handoff.value);
        if marked.None? {
          return;
        }
        job := marked.value;
      }
      Attempt(job, leased.handoff.value, firstAttempt);
    }

    method ProcessReconciliation(leased: J.Job)
      requires Following() && launch.kind == Reconciliation && Stands(Consuming(leased)) && leased.handoff.Some?
      modifies this`log, this`at
      ensures Following() && Stands(Releasing)
    {
      hide T.IsHistory, T.At, VerdictPatch;
      var handed := Consume(leased);
      if handed.None? {
        return;
      }
      var verification := Call(VerifyTarget(leased.frozen.keyId, leased.handoff.value));
      if !verification.Verified? || !ReadyToReconcile(handed.value) {
        return;
      }
      Reconcile(handed.value, verification.absent);
    }

    method Reconcile(handed: J.Job, absent: bool)
      requires Following() && Stands(Reconciling(handed, absent)) && ReadyToReconcile(handed)
      modifies this`log, this`at
      ensures Following() && Stands(Releasing)
    {
      hide T.IsHistory, T.At, VerdictPatch;
      var response := Call(Ask(C1.Call(launch.broker, launch.incident, C1.Reconcile(handed.claim.value, handed.start.value, Verdict(absent)))));
      if !response.Answer? || response.raw.Garbled? {
        return;
      }
      var stored := Call(UpdateJob(launch.incident, VerdictPatch(absent, response.raw.reply.state), false));
    }

    /** withLease: the lease is released whatever the operation did. */
    method WithLease()
      requires Following() && at == Launched(launch)
      modifies this`log, this`at
      ensures Following() && at.pc.Ended?
    {
      hide T.IsHistory, T.At;
      var lease := Call(AcquireLease(launch.incident));
      if lease != Held(true) {
        return;
      }
      Operation();
      var released := Call(ReleaseLease(launch.incident));
    }

    method Operation()
      requires Following() && Stands(Fetching)
      modifies this`log, this`at
      ensures Following() && Stands(Releasing)
    {
      hide T.IsHistory, T.At, Step, CallOf, Following;
      var leased := LeasedJob();
      if leased.None? {
        return;
      }
      match Route(launch.kind, leased.value) {
        case Nothing =>
        case Conflict => MarkConflict();
        case Proceed =>
          if launch.kind == Handoff {
            ProcessHandoff(leased.value);
          } else {
            ProcessReconciliation(leased.value);
          }
      }
    }
  }

  /** One leased invocation, whatever the job store, the child, GitHub and C1 answer: its calls
      are a finished history of the machine, with at most one child run or reconciliation; every
      write is due and every result of a child recorded as it says. */
  method ProcessJob(launch: Launch, answer: (seq<Exchange>, WorkerCall) -> WorkerReply) returns (log: seq<Exchange>)
    ensures T.IsHistory(launch, log) && T.At(launch, log).pc.Ended?
    ensures forall i, j | 0 <= i < |log| && 0 <= j < |log| :: T.Attempts(log[i].call) && T.Attempts(log[j].call) ==> i == j
    ensures AnsweredBy(log, answer) && V.WritesAreDueIn(launch, log) && V.ResultsRecordedIn(launch, log)
  {
    hide T.IsHistory, T.At, V.WritesAreDueIn, V.ResultsRecordedIn, CallOf, Step;
    var invocation := new Invocation(launch, answer);
    invocation.WithLease();
    log := invocation.log;
    assert invocation.Following() && invocation.answer == answer && invocation.launch == launch;
    V.EveryWriteIsDue(launch, log);
    V.EveryResultIsRecorded(launch, log);
    forall i, j | 0 <= i < |log| && 0 <= j < |log| && T.Attempts(log[i].call) && T.Attempts(log[j].call) ensures i == j {
      T.AttemptsOnce(launch, log, i, j);
      T.AttemptsOnce(launch, log, j, i);
    }
  }
}
