/** What every leased worker invocation does, whatever the job store, the child, GitHub and
    C1 answer. */
module BrokerWorkerTrace {
  import opened Domain
  import opened C1 = C1Contract
  import opened BrokerLogic
  import opened BrokerWorker
  import J = JobStore

  type History = seq<Exchange>

  function At(l: Launch, h: History): (w: Worker)
    ensures Ready(w) && w.launch == l
    decreases |h|
  {
    if h == [] then Launched(l)
    else
      var w := At(l, h[..|h| - 1]);
      if w.pc.Ended? then w else Step(w, h[|h| - 1].reply)
  }

  ghost predicate IsHistory(l: Launch, h: History)
    decreases |h|
  {
    h == [] ||
    (&& IsHistory(l, h[..|h| - 1])
     && !At(l, h[..|h| - 1]).pc.Ended?
     && h[|h| - 1].call == CallOf(At(l, h[..|h| - 1])))
  }

  lemma {:induction false} PrefixIsHistory(l: Launch, h: History, n: nat)
    requires IsHistory(l, h) && n <= |h|
    ensures IsHistory(l, h[..n])
    ensures n < |h| ==> !At(l, h[..n]).pc.Ended? && h[n].call == CallOf(At(l, h[..n]))
    decreases |h|
  {
    hide Step, CallOf;
    if n == |h| {
      assert h[..n] == h;
    } else {
      assert h[..|h| - 1][..n] == h[..n];
      PrefixIsHistory(l, h[..|h| - 1], n);
    }
  }

  /** The call number `n` of a invocation, answered or still under way. */
  ghost predicate Issues(l: Launch, h: History, n: nat, call: WorkerCall) {
    n <= |h| && !At(l, h[..n]).pc.Ended? && CallOf(At(l, h[..n])) == call
  }

  /** One more exchange. */
  lemma OneMore(l: Launch, h: History, x: Exchange)
    requires IsHistory(l, h) && !At(l, h).pc.Ended? && x.call == CallOf(At(l, h))
    ensures IsHistory(l, h + [x]) && At(l, h + [x]) == Step(At(l, h), x.reply)
  {
    hide Step, CallOf;
    assert (h + [x])[..|h + [x]| - 1] == h;
  }

  // ---- Monitor

  predicate Consumes(x: Exchange) { x.call.UpdateJob? && x.call.patch.consumed.Some? && x.reply.Stored? }

  /** A child run or a reconciliation attempt. */
  predicate Attempts(call: WorkerCall) { call.StartChild? || call.VerifyTarget? }

  function AttemptedHandoff(call: WorkerCall): HandoffId
    requires Attempts(call)
  {
    call.handoff
  }

  /** `held`: the lease was acquired and not handed back; `fetched`: the job read under it;
      `consumed`: the handoff id written as consumed; `attempted`: an attempt was made;
      `absent`: the provider verification found the key gone. */
  datatype Watch = Watch(held: bool, fetched: Option<J.Job>, consumed: Option<HandoffId>, attempted: bool, absent: bool)

  function Observe(w: Watch, x: Exchange): Watch {
    Watch(
      (w.held || (x.call.AcquireLease? && x.reply == Held(true))) && !x.call.ReleaseLease?,
      if x.call.ReadJob? && x.reply.Fetched? then Some(x.reply.job) else w.fetched,
      if Consumes(x) then x.call.patch.consumed.value else w.consumed,
      w.attempted || Attempts(x.call),
      if x.call.VerifyTarget? then x.reply.Verified? && x.reply.absent else w.absent)
  }

  function Watching(h: History): Watch {
    if h == [] then Watch(false, None, None, false, false) else Observe(Watching(h[..|h| - 1]), h[|h| - 1])
  }

  predicate Reading(w: Watch) { w.held && w.consumed.None? && !w.attempted }

  /** The handoff was read unconsumed from the leased job and then consumed. */
  predicate Consumed(w: Watch, handoff: HandoffId) {
    w.held && w.fetched.Some? && Unconsumed(w.fetched.value) && w.fetched.value.handoff == Some(handoff) && w.consumed == Some(handoff)
  }

  /** What was consumed is what was fetched. */
  predicate Sound(w: Watch) { w.consumed.Some? ==> w.fetched.Some? && w.consumed == w.fetched.value.handoff }

  predicate Agrees(worker: Worker, w: Watch) {
    Sound(w) &&
    match worker.pc {
      case Acquiring => w == Watch(false, None, None, false, false)
      case Fetching | MarkingConflict => Reading(w)
      case Consuming(leased) => Reading(w) && w.fetched == Some(leased) && Unconsumed(leased)
      case MarkingProcessing(handoff) => Consumed(w, handoff) && !w.attempted
      case Launching(_, handoff, _) => Consumed(w, handoff) && !w.attempted
      case Recording(patch, _) => w.held && patch.consumed.None? && patch.handoff.None?
      case Awaiting(_, _) | RecordingFailure(_) => w.held
      case Verifying(job, _, handoff) => Consumed(w, handoff) && !w.attempted && w.fetched == Some(job)
      case Reconciling(_, absent) => w.held && w.absent == absent
      case RecordingVerdict(_, _) | Releasing => w.held
      case Ended => true
    }
  }

  lemma AgreesStep(worker: Worker, w: Watch, r: WorkerReply)
    requires Ready(worker) && !worker.pc.Ended? && Agrees(worker, w)
    ensures Agrees(Step(worker, r), Observe(w, Exchange(CallOf(worker), r)))
  {
  }

  lemma {:induction false} AgreesAlways(l: Launch, h: History)
    requires IsHistory(l, h)
    ensures Agrees(At(l, h), Watching(h))
    decreases |h|
  {
    if h != [] {
      AgreesAlways(l, h[..|h| - 1]);
      AgreesStep(At(l, h[..|h| - 1]), Watching(h[..|h| - 1]), h[|h| - 1].reply);
    }
  }

  lemma {:induction false} AttemptIsSeen(h: History, i: nat)
    requires i < |h| && Attempts(h[i].call)
    ensures Watching(h).attempted
    decreases |h|
  {
    if i < |h| - 1 {
      AttemptIsSeen(h[..|h| - 1], i);
    }
  }

  // ---- What an invocation promises

  /** A child run or reconciliation is attempted at most once per lease, for the handoff the
      leased job carried unconsumed, and after that id was durably marked consumed. */
  lemma AttemptsAreAuthorized(l: Launch, h: History)
    requires IsHistory(l, h) && !At(l, h).pc.Ended? && Attempts(CallOf(At(l, h)))
    ensures Watching(h).held && Consumed(Watching(h), AttemptedHandoff(CallOf(At(l, h))))
    ensures forall i | 0 <= i < |h| :: !Attempts(h[i].call)
  {
    AgreesAlways(l, h);
    if i :| 0 <= i < |h| && Attempts(h[i].call) {
      AttemptIsSeen(h, i);
    }
  }

  /** No invocation makes two attempts. */
  lemma AttemptsOnce(l: Launch, h: History, i: nat, j: nat)
    requires IsHistory(l, h) && i < |h| && j < |h| && Attempts(h[i].call) && Attempts(h[j].call)
    ensures j <= i
  {
    if i < j {
      PrefixIsHistory(l, h, j);
      assert Attempts(h[..j][i].call);
      AttemptsAreAuthorized(l, h[..j]);
    }
  }

  /** The broker never issues handoffs, and forgets none: it only ever writes as consumed the
      id it read unconsumed. */
  lemma BrokerOnlyConsumes(l: Launch, h: History)
    requires IsHistory(l, h) && !At(l, h).pc.Ended? && CallOf(At(l, h)).UpdateJob?
    ensures
      var call := CallOf(At(l, h));
      && call.incident == l.incident && call.patch.handoff.None?
      && (call.patch.consumed.Some? ==>
            Watching(h).fetched.Some? && Unconsumed(Watching(h).fetched.value) && call.patch.consumed.value == Watching(h).fetched.value.handoff)
  {
    AgreesAlways(l, h);
  }

  /** Reconciliation as VERIFIED_ABSENT is sent only after this invocation's own provider
      verification found the job's key gone. */
  lemma ReconciliationIsVerified(l: Launch, h: History)
    requires IsHistory(l, h) && !At(l, h).pc.Ended? && CallOf(At(l, h)).Ask?
    ensures
      var call := CallOf(At(l, h)).call;
      call.incident == l.incident && call.op.Reconcile? && (call.op.verdict == VerifiedAbsent ==> Watching(h).absent)
  {
    AgreesAlways(l, h);
  }

  /** A state a child may be started from. */
  predicate Startable(job: J.Job) { job.state == J.HandoffReady || job.state == J.RetryReady }

  predicate ReadStartable(worker: Worker, w: Watch) {
    && (worker.pc.Consuming? && worker.launch.kind.Handoff? ==> Startable(worker.pc.leased) && w.fetched == Some(worker.pc.leased))
    && (worker.pc.MarkingProcessing? || worker.pc.Launching? ==> w.fetched.Some? && Startable(w.fetched.value))
  }

  lemma ReadStartableStep(worker: Worker, w: Watch, r: WorkerReply)
    requires Ready(worker) && !worker.pc.Ended? && ReadStartable(worker, w)
    ensures ReadStartable(Step(worker, r), Observe(w, Exchange(CallOf(worker), r)))
  {
  }

  /** A child is started only for a job that was read in a state that allows it. */
  lemma {:induction false} StartsAreOfReadJobs(l: Launch, h: History)
    requires IsHistory(l, h)
    ensures ReadStartable(At(l, h), Watching(h))
    decreases |h|
  {
    hide Step, CallOf, Observe, ReadStartable;
    if h != [] {
      StartsAreOfReadJobs(l, h[..|h| - 1]);
      ReadStartableStep(At(l, h[..|h| - 1]), Watching(h[..|h| - 1]), h[|h| - 1].reply);
    } else {
      NothingReadYet(l);
    }
  }

  lemma NothingReadYet(l: Launch)
    ensures ReadStartable(Launched(l), Watching([]))
  {
  }

  /** So a child it starts was preceded by such a read. */
  lemma StartNeedsRead(l: Launch, h: History, n: nat, call: WorkerCall)
    requires IsHistory(l, h) && Issues(l, h, n, call) && call.StartChild?
    ensures n <= |h| && exists i, job :: 0 <= i < n && h[i].call.ReadJob? && h[i].reply == Fetched(job) && Startable(job)
  {
    hide Step, IsHistory;
    PrefixIsHistory(l, h, n);
    StartsAreOfReadJobs(l, h[..n]);
    FetchedIsSeen(h[..n]);
    var job := Watching(h[..n]).fetched.value;
    var i :| 0 <= i < n && h[..n][i].call.ReadJob? && h[..n][i].reply == Fetched(job);
    assert h[i].reply == Fetched(job);
  }

  // ---- For the system

  /** An id consumed once stays the consumed one. */
  lemma {:induction false} ConsumedStays(l: Launch, h: History, n: nat)
    requires IsHistory(l, h) && n <= |h| && Watching(h[..n]).consumed.Some?
    ensures Watching(h).consumed == Watching(h[..n]).consumed
    decreases |h|
  {
    if n == |h| {
      assert h[..n] == h;
    } else {
      var prior := h[..|h| - 1];
      assert prior[..n] == h[..n];
      ConsumedStays(l, prior, n);
      AgreesAlways(l, prior);
    }
  }

  /** Every attempt, answered or under way, is for the id consumed in this run. */
  lemma AttemptsUseTheConsumed(l: Launch, h: History, n: nat, call: WorkerCall)
    requires IsHistory(l, h) && Issues(l, h, n, call) && Attempts(call)
    ensures Watching(h).consumed == Some(AttemptedHandoff(call))
  {
    PrefixIsHistory(l, h, n);
    AttemptsAreAuthorized(l, h[..n]);
    ConsumedStays(l, h, n);
  }

  /** The job was read under the lease, and later its key was verified to be gone. */
  predicate SawKeyGone(read: Exchange, check: Exchange) {
    && read.call.ReadJob? && read.reply.Fetched?
    && check.call.VerifyTarget? && check.call.keyId == read.reply.job.frozen.keyId && check.reply.Verified? && check.reply.absent
  }

  ghost predicate KeyGone(h: History) {
    exists i, j | 0 <= i < |h| && 0 <= j < |h| :: SawKeyGone(h[i], h[j])
  }

  ghost predicate Fetches(h: History, job: J.Job) {
    exists i | 0 <= i < |h| :: h[i].call.ReadJob? && h[i].reply == Fetched(job)
  }

  lemma {:induction false} FetchedIsSeen(h: History)
    ensures Watching(h).fetched.Some? ==> Fetches(h, Watching(h).fetched.value)
    decreases |h|
  {
    if h != [] {
      var prior := h[..|h| - 1];
      FetchedIsSeen(prior);
      assert forall job :: Fetches(prior, job) ==> Fetches(h, job);
    }
  }

  lemma ReadsItsOwnJob(l: Launch, h: History)
    requires IsHistory(l, h) && !At(l, h).pc.Ended? && CallOf(At(l, h)).ReadJob?
    ensures CallOf(At(l, h)) == ReadJob(l.incident)
  {
  }

  /** What a reconciliation as VERIFIED_ABSENT rests on is the key of the job read under the lease. */
  lemma {:induction false} VerifiedItsOwnKey(l: Launch, h: History)
    requires IsHistory(l, h)
    ensures At(l, h).pc.Reconciling? && At(l, h).pc.absent ==> KeyGone(h)
  {
    hide Watching;
    if h != [] && At(l, h).pc.Reconciling? && At(l, h).pc.absent {
      var prior := h[..|h| - 1];
      AgreesAlways(l, prior);
      FetchedIsSeen(prior);
      var i :| 0 <= i < |prior| && prior[i].call.ReadJob? && prior[i].reply == Fetched(At(l, prior).pc.job);
      assert SawKeyGone(h[i], h[|h| - 1]);
    }
  }

  /** A worker that reports an incident gone read that incident's job and saw its key gone. */
  lemma AbsenceWasSeen(l: Launch, h: History, n: nat, call: C1.Call)
    requires IsHistory(l, h) && Issues(l, h, n, Ask(call)) && (call.op.Reconcile? || call.op.Finalize?) && call.op.verdict == VerifiedAbsent
    ensures n <= |h| && call.incident == l.incident && exists i, j | 0 <= i < n && 0 <= j < n :: SawKeyGone(h[i], h[j])
  {
    hide IsHistory, Step;
    PrefixIsHistory(l, h, n);
    VerifiedItsOwnKey(l, h[..n]);
    var i, j :| 0 <= i < n && 0 <= j < n && SawKeyGone(h[..n][i], h[..n][j]);
    assert SawKeyGone(h[i], h[j]);
  }
}
