/** Leases are exclusive and operator handoffs are linear, over coordinator passes that
    interleave with the broker's own reads and writes. */
module Handoffs {
  import opened Domain
  import C1 = C1Contract
  import opened System
  import J = JobStore
  import Co = Coordinator
  import W = BrokerWorker
  import CoT = CoordinatorTrace
  import WT = BrokerWorkerTrace

  type Workers = map<Pid, WorkerRun>
  type Coords = map<HandoffId, CoordRun>

  function Seen(run: WorkerRun): WT.Watch { WT.Watching(run.log) }

  ghost predicate Histories(coords: Coords, workers: Workers) {
    && (forall h <- coords :: coords[h].launch.handoff == h && CoT.IsHistory(coords[h].launch, coords[h].log))
    && (forall p <- workers :: WT.IsHistory(workers[p].launch, workers[p].log))
  }

  // ---- Leases

  /** A live worker inside withLease is the one the lease names. */
  ghost predicate LeasesNamed(leases: map<IncidentId, Pid>, dead: set<Pid>, workers: Workers) {
    forall p <- workers :: p !in dead && Seen(workers[p]).held ==>
      workers[p].launch.incident in leases && leases[workers[p].launch.incident] == p
  }

  lemma LeasesExclude(leases: map<IncidentId, Pid>, dead: set<Pid>, workers: Workers, p: Pid, q: Pid)
    requires LeasesNamed(leases, dead, workers) && p in workers && q in workers && p !in dead && q !in dead
    requires Seen(workers[p]).held && Seen(workers[q]).held && workers[p].launch.incident == workers[q].launch.incident
    ensures p == q
  {
  }

  // ---- Handoffs

  /** The pass that draws this id read C1's record of this incident as the frozen one, and sent
      a write of its job that carries the id. */
  ghost predicate Issued(coords: Coords, h: HandoffId, incident: IncidentId) {
    h in coords && coords[h].launch.job.frozen.incident == incident &&
    var w := CoT.Watching(coords[h].launch, coords[h].log);
    w.matched && w.wrote.Some? && w.wrote.value.handoff == Some(Some(h))
  }

  /** The ids that coordinator passes issued. */
  ghost function IssuedIds(coords: Coords): set<HandoffId> {
    set h <- coords | Issued(coords, h, coords[h].launch.job.frozen.incident)
  }

  ghost predicate JobsIssued(jobs: J.Jobs, coords: Coords) {
    forall i <- jobs :: jobs[i].handoff.Some? ==> Issued(coords, jobs[i].handoff.value, i)
  }

  ghost predicate FetchedIssued(coords: Coords, workers: Workers) {
    forall p <- workers :: Seen(workers[p]).fetched.Some? && Seen(workers[p]).fetched.value.handoff.Some? ==>
      Issued(coords, Seen(workers[p]).fetched.value.handoff.value, workers[p].launch.incident)
  }

  ghost predicate NobodyConsumed(workers: Workers, handoff: Option<HandoffId>) {
    handoff.Some? ==> forall p <- workers :: Seen(workers[p]).consumed != handoff
  }

  /** An id that still waits in a job was consumed by nobody. */
  ghost predicate WaitingUnused(jobs: J.Jobs, workers: Workers) {
    forall i <- jobs :: W.Unconsumed(jobs[i]) ==> NobodyConsumed(workers, jobs[i].handoff)
  }

  /** Nothing was consumed from this job since it was read. */
  predicate Untouched(job: J.Job, leased: J.Job) {
    job.consumed.None? || (job.handoff == leased.handoff && job.consumed == leased.consumed)
  }

  ghost predicate Pending(jobs: J.Jobs, workers: Workers, p: Pid)
    requires p in workers
  {
    WorkerAt(workers[p]).pc.Consuming? ==>
      var leased := WorkerAt(workers[p]).pc.leased;
      && workers[p].launch.incident in jobs && Untouched(jobs[workers[p].launch.incident], leased)
      && NobodyConsumed(workers, leased.handoff)
  }

  ghost predicate PendingsOk(jobs: J.Jobs, workers: Workers, dead: set<Pid>) {
    forall p <- workers :: p !in dead ==> Pending(jobs, workers, p)
  }

  ghost predicate ConsumedOnce(workers: Workers) {
    forall p <- workers, q <- workers :: p != q && Seen(workers[p]).consumed.Some? ==> Seen(workers[p]).consumed != Seen(workers[q]).consumed
  }

  ghost predicate Counted(jobs: J.Jobs, coords: Coords, workers: Workers, dead: set<Pid>) {
    && JobsIssued(jobs, coords) && FetchedIssued(coords, workers)
    && WaitingUnused(jobs, workers) && PendingsOk(jobs, workers, dead) && ConsumedOnce(workers)
  }

  ghost predicate HandoffsOk(jobs: J.Jobs, coords: Coords, workers: Workers, leases: map<IncidentId, Pid>, dead: set<Pid>) {
    Histories(coords, workers) && LeasesNamed(leases, dead, workers) && Counted(jobs, coords, workers, dead)
  }

  // ---- A step of a worker, seen from outside

  function Answered(run: WorkerRun, reply: W.WorkerReply): WorkerRun
    requires !WorkerAt(run).pc.Ended?
  {
    Extended(run, W.Exchange(W.CallOf(WorkerAt(run)), reply))
  }

  lemma AnsweredIs(run: WorkerRun, reply: W.WorkerReply)
    requires WT.IsHistory(run.launch, run.log) && !WorkerAt(run).pc.Ended?
    ensures WT.IsHistory(run.launch, Answered(run, reply).log)
    ensures WorkerAt(Answered(run, reply)) == W.Step(WorkerAt(run), reply)
    ensures Seen(Answered(run, reply)) == WT.Observe(Seen(run), W.Exchange(W.CallOf(WorkerAt(run)), reply))
    ensures WT.Agrees(WorkerAt(run), Seen(run)) && WT.Agrees(WorkerAt(Answered(run, reply)), Seen(Answered(run, reply)))
  {
    hide W.Step, W.CallOf, WT.Observe, WT.Agrees, WT.IsHistory;
    var x := W.Exchange(W.CallOf(WorkerAt(run)), reply);
    assert Answered(run, reply).log[..|run.log|] == run.log;
    WT.OneMore(run.launch, run.log, x);
    WT.AgreesAlways(run.launch, run.log);
    WT.AgreesAlways(run.launch, Answered(run, reply).log);
  }

  /** Neither reads the job nor consumes from it. */
  ghost predicate Quiet(run: WorkerRun, run': WorkerRun) {
    && run'.launch == run.launch && Seen(run').consumed == Seen(run).consumed && Seen(run').fetched == Seen(run).fetched
    && !WorkerAt(run').pc.Consuming?
  }

  ghost predicate SameHandoffs(jobs: J.Jobs, jobs': J.Jobs) {
    jobs'.Keys == jobs.Keys && forall i <- jobs :: jobs'[i].handoff == jobs[i].handoff && jobs'[i].consumed == jobs[i].consumed
  }

  lemma QuietKeeps(jobs: J.Jobs, jobs': J.Jobs, coords: Coords, workers: Workers, dead: set<Pid>, p: Pid, run': WorkerRun)
    requires Counted(jobs, coords, workers, dead) && SameHandoffs(jobs, jobs')
    requires p in workers && Quiet(workers[p], run')
    ensures Counted(jobs', coords, workers[p := run'], dead)
  {
  }

  /** Reading the job under the lease. */
  lemma FetchKeeps(jobs: J.Jobs, coords: Coords, workers: Workers, dead: set<Pid>, p: Pid, run': WorkerRun)
    requires Counted(jobs, coords, workers, dead) && p in workers && run'.launch == workers[p].launch
    requires run'.launch.incident in jobs && Seen(run').fetched == Some(jobs[run'.launch.incident])
    requires Seen(workers[p]).consumed.None? && Seen(run').consumed.None?
    requires WorkerAt(run').pc.Consuming? ==> WorkerAt(run').pc.leased == jobs[run'.launch.incident] && W.Unconsumed(jobs[run'.launch.incident])
    ensures Counted(jobs, coords, workers[p := run'], dead)
  {
  }

  lemma OneConsumerAtATime(coords: Coords, leases: map<IncidentId, Pid>, workers: Workers, dead: set<Pid>, p: Pid, q: Pid)
    requires Histories(coords, workers) && LeasesNamed(leases, dead, workers) && FetchedIssued(coords, workers)
    requires p in workers && q in workers && p !in dead && q !in dead
    requires WorkerAt(workers[p]).pc.Consuming? && WorkerAt(workers[q]).pc.Consuming?
    requires WorkerAt(workers[p]).pc.leased.handoff == WorkerAt(workers[q]).pc.leased.handoff || workers[p].launch.incident == workers[q].launch.incident
    ensures p == q
  {
    WT.AgreesAlways(workers[p].launch, workers[p].log);
    WT.AgreesAlways(workers[q].launch, workers[q].log);
    assert Seen(workers[p]).held && Seen(workers[q]).held;
    assert Issued(coords, WorkerAt(workers[p]).pc.leased.handoff.value, workers[p].launch.incident);
    assert Issued(coords, WorkerAt(workers[q]).pc.leased.handoff.value, workers[q].launch.incident);
    LeasesExclude(leases, dead, workers, p, q);
  }

  /** What the consume write needs to know. */
  ghost predicate AboutToConsume(jobs: J.Jobs, coords: Coords, workers: Workers, dead: set<Pid>, p: Pid, leased: J.Job, run': WorkerRun) {
    && Counted(jobs, coords, workers, dead)
    && p in workers && run'.launch == workers[p].launch && run'.launch.incident in jobs && !WorkerAt(run').pc.Consuming?
    && leased.handoff.Some? && Issued(coords, leased.handoff.value, run'.launch.incident)
    && Untouched(jobs[run'.launch.incident], leased) && NobodyConsumed(workers, leased.handoff)
    && Seen(run').fetched == Seen(workers[p]).fetched && Seen(run').consumed in {Seen(workers[p]).consumed, leased.handoff}
    && (forall q <- workers :: q != p && q !in dead && WorkerAt(workers[q]).pc.Consuming? ==>
          WorkerAt(workers[q]).pc.leased.handoff != leased.handoff && workers[q].launch.incident != run'.launch.incident)
  }

  function Consumed(jobs: J.Jobs, incident: IncidentId, handoff: Option<HandoffId>): J.Jobs
    requires incident in jobs
  {
    jobs[incident := jobs[incident].(consumed := handoff)]
  }

  lemma ConsumeKeepsWaiting(jobs: J.Jobs, coords: Coords, workers: Workers, dead: set<Pid>, p: Pid, leased: J.Job, run': WorkerRun)
    requires AboutToConsume(jobs, coords, workers, dead, p, leased, run')
    ensures WaitingUnused(Consumed(jobs, run'.launch.incident, leased.handoff), workers[p := run'])
  {
    var jobs' := Consumed(jobs, run'.launch.incident, leased.handoff);
    forall i <- jobs' | W.Unconsumed(jobs'[i]) ensures NobodyConsumed(workers[p := run'], jobs'[i].handoff) {
      if i == run'.launch.incident {
        assert jobs[i].consumed.None? && W.Unconsumed(jobs[i]);
      } else {
        assert Issued(coords, jobs[i].handoff.value, i);
      }
      assert NobodyConsumed(workers, jobs[i].handoff);
    }
  }

  lemma ConsumeKeepsPending(jobs: J.Jobs, coords: Coords, workers: Workers, dead: set<Pid>, p: Pid, leased: J.Job, run': WorkerRun)
    requires AboutToConsume(jobs, coords, workers, dead, p, leased, run')
    ensures PendingsOk(Consumed(jobs, run'.launch.incident, leased.handoff), workers[p := run'], dead)
  {
    var workers' := workers[p := run'];
    forall q <- workers' | q !in dead ensures Pending(Consumed(jobs, run'.launch.incident, leased.handoff), workers', q) {
      if q != p && WorkerAt(workers[q]).pc.Consuming? {
        assert Pending(jobs, workers, q);
      }
    }
  }

  lemma ConsumeKeepsRest(jobs: J.Jobs, coords: Coords, workers: Workers, dead: set<Pid>, p: Pid, leased: J.Job, run': WorkerRun)
    requires AboutToConsume(jobs, coords, workers, dead, p, leased, run')
    ensures JobsIssued(Consumed(jobs, run'.launch.incident, leased.handoff), coords)
    ensures FetchedIssued(coords, workers[p := run']) && ConsumedOnce(workers[p := run'])
  {
  }

  /** The consume write, whether or not the worker hears of it. */
  lemma ConsumeKeeps(jobs: J.Jobs, coords: Coords, leases: map<IncidentId, Pid>, workers: Workers, dead: set<Pid>, p: Pid, run': WorkerRun)
    requires Counted(jobs, coords, workers, dead) && Histories(coords, workers) && LeasesNamed(leases, dead, workers)
    requires p in workers && p !in dead && run'.launch == workers[p].launch
    requires WorkerAt(workers[p]).pc.Consuming? && !WorkerAt(run').pc.Consuming?
    requires Seen(run').fetched == Seen(workers[p]).fetched
    requires Seen(run').consumed in {Seen(workers[p]).consumed, WorkerAt(workers[p]).pc.leased.handoff}
    ensures run'.launch.incident in jobs
    ensures Counted(Consumed(jobs, run'.launch.incident, WorkerAt(workers[p]).pc.leased.handoff), coords, workers[p := run'], dead)
  {
    var leased := WorkerAt(workers[p]).pc.leased;
    WT.AgreesAlways(workers[p].launch, workers[p].log);
    assert Pending(jobs, workers, p);
    forall q <- workers | q != p && q !in dead && WorkerAt(workers[q]).pc.Consuming?
      ensures WorkerAt(workers[q]).pc.leased.handoff != leased.handoff && workers[q].launch.incident != run'.launch.incident
    {
      if WorkerAt(workers[q]).pc.leased.handoff == leased.handoff || workers[q].launch.incident == run'.launch.incident {
        OneConsumerAtATime(coords, leases, workers, dead, p, q);
      }
    }
    ConsumeKeepsWaiting(jobs, coords, workers, dead, p, leased, run');
    ConsumeKeepsPending(jobs, coords, workers, dead, p, leased, run');
    ConsumeKeepsRest(jobs, coords, workers, dead, p, leased, run');
  }

  // ---- A step of a coordinator pass

  ghost predicate IssuedGrows(coords: Coords, coords': Coords) {
    forall h, i :: Issued(coords, h, i) ==> Issued(coords', h, i)
  }

  lemma MoreIssuedKeeps(jobs: J.Jobs, coords: Coords, coords': Coords, workers: Workers, dead: set<Pid>)
    requires Counted(jobs, coords, workers, dead) && IssuedGrows(coords, coords')
    ensures Counted(jobs, coords', workers, dead)
  {
  }

  /** A pass writes under its own id, which nobody has seen before. */
  lemma CoordWriteKeeps(jobs: J.Jobs, coords: Coords, coords': Coords, workers: Workers, dead: set<Pid>, h: HandoffId, incident: IncidentId, patch: J.Patch)
    requires Counted(jobs, coords, workers, dead) && Histories(coords, workers) && IssuedGrows(coords, coords')
    requires incident in jobs && forall i :: !Issued(coords, h, i)
    requires patch.handoff.Some? ==> patch.consumed == Some(None)
    requires patch.handoff.Some? && patch.handoff.value.Some? ==> patch.handoff.value.value == h && Issued(coords', h, incident)
    requires patch.handoff.None? ==> patch.consumed.None?
    ensures Counted(jobs[incident := J.Apply(jobs[incident], patch)], coords', workers, dead)
  {
    var jobs' := jobs[incident := J.Apply(jobs[incident], patch)];
    FreshIsUnused(coords, workers, h);
    assert WaitingUnused(jobs', workers);
    forall p <- workers | p !in dead ensures Pending(jobs', workers, p) {
      assert Pending(jobs, workers, p);
    }
  }

  lemma FreshIsUnused(coords: Coords, workers: Workers, h: HandoffId)
    requires Histories(coords, workers) && FetchedIssued(coords, workers) && forall i :: !Issued(coords, h, i)
    ensures NobodyConsumed(workers, Some(h))
  {
    forall p <- workers ensures Seen(workers[p]).consumed != Some(h) {
      WT.AgreesAlways(workers[p].launch, workers[p].log);
    }
  }

  function CoordNext(run: CoordRun, reply: Co.CoordReply): CoordRun
    requires !CoordAt(run).pc.Finished?
  {
    Extended(run, Co.Exchange(Co.CallOf(CoordAt(run)), reply))
  }

  lemma UpdatingIs(run: CoordRun)
    requires !CoordAt(run).pc.Finished? && Co.CallOf(CoordAt(run)).UpdateJob?
    ensures CoordAt(run).pc.Updating? && Co.CallOf(CoordAt(run)).patch == CoordAt(run).pc.patch
  {
    hide Co.Step;
  }

  lemma CoordNextIs(coords: Coords, h: HandoffId, reply: Co.CoordReply)
    requires h in coords && CoT.IsHistory(coords[h].launch, coords[h].log) && !CoordAt(coords[h]).pc.Finished?
    ensures
      var run := coords[h];
      var run' := CoordNext(run, reply);
      && CoT.IsHistory(run'.launch, run'.log)
      && IssuedGrows(coords, coords[h := run'])
      && (Co.CallOf(CoordAt(run)).UpdateJob? ==>
            && CoT.Watching(run.launch, run.log).wrote.None?
            && CoT.Watching(run'.launch, run'.log).wrote == Some(Co.CallOf(CoordAt(run)).patch)
            && (Co.CallOf(CoordAt(run)).patch.handoff.Some? ==> CoT.Watching(run'.launch, run'.log).matched))
  {
    hide Co.Step, Co.CallOf, CoT.IsHistory;
    var run := coords[h];
    assert CoordNext(run, reply).log[..|run.log|] == run.log;
    CoT.OneMore(run.launch, run.log, Co.Exchange(Co.CallOf(CoordAt(run)), reply));
    CoT.AgreesAlways(run.launch, run.log);
    if Co.CallOf(CoordAt(run)).UpdateJob? {
      UpdatingIs(run);
    }
  }

  lemma CoordStepCounts(jobs: J.Jobs, jobs': J.Jobs, coords: Coords, workers: Workers, dead: set<Pid>, h: HandoffId, reply: Co.CoordReply)
    requires Counted(jobs, coords, workers, dead) && Histories(coords, workers) && h in coords && !CoordAt(coords[h]).pc.Finished?
    requires
      var call := Co.CallOf(CoordAt(coords[h]));
      if call.UpdateJob?
      then JobMoves(jobs, call.incident, call.patch, call.allowConflict, if reply.Stored? then Some(reply.job) else None, jobs')
      else jobs' == jobs
    ensures Counted(jobs', coords[h := CoordNext(coords[h], reply)], workers, dead)
  {
    var run := coords[h];
    var coords' := coords[h := CoordNext(run, reply)];
    CoordNextIs(coords, h, reply);
    if jobs' == jobs {
      MoreIssuedKeeps(jobs, coords, coords', workers, dead);
    } else {
      var call := Co.CallOf(CoordAt(run));
      CoT.HandoffsAreAuthorized(run.launch, run.log);
      CoordWriteKeeps(jobs, coords, coords', workers, dead, h, call.incident, call.patch);
    }
  }

  // ---- A step of a worker

  lemma WorkerCallIs(run: WorkerRun)
    requires WT.IsHistory(run.launch, run.log) && !WorkerAt(run).pc.Ended? && W.CallOf(WorkerAt(run)).UpdateJob?
    ensures
      var call := W.CallOf(WorkerAt(run));
      && call.incident == run.launch.incident && call.patch.handoff.None?
      && (if WorkerAt(run).pc.Consuming?
          then call.patch == J.NO_CHANGE.(consumed := Some(WorkerAt(run).pc.leased.handoff)) else call.patch.consumed.None?)
  {
    WT.AgreesAlways(run.launch, run.log);
  }

  lemma OtherUpdatesAreQuiet(jobs: J.Jobs, incident: IncidentId, patch: J.Patch, allow: bool, stored: Option<J.Job>, jobs': J.Jobs)
    requires JobMoves(jobs, incident, patch, allow, stored, jobs') && patch.handoff.None? && patch.consumed.None?
    ensures SameHandoffs(jobs, jobs')
  {
  }

  lemma ConsumeWriteIs(jobs: J.Jobs, incident: IncidentId, handoff: Option<HandoffId>, stored: Option<J.Job>, jobs': J.Jobs)
    requires incident in jobs && JobMoves(jobs, incident, J.NO_CHANGE.(consumed := Some(handoff)), false, stored, jobs')
    ensures jobs' == Consumed(jobs, incident, handoff) || (stored.None? && jobs' == jobs)
  {
  }

  /** The part of the job store a worker's call may change. */
  ghost predicate JobStep(jobs: J.Jobs, call: W.WorkerCall, reply: W.WorkerReply, jobs': J.Jobs) {
    && (if call.UpdateJob?
        then JobMoves(jobs, call.incident, call.patch, call.allowConflict, if reply.Stored? then Some(reply.job) else None, jobs')
        else jobs' == jobs)
    && (call.UpdateJob? ==> reply.Threw? || reply.Stored?)
    && (call.ReadJob? && reply.Fetched? ==> call.incident in jobs && reply.job == jobs[call.incident])
  }

  lemma WorkerStepCounts(jobs: J.Jobs, jobs': J.Jobs, coords: Coords, leases: map<IncidentId, Pid>, workers: Workers, dead: set<Pid>, p: Pid, reply: W.WorkerReply)
    requires Counted(jobs, coords, workers, dead) && Histories(coords, workers) && LeasesNamed(leases, dead, workers)
    requires p in workers && p !in dead && !WorkerAt(workers[p]).pc.Ended?
    requires JobStep(jobs, W.CallOf(WorkerAt(workers[p])), reply, jobs')
    ensures Counted(jobs', coords, workers[p := Answered(workers[p], reply)], dead)
  {
    var run := workers[p];
    var run' := Answered(run, reply);
    if WorkerAt(run).pc.Fetching? {
      FetchStepCounts(jobs, coords, workers, dead, p, reply);
    } else if WorkerAt(run).pc.Consuming? {
      ConsumeStepCounts(jobs, jobs', coords, leases, workers, dead, p, reply);
    } else {
      OtherStepIsQuiet(run, reply);
      if W.CallOf(WorkerAt(run)).UpdateJob? {
        var call := W.CallOf(WorkerAt(run));
        WorkerCallIs(run);
        OtherUpdatesAreQuiet(jobs, call.incident, call.patch, call.allowConflict, if reply.Stored? then Some(reply.job) else None, jobs');
      }
      QuietKeeps(jobs, jobs', coords, workers, dead, p, run');
    }
  }

  lemma OtherStepIsQuiet(run: WorkerRun, reply: W.WorkerReply)
    requires WT.IsHistory(run.launch, run.log) && !WorkerAt(run).pc.Ended?
    requires !WorkerAt(run).pc.Fetching? && !WorkerAt(run).pc.Consuming?
    ensures Quiet(run, Answered(run, reply))
  {
    AnsweredIs(run, reply);
    if W.CallOf(WorkerAt(run)).UpdateJob? {
      WorkerCallIs(run);
    }
  }

  lemma FetchStepCounts(jobs: J.Jobs, coords: Coords, workers: Workers, dead: set<Pid>, p: Pid, reply: W.WorkerReply)
    requires Counted(jobs, coords, workers, dead) && Histories(coords, workers)
    requires p in workers && WorkerAt(workers[p]).pc.Fetching? && JobStep(jobs, W.CallOf(WorkerAt(workers[p])), reply, jobs)
    ensures Counted(jobs, coords, workers[p := Answered(workers[p], reply)], dead)
  {
    var run' := Answered(workers[p], reply);
    AnsweredIs(workers[p], reply);
    if reply.Fetched? {
      FetchKeeps(jobs, coords, workers, dead, p, run');
    } else {
      QuietKeeps(jobs, jobs, coords, workers, dead, p, run');
    }
  }

  lemma ConsumeStepCounts(jobs: J.Jobs, jobs': J.Jobs, coords: Coords, leases: map<IncidentId, Pid>, workers: Workers, dead: set<Pid>, p: Pid, reply: W.WorkerReply)
    requires Counted(jobs, coords, workers, dead) && Histories(coords, workers) && LeasesNamed(leases, dead, workers)
    requires p in workers && p !in dead && WorkerAt(workers[p]).pc.Consuming?
    requires JobStep(jobs, W.CallOf(WorkerAt(workers[p])), reply, jobs')
    ensures Counted(jobs', coords, workers[p := Answered(workers[p], reply)], dead)
  {
    var run' := Answered(workers[p], reply);
    AnsweredIs(workers[p], reply);
    WorkerCallIs(workers[p]);
    ConsumeKeeps(jobs, coords, leases, workers, dead, p, run');
    ConsumeWriteIs(jobs, run'.launch.incident, WorkerAt(workers[p]).pc.leased.handoff, if reply.Stored? then Some(reply.job) else None, jobs');
    if jobs' == jobs && jobs' != Consumed(jobs, run'.launch.incident, WorkerAt(workers[p]).pc.leased.handoff) {
      QuietKeeps(jobs, jobs, coords, workers, dead, p, run');
    }
  }

  // ---- Leases over a step

  /** What a worker's call may do to the leases. */
  ghost predicate LeaseStep(leases: map<IncidentId, Pid>, dead: set<Pid>, p: Pid, call: W.WorkerCall, reply: W.WorkerReply, leases': map<IncidentId, Pid>) {
    match call {
      case AcquireLease(i) =>
        if reply == W.Held(true) then (i in leases ==> leases[i] in dead) && leases' == leases[i := p]
        else leases' == leases || ((i in leases ==> leases[i] in dead) && leases' == leases[i := p])
      case ReleaseLease(i) => leases' == leases || (i in leases && leases[i] == p && leases' == leases - {i})
      case _ => leases' == leases
    }
  }

  lemma LeaseStepKeeps(leases: map<IncidentId, Pid>, leases': map<IncidentId, Pid>, dead: set<Pid>, coords: Coords, workers: Workers, p: Pid, reply: W.WorkerReply)
    requires LeasesNamed(leases, dead, workers) && Histories(coords, workers) && p in workers && p !in dead && !WorkerAt(workers[p]).pc.Ended?
    requires LeaseStep(leases, dead, p, W.CallOf(WorkerAt(workers[p])), reply, leases')
    ensures LeasesNamed(leases', dead, workers[p := Answered(workers[p], reply)])
  {
    hide WT.IsHistory, CoT.IsHistory, W.Step;
    AnsweredIs(workers[p], reply);
  }
}
