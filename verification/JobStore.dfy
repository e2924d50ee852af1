/** winner/runtime/job-store.ts: durable remediation jobs and their state machine. */
module JobStore {
  import opened Domain
  import C1 = C1Contract

  datatype JobState =
    | Pending | HandoffReady | Processing | RetryReady
    | ReconcileRequired | Closed | Failed | StateConflict

  /** What a job is created with and no update can change. */
  datatype Frozen = Frozen(
    incident: IncidentId, receiptKey: DedupeKey, policy: PolicyRef, keyId: int, title: string, request: CreateRequest)

  datatype Job = Job(
    frozen: Frozen, state: JobState, remote: Option<C1.Status>,
    claim: Option<ClaimId>, claimVersion: Option<int>, start: Option<StartId>,
    classification: Option<Classification>,
    handoff: Option<HandoffId>, consumed: Option<HandoffId>)

  /** `None` leaves a field as it is. */
  datatype Patch = Patch(
    state: Option<JobState>, remote: Option<Option<C1.Status>>,
    claim: Option<Option<ClaimId>>, claimVersion: Option<Option<int>>, start: Option<Option<StartId>>,
    classification: Option<Option<Classification>>,
    handoff: Option<Option<HandoffId>>, consumed: Option<Option<HandoffId>>)

  const NO_CHANGE := Patch(None, None, None, None, None, None, None, None)

  function NewJob(frozen: Frozen): Job {
    Job(frozen, Pending, None, None, None, None, None, None, None)
  }

  function Or<T>(change: Option<T>, current: T): T {
    match change { case Some(v) => v case None => current }
  }

  predicate CanTransition(from: JobState, to: JobState, allowConflict: bool) {
    from == to ||
    match from {
      case StateConflict => allowConflict && (to == ReconcileRequired || to == Closed)
      case Closed | Failed => allowConflict && to == StateConflict
      case Pending => to in {HandoffReady, ReconcileRequired, Closed, Failed, StateConflict}
      case HandoffReady => to in {Processing, RetryReady, ReconcileRequired, Closed, Failed, StateConflict}
      case Processing => to in {RetryReady, ReconcileRequired, Closed, Failed, StateConflict}
      case RetryReady => to in {ReconcileRequired, Closed, Failed, StateConflict}
      case ReconcileRequired => to in {Closed, Failed, StateConflict}
    }
  }

  function Apply(job: Job, patch: Patch): Job {
    Job(job.frozen, Or(patch.state, job.state), Or(patch.remote, job.remote),
        Or(patch.claim, job.claim), Or(patch.claimVersion, job.claimVersion), Or(patch.start, job.start),
        Or(patch.classification, job.classification),
        Or(patch.handoff, job.handoff), Or(patch.consumed, job.consumed))
  }

  /** One `update`; None is the refused transition. */
  function Updated(job: Job, patch: Patch, allowConflict: bool): Option<Job> {
    if CanTransition(job.state, Or(patch.state, job.state), allowConflict) then Some(Apply(job, patch)) else None
  }

  // ---- Progress

  /** No broker child is started for a job in one of these states. */
  predicate Final(state: JobState) { state in {ReconcileRequired, Closed, Failed, StateConflict} }

  function Rank(state: JobState): nat {
    match state {
      case Pending => 0
      case HandoffReady => 1
      case Processing => 2
      case RetryReady => 3
      case _ => 4
    }
  }

  type Update = (Patch, bool)

  function After(job: Job, update: Update): Job {
    Or(Updated(job, update.0, update.1), job)
  }

  /** The states a job passes through, refused updates included. */
  function Trail(job: Job, updates: seq<Update>): (states: seq<JobState>)
    ensures |states| == |updates| + 1 && states[0] == job.state
    decreases |updates|
  {
    if updates == [] then [job.state]
    else [job.state] + Trail(After(job, updates[0]), updates[1..])
  }

  function ChangesBeforeFinal(states: seq<JobState>): nat {
    if |states| < 2 then 0
    else (if states[0] != states[1] && !Final(states[0]) then 1 else 0) + ChangesBeforeFinal(states[1..])
  }

  function EntriesToProcessing(states: seq<JobState>): nat {
    if |states| < 2 then 0
    else (if states[0] != Processing && states[1] == Processing then 1 else 0) + EntriesToProcessing(states[1..])
  }

  lemma UpdateNeverGoesBack(job: Job, update: Update)
    ensures After(job, update).frozen == job.frozen
    ensures Rank(job.state) <= Rank(After(job, update).state)
    ensures After(job, update).state != job.state && !Final(job.state) ==> Rank(job.state) < Rank(After(job, update).state)
  {
  }

  /** Over any sequence of updates by coordinator and broker, the order of states never
      decreases, the last group is never left, at most four changes lead into it, and
      PROCESSING is entered at most once. */
  lemma {:induction false} JobsOnlyProgress(job: Job, updates: seq<Update>)
    ensures
      var states := Trail(job, updates);
      && (forall i, j | 0 <= i <= j < |states| :: Rank(states[i]) <= Rank(states[j]))
      && ChangesBeforeFinal(states) <= 4 - Rank(job.state)
      && EntriesToProcessing(states) <= (if Rank(job.state) < Rank(Processing) then 1 else 0)
    decreases |updates|
  {
    if updates != [] {
      var next := After(job, updates[0]);
      UpdateNeverGoesBack(job, updates[0]);
      JobsOnlyProgress(next, updates[1..]);
      assert Trail(job, updates)[1..] == Trail(next, updates[1..]);
    }
  }

  /** A request to enter the last group is refused only where the job is there already. */
  lemma FinalRequestsStick(job: Job, patch: Patch, allowConflict: bool)
    requires patch.state.Some? && Final(patch.state.value)
    ensures Final(After(job, (patch, allowConflict)).state)
  {
  }

  /** The moves between different states that an update may make, and those it may only make when
      it asks for a conflict. */
  const MOVES: set<(JobState, JobState)> := {
    (Pending, HandoffReady), (Pending, ReconcileRequired), (Pending, Closed), (Pending, Failed), (Pending, StateConflict),
    (HandoffReady, Processing), (HandoffReady, RetryReady), (HandoffReady, ReconcileRequired), (HandoffReady, Closed), (HandoffReady, Failed), (HandoffReady, StateConflict),
    (Processing, RetryReady), (Processing, ReconcileRequired), (Processing, Closed), (Processing, Failed), (Processing, StateConflict),
    (RetryReady, ReconcileRequired), (RetryReady, Closed), (RetryReady, Failed), (RetryReady, StateConflict),
    (ReconcileRequired, Closed), (ReconcileRequired, Failed), (ReconcileRequired, StateConflict)
  }

  const CONFLICT_MOVES: set<(JobState, JobState)> := {
    (Closed, StateConflict), (Failed, StateConflict), (StateConflict, ReconcileRequired), (StateConflict, Closed)
  }

  /** An update is accepted exactly for these moves, and then sets exactly the fields it names. */
  lemma UpdatesExactly(job: Job, patch: Patch, allowConflict: bool)
    ensures
      var to := if patch.state.Some? then patch.state.value else job.state;
      var r := Updated(job, patch, allowConflict);
      && (r.Some? <==> to == job.state || (job.state, to) in MOVES || (allowConflict && (job.state, to) in CONFLICT_MOVES))
      && (r.Some? ==>
            && r.value.frozen == job.frozen && r.value.state == to
            && (patch.remote.Some? ==> r.value.remote == patch.remote.value) && (patch.remote.None? ==> r.value.remote == job.remote)
            && (patch.claim.Some? ==> r.value.claim == patch.claim.value) && (patch.claim.None? ==> r.value.claim == job.claim)
            && (patch.claimVersion.Some? ==> r.value.claimVersion == patch.claimVersion.value) && (patch.claimVersion.None? ==> r.value.claimVersion == job.claimVersion)
            && (patch.start.Some? ==> r.value.start == patch.start.value) && (patch.start.None? ==> r.value.start == job.start)
            && (patch.classification.Some? ==> r.value.classification == patch.classification.value)
            && (patch.classification.None? ==> r.value.classification == job.classification)
            && (patch.handoff.Some? ==> r.value.handoff == patch.handoff.value) && (patch.handoff.None? ==> r.value.handoff == job.handoff)
            && (patch.consumed.Some? ==> r.value.consumed == patch.consumed.value) && (patch.consumed.None? ==> r.value.consumed == job.consumed))
  {
  }

  /** A CLOSED or FAILED job stays as it is over any updates that do not ask for a conflict. */
  lemma {:induction false} SettledJobsStay(job: Job, updates: seq<Update>)
    requires job.state in {Closed, Failed} && forall u <- updates :: !u.1
    ensures forall s <- Trail(job, updates) :: s == job.state
    decreases |updates|
  {
    if updates != [] {
      var next := After(job, updates[0]);
      assert next.state == job.state;
      assert forall u <- updates[1..] :: u in updates;
      SettledJobsStay(next, updates[1..]);
    }
  }

  // ---- The store

  type Jobs = map<IncidentId, Job>

  datatype Result<+T> = Success(value: T) | Failure(error: string)

  /** Exclusive create; an existing job must have exactly the same identity. */
  function CreateResult(jobs: Jobs, frozen: Frozen): (Jobs, Result<Job>) {
    if frozen.incident !in jobs then (jobs[frozen.incident := NewJob(frozen)], Success(NewJob(frozen)))
    else if jobs[frozen.incident].frozen != frozen then (jobs, Failure("runtime job identity conflict"))
    else (jobs, Success(jobs[frozen.incident]))
  }

  /** One update under the state lock. */
  function UpdateResult(jobs: Jobs, incident: IncidentId, patch: Patch, allowConflict: bool): (Jobs, Result<Job>) {
    if incident !in jobs then (jobs, Failure("cannot read runtime job"))
    else match Updated(jobs[incident], patch, allowConflict) {
      case None => (jobs, Failure("local job state transition is not permitted"))
      case Some(next) => (jobs[incident := next], Success(next))
    }
  }

  /** Jobs stay, keep what they were created with, and never move back. */
  ghost predicate Persists(jobs: Jobs, later: Jobs) {
    forall i <- jobs :: i in later && later[i].frozen == jobs[i].frozen && Rank(jobs[i].state) <= Rank(later[i].state)
  }

  ghost predicate Keyed(jobs: Jobs) { forall i <- jobs :: jobs[i].frozen.incident == i }

  /** Creating never disturbs a job. */
  lemma CreatingOnlyAdds(jobs: Jobs, frozen: Frozen)
    ensures Persists(jobs, CreateResult(jobs, frozen).0)
    ensures Keyed(jobs) ==> Keyed(CreateResult(jobs, frozen).0)
    ensures CreateResult(jobs, frozen).1.Success? ==>
              var later := CreateResult(jobs, frozen).0;
              frozen.incident in later && later[frozen.incident] == CreateResult(jobs, frozen).1.value && later[frozen.incident].frozen == frozen
  {
  }

  /** A job is created PENDING with nothing known; one that exists is handed out for exactly the
      same identity and refused for any other. */
  lemma CreatesExactly(jobs: Jobs, frozen: Frozen)
    ensures
      var i := frozen.incident;
      var (later, r) := CreateResult(jobs, frozen);
      && (i !in jobs ==> r == Success(Job(frozen, Pending, None, None, None, None, None, None, None)) && later == jobs[i := r.value])
      && (i in jobs ==> later == jobs && (r.Success? <==> jobs[i].frozen == frozen) && (r.Success? ==> r.value == jobs[i]))
  {
  }

  /** An update touches one job and never moves it back. */
  lemma UpdatingOnlyAdvances(jobs: Jobs, incident: IncidentId, patch: Patch, allowConflict: bool)
    ensures Persists(jobs, UpdateResult(jobs, incident, patch, allowConflict).0)
    ensures Keyed(jobs) ==> Keyed(UpdateResult(jobs, incident, patch, allowConflict).0)
    ensures UpdateResult(jobs, incident, patch, allowConflict).0.Keys == jobs.Keys
  {
    if incident in jobs {
      UpdateNeverGoesBack(jobs[incident], (patch, allowConflict));
    }
  }

  class RuntimeJobStore {
    var jobs: Jobs

    constructor ()
      ensures jobs == map[]
    {
      jobs := map[];
    }

    method Create(frozen: Frozen) returns (r: Result<Job>)
      modifies this`jobs
      ensures (jobs, r) == CreateResult(old(jobs), frozen)
      ensures Persists(old(jobs), jobs)
    {
      if frozen.incident !in jobs {
        var job := NewJob(frozen);
        jobs := jobs[frozen.incident := job];
        return Success(job);
      }
      var existing := jobs[frozen.incident];
      if existing.frozen != frozen {
        return Failure("runtime job identity conflict");
      }
      return Success(existing);
    }

    method Get(incident: IncidentId) returns (r: Option<Job>)
      ensures r.Some? <==> incident in jobs
      ensures r.Some? ==> r.value == jobs[incident]
    {
      if incident in jobs {
        r := Some(jobs[incident]);
      } else {
        r := None;
      }
    }

    /** The body of the state lock: read, check the transition, replace the file. */
    method Update(incident: IncidentId, patch: Patch, allowConflict: bool) returns (r: Result<Job>)
      modifies this`jobs
      ensures (jobs, r) == UpdateResult(old(jobs), incident, patch, allowConflict)
      ensures Persists(old(jobs), jobs)
    {
      if incident !in jobs {
        return Failure("cannot read runtime job");
      }
      var current := jobs[incident];
      var requested := Or(patch.state, current.state);
      if !CanTransition(current.state, requested, allowConflict) {
        return Failure("local job state transition is not permitted");
      }
      UpdateNeverGoesBack(current, (patch, allowConflict));
      var next := Apply(current, patch);
      jobs := jobs[incident := next];
      return Success(next);
    }
  }
}
