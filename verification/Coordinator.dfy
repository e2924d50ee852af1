/** winner/runtime/coordinator.ts: one pass of `ensureIncidentAndReservation` over a job, as
    a machine that makes one call at a time, with the retirement that may follow it. */
module Coordinator {
  import opened Domain
  import opened C1 = C1Contract
  import opened BrokerLogic
  import J = JobStore

  /** The job copy a pass works from, the configured repository and the fresh handoff id. */
  datatype Launch = Launch(job: J.Job, operator: Did, remediation: Did, owner: string, repo: string, handoff: HandoffId)

  datatype CoordCall =
    | Ask(call: C1.Call)
    | UpdateJob(incident: IncidentId, patch: J.Patch, allowConflict: bool)
    | RetirePolicy(policy: PolicyRef, incident: IncidentId)

  datatype CoordReply =
    | Threw
    | Answer(raw: Raw)
    | Stored(job: J.Job)
    | Retired

  datatype Exchange = Exchange(call: CoordCall, reply: CoordReply)

  datatype Then = Refuse | Return | Retire

  datatype Pc =
    | Reading
    | Creating
    | ReadingCreated(mustBeFound: bool)
    | Rescuing
    | Reserving(dangerous: bool)
    | Rereading(dangerous: bool)
    | Updating(patch: J.Patch, allowConflict: bool, next: Then)
    | Rechecking
    | Retiring
    | Finished(ok: bool)

  datatype Coord = Coord(launch: Launch, pc: Pc)

  function Launched(l: Launch): Coord { Coord(l, Reading) }

  // ---- Reading a reply

  datatype Snapshot = Snapshot(
    state: Option<Status>, claim: Option<ClaimId>, claimVersion: Option<int>, start: Option<StartId>,
    classification: Option<Classification>)

  function SafeVersion(version: int): Option<int> {
    if -MAX_SAFE_INTEGER <= version <= MAX_SAFE_INTEGER then Some(version) else None
  }

  function SnapshotOf(reply: Reply): Snapshot {
    match reply.detail.authority {
      case Some(a) => Snapshot(reply.state, a.claim, SafeVersion(a.claimVersion), a.start, a.final)
      case None =>
        var d := reply.detail;
        Snapshot(reply.state, d.claim, if d.claimVersion.Some? then SafeVersion(d.claimVersion.value) else None, d.start, None)
    }
  }

  predicate IsAbsent(reply: Reply) { reply.result == Denied && reply.state.None? && reply.absent }

  /** The incident C1 holds is the frozen request against the configured repository. */
  predicate AuthorityMatches(a: Authority, l: Launch) {
    && a.request.incident == l.job.frozen.incident
    && a.request.remediation == l.job.frozen.request.remediation
    && a.request.broker == l.job.frozen.request.broker
    && a.owner == l.owner && a.repo == l.repo
    && a.request.keyId == l.job.frozen.request.keyId
  }

  predicate ReplyMatches(reply: Reply, l: Launch) {
    reply.result == Found && reply.detail.authority.Some? && AuthorityMatches(reply.detail.authority.value, l)
  }

  predicate Dangerous(s: Snapshot) {
    s.state == Some(EffectStarted) || s.state == Some(ReconcileRequired) || s.start.Some?
  }

  // ---- The routing table

  predicate LocallyBlocked(state: J.JobState) { state in {J.Closed, J.Failed, J.StateConflict} }

  function NextState(job: J.JobState, remote: Option<Status>, dangerous: bool): J.JobState {
    match remote {
      case Some(Closed) => J.Closed
      case Some(Failed) | Some(Expired) => if job == J.Closed || job == J.StateConflict then J.StateConflict else J.Failed
      case _ =>
        if dangerous then J.ReconcileRequired
        else if remote == Some(Active) then (if job == J.Pending then J.Pending else if job == J.Processing then J.RetryReady else job)
        else if LocallyBlocked(job) then J.StateConflict
        else if job == J.Processing || job == J.RetryReady then J.RetryReady
        else J.HandoffReady
    }
  }

  predicate BrokerEligible(state: J.JobState) { state in {J.HandoffReady, J.RetryReady, J.ReconcileRequired} }

  function RoutedPatch(l: Launch, s: Snapshot, next: J.JobState): J.Patch {
    J.Patch(Some(next), Some(s.state), Some(s.claim), Some(s.claimVersion), Some(s.start), Some(s.classification),
            Some(if BrokerEligible(next) then Some(l.handoff) else None), Some(None))
  }

  function ConflictPatch(state: Option<Status>): J.Patch {
    J.NO_CHANGE.(state := Some(J.StateConflict), remote := Some(state))
  }

  function Decide(c: Coord, s: Snapshot, dangerous: bool): Coord {
    var job := c.launch.job.state;
    var next := NextState(job, s.state, dangerous);
    var closedVerified := s.state == Some(Closed) && s.classification == Some(VerifiedAbsent);
    c.(pc := Updating(RoutedPatch(c.launch, s, next), next == J.StateConflict || job == J.StateConflict,
                      if closedVerified then Retire else Return))
  }

  function Judge(c: Coord, raw: Raw): Coord {
    if raw.Garbled? then c.(pc := Finished(false))
    else if !ReplyMatches(raw.reply, c.launch) then c.(pc := Updating(ConflictPatch(raw.reply.state), true, Refuse))
    else
      var s := SnapshotOf(raw.reply);
      var dangerous := Dangerous(s);
      if s.state.None?
         || (s.state == Some(EffectClaimed) && (s.claim.None? || s.claimVersion.None?))
         || (dangerous && (s.claim.None? || s.start.None?))
      then c.(pc := Updating(ConflictPatch(s.state), true, Refuse))
      else if s.state == Some(Active) && !LocallyBlocked(c.launch.job.state) then c.(pc := Reserving(dangerous))
      else Decide(c, s, dangerous)
  }

  // ---- The machine

  function ReadIncident(l: Launch): CoordCall { Ask(C1.Call(l.operator, l.job.frozen.incident, C1.Get)) }

  function CallOf(c: Coord): CoordCall
    requires !c.pc.Finished?
  {
    var l := c.launch;
    var incident := l.job.frozen.incident;
    match c.pc {
      case Reading | ReadingCreated(_) | Rescuing | Rereading(_) | Rechecking => ReadIncident(l)
      case Creating => Ask(C1.Call(l.operator, incident, Create(l.job.frozen.request)))
      case Reserving(_) => Ask(C1.Call(l.remediation, incident, Reserve))
      case Updating(patch, allow, _) => UpdateJob(incident, patch, allow)
      case Retiring => RetirePolicy(l.job.frozen.policy, incident)
    }
  }

  predicate FoundReply(r: CoordReply) { r.Answer? && r.raw.Object? && r.raw.reply.result == Found }

  function Step(c: Coord, r: CoordReply): (c': Coord)
    requires !c.pc.Finished?
    ensures c'.launch == c.launch
  {
    match c.pc {
      case Reading =>
        if FoundReply(r) then Judge(c, r.raw)
        else if r.Answer? && r.raw.Object? && IsAbsent(r.raw.reply) then c.(pc := Creating)
        else c.(pc := Rescuing)
      case Creating =>
        if !r.Answer? || r.raw.Garbled? then c.(pc := Rescuing)
        else c.(pc := ReadingCreated(r.raw.reply.result != Won && r.raw.reply.result != Found))
      case ReadingCreated(mustBeFound) =>
        if FoundReply(r) then Judge(c, r.raw)
        else if mustBeFound || !r.Answer? then c.(pc := Rescuing)
        else Judge(c, r.raw)
      case Rescuing => if FoundReply(r) then Judge(c, r.raw) else c.(pc := Finished(false))
      case Reserving(dangerous) =>
        if !r.Answer? || r.raw.Garbled? then c.(pc := Finished(false))
        else if r.raw.reply.result != Won && r.raw.reply.state != Some(Reserved) then c.(pc := Rereading(dangerous))
        else Decide(c, SnapshotOf(r.raw.reply), dangerous)
      case Rereading(dangerous) =>
        if !r.Answer? || r.raw.Garbled? then c.(pc := Finished(false)) else Decide(c, SnapshotOf(r.raw.reply), dangerous)
      case Updating(_, _, next) =>
        if !r.Stored? then c.(pc := Finished(false))
        else match next {
          case Refuse => c.(pc := Finished(false))
          case Return => c.(pc := Finished(true))
          case Retire => c.(pc := Rechecking)
        }
      case Rechecking =>
        if FoundReply(r) && SnapshotOf(r.raw.reply).state == Some(Closed) && SnapshotOf(r.raw.reply).classification == Some(VerifiedAbsent)
        then c.(pc := Retiring) else c.(pc := Finished(false))
      case Retiring => c.(pc := Finished(r.Retired?))
    }
  }
}
