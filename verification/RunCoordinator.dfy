/** `ensureIncidentAndReservation` and `retireClosedPolicy` of winner/runtime/coordinator.ts
    as the program they are, with `remote` and `snapshot` reassigned on the way; every call is
    proved to be the one the machine in Coordinator makes. */
module RunCoordinator {
  import opened Domain
  import opened C1 = C1Contract
  import opened BrokerLogic
  import opened Coordinator
  import J = JobStore
  import T = CoordinatorTrace
  import V = CoordinatorConversation

  /** Every reply is the world's. */
  predicate AnsweredBy(log: seq<Exchange>, answer: (seq<Exchange>, CoordCall) -> CoordReply) {
    forall i | 0 <= i < |log| :: log[i].reply == answer(log[..i], log[i].call)
  }

  lemma AnswersOneMore(log: seq<Exchange>, answer: (seq<Exchange>, CoordCall) -> CoordReply, x: Exchange)
    requires AnsweredBy(log, answer) && x.reply == answer(log, x.call)
    ensures AnsweredBy(log + [x], answer)
  {
    var later := log + [x];
    assert later[..|log|] == log;
    assert forall i | 0 <= i < |log| :: later[..i] == log[..i];
  }

  class CoordinatorPass {
    const launch: Launch
    const answer: (seq<Exchange>, CoordCall) -> CoordReply
    var log: seq<Exchange>
    ghost var at: Coord

    constructor (launch: Launch, answer: (seq<Exchange>, CoordCall) -> CoordReply)
      ensures this.launch == launch && this.answer == answer && log == [] && Following() && at == Launched(launch)
    {
      this.launch := launch;
      this.answer := answer;
      log := [];
      at := Launched(launch);
    }

    ghost predicate Following()
      reads `log, `at
    {
      && AnsweredBy(log, answer)
      && at.launch == launch && T.IsHistory(launch, log) && at == T.At(launch, log)
    }

    method Call(call: CoordCall) returns (reply: CoordReply)
      requires Following() && !at.pc.Finished? && CallOf(at) == call
      modifies this`log, this`at
      ensures Following() && at == Step(old(at), reply)
      ensures log == old(log) + [Exchange(call, reply)]
    {
      hide Step, CallOf, T.IsHistory, T.At, AnsweredBy;
      reply := answer(log, call);
      T.OneMore(launch, log, Exchange(call, reply));
      AnswersOneMore(log, answer, Exchange(call, reply));
      log := log + [Exchange(call, reply)];
      at := Step(at, reply);
    }

    /** The incident as read, judged by the machine. */
    ghost predicate Judged(remote: Raw)
      reads `at
    {
      at == Judge(Launched(launch), remote)
    }

    /** The first try block: None when something threw. */
    method ReadOrCreate() returns (remote: Option<Raw>)
      requires Following() && at == Launched(launch)
      modifies this`log, this`at
      ensures Following() && if remote.Some? then Judged(remote.value) else at == Launched(launch).(pc := Rescuing)
    {
      hide T.IsHistory, T.At, Judge;
      var first := Call(ReadIncident(launch));
      if FoundReply(first) {
        JudgeIgnoresPc(Launched(launch), first.raw);
        return Some(first.raw);
      }
      if !(first.Answer? && first.raw.Object? && IsAbsent(first.raw.reply)) {
        return None;
      }
      var created := Call(Ask(C1.Call(launch.operator, launch.job.frozen.incident, Create(launch.job.frozen.request))));
      if !created.Answer? || created.raw.Garbled? {
        return None;
      }
      var confirmed := created.raw.reply.result == Won || created.raw.reply.result == Found;
      var second := Call(ReadIncident(launch));
      if !second.Answer? || (!confirmed && !FoundReply(second)) {
        return None;
      }
      JudgeIgnoresPc(Coord(launch, ReadingCreated(!confirmed)), second.raw);
      return Some(second.raw);
    }

    /** The catch block: a create that failed in transport is ambiguous, only a read decides. */
    method ReadAgain() returns (remote: Option<Raw>)
      requires Following() && at == Launched(launch).(pc := Rescuing)
      modifies this`log, this`at
      ensures Following() && if remote.Some? then Judged(remote.value) else at.pc == Finished(false)
    {
      hide T.IsHistory, T.At, Judge;
      var again := Call(ReadIncident(launch));
      if !FoundReply(again) {
        return None;
      }
      JudgeIgnoresPc(Launched(launch).(pc := Rescuing), again.raw);
      return Some(again.raw);
    }

    /** A write that ends in a conflict, after which the source throws. */
    method MarkConflict(state: Option<Status>)
      requires Following() && at == Launched(launch).(pc := Updating(ConflictPatch(state), true, Refuse))
      modifies this`log, this`at
      ensures Following() && at.pc == Finished(false)
    {
      hide T.IsHistory, T.At;
      var stored := Call(UpdateJob(launch.job.frozen.incident, ConflictPatch(state), true));
    }

    /** Local knowledge of an end never turns into a reservation. */
    method Reserve(s: Snapshot) returns (snapshot: Option<Snapshot>)
      requires Following() && at == Launched(launch).(pc := Reserving(Dangerous(s)))
      modifies this`log, this`at
      ensures Following()
      ensures if snapshot.Some? then at == Decide(Launched(launch), snapshot.value, Dangerous(s)) else at.pc == Finished(false)
    {
      hide T.IsHistory, T.At, Judge, NextState;
      var reserved := Call(Ask(C1.Call(launch.remediation, launch.job.frozen.incident, C1.Reserve)));
      if !reserved.Answer? || reserved.raw.Garbled? {
        return None;
      }
      if reserved.raw.reply.result == Won || reserved.raw.reply.state == Some(Reserved) {
        return Some(SnapshotOf(reserved.raw.reply));
      }
      var remote := Call(ReadIncident(launch));
      if !remote.Answer? || remote.raw.Garbled? {
        return None;
      }
      return Some(SnapshotOf(remote.raw.reply));
    }

    method RetireClosedPolicy() returns (ok: bool)
      requires Following() && at == Launched(launch).(pc := Rechecking)
      modifies this`log, this`at
      ensures Following() && at.pc == Finished(ok)
      ensures old(log) <= log
    {
      hide T.IsHistory, T.At;
      var remote := Call(ReadIncident(launch));
      if !FoundReply(remote) {
        return false;
      }
      var snapshot := SnapshotOf(remote.raw.reply);
      if snapshot.state != Some(Closed) || snapshot.classification != Some(VerifiedAbsent) {
        return false;
      }
      var retired := Call(RetirePolicy(launch.job.frozen.policy, launch.job.frozen.incident));
      return retired.Retired?;
    }

    /** The write is the table's row for this snapshot, with a handoff exactly for the states the
        broker acts on. */
    predicate Routes(call: CoordCall, snapshot: Snapshot, dangerous: bool) {
      && call.UpdateJob? && call.incident == launch.job.frozen.incident
      && call.patch.state.Some? && V.Routed(launch.job.state, snapshot.state, dangerous, call.patch.state.value)
      && call.patch.remote == Some(snapshot.state) && call.patch.claim == Some(snapshot.claim)
      && call.patch.claimVersion == Some(snapshot.claimVersion) && call.patch.start == Some(snapshot.start)
      && call.patch.classification == Some(snapshot.classification)
      && call.patch.handoff == Some(if call.patch.state.value in {J.HandoffReady, J.RetryReady, J.ReconcileRequired} then Some(launch.handoff) else None)
      && call.patch.consumed == Some(None)
    }

    /** The routing table and the one write of the pass. */
    method RouteJob(snapshot: Snapshot, dangerous: bool) returns (ok: bool)
      requires Following() && at == Decide(Launched(launch), snapshot, dangerous)
      modifies this`log, this`at
      ensures Following() && at.pc == Finished(ok)
      ensures old(log) < log && Routes(log[|old(log)|].call, snapshot, dangerous)
    {
      hide T.IsHistory, T.At, NextState;
      var closedVerified := snapshot.state == Some(Closed) && snapshot.classification == Some(VerifiedAbsent);
      var next := NextState(launch.job.state, snapshot.state, dangerous);
      V.TableIsRouted(launch.job.state, snapshot.state, dangerous);
      var patch := RoutedPatch(launch, snapshot, next);
      var stored := Call(UpdateJob(launch.job.frozen.incident, patch, next == J.StateConflict || launch.job.state == J.StateConflict));
      if !stored.Stored? {
        return false;
      }
      if !closedVerified {
        return true;
      }
      ok := RetireClosedPolicy();
    }

    method EnsureIncidentAndReservation() returns (ok: bool)
      requires Following() && at == Launched(launch)
      modifies this`log, this`at
      ensures Following() && at.pc == Finished(ok)
    {
      hide T.IsHistory, T.At, Step, CallOf, Decide, Following;
      var read := ReadOrCreate();
      if read.None? {
        read := ReadAgain();
        if read.None? {
          return false;
        }
      }
      var remote := read.value;
      if remote.Garbled? {
        return false;
      }
      if !ReplyMatches(remote.reply, launch) {
        MarkConflict(remote.reply.state);
        return false;
      }
      var snapshot := SnapshotOf(remote.reply);
      if snapshot.state.None? {
        MarkConflict(snapshot.state);
        return false;
      }
      var dangerous := Dangerous(snapshot);
      if (snapshot.state == Some(EffectClaimed) && (snapshot.claim.None? || snapshot.claimVersion.None?))
         || (dangerous && (snapshot.claim.None? || snapshot.start.None?))
      {
        MarkConflict(snapshot.state);
        return false;
      }
      if snapshot.state == Some(Active) && !LocallyBlocked(launch.job.state) {
        var reserved := Reserve(snapshot);
        if reserved.None? {
          return false;
        }
        snapshot := reserved.value;
      }
      ok := RouteJob(snapshot, dangerous);
    }
  }

  /** Judging starts from the reply alone. */
  lemma JudgeIgnoresPc(c: Coord, raw: Raw)
    ensures Judge(c, raw) == Judge(Launched(c.launch), raw)
  {
  }

  /** One pass over a job, whatever C1, the job store and the registry answer: its calls are a
      finished history of the machine, with at most one write of the job, and that one is due. */
  method EnsureIncidentAndReservation(launch: Launch, answer: (seq<Exchange>, CoordCall) -> CoordReply) returns (log: seq<Exchange>, ok: bool)
    ensures T.IsHistory(launch, log) && T.At(launch, log).pc == Finished(ok)
    ensures forall i, j | 0 <= i < |log| && 0 <= j < |log| :: log[i].call.UpdateJob? && log[j].call.UpdateJob? ==> i == j
    ensures AnsweredBy(log, answer) && V.WritesAreDue(launch, log)
  {
    hide T.IsHistory, T.At, V.WritesAreDue, CallOf, Step;
    var pass := new CoordinatorPass(launch, answer);
    ok := pass.EnsureIncidentAndReservation();
    log := pass.log;
    assert pass.Following() && pass.answer == answer && pass.launch == launch;
    V.EveryWriteIsDue(launch, log);
    forall i, j | 0 <= i < |log| && 0 <= j < |log| && log[i].call.UpdateJob? && log[j].call.UpdateJob? ensures i == j {
      T.WritesOnce(launch, log, i, j);
      T.WritesOnce(launch, log, j, i);
    }
  }
}
