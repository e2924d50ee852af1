/** What a coordinator pass must hear before each of its calls, and what it then writes: the
    routing table over exchanges, with every branch spelled out. */
module CoordinatorConversation {
  import opened Domain
  import opened C1 = C1Contract
  import opened BrokerLogic
  import opened Coordinator
  import opened CoordinatorTrace
  import J = JobStore

  function Prior(h: History): History
    requires h != []
  {
    h[..|h| - 1]
  }

  predicate EndsWith(h: History, call: CoordCall) { h != [] && h[|h| - 1].call == call }

  function Heard(h: History): CoordReply
    requires h != []
  {
    h[|h| - 1].reply
  }

  function GetCall(l: Launch): CoordCall { Ask(C1.Call(l.operator, l.job.frozen.incident, Get)) }
  function CreateCall(l: Launch): CoordCall { Ask(C1.Call(l.operator, l.job.frozen.incident, Create(l.job.frozen.request))) }
  function ReserveCall(l: Launch): CoordCall { Ask(C1.Call(l.remediation, l.job.frozen.incident, Reserve)) }

  // ---- Up to a reading

  predicate Answers(r: CoordReply) { r.Answer? && r.raw.Object? }

  predicate Finds(r: CoordReply) { Answers(r) && r.raw.reply.result == Found }

  predicate SaysAbsent(r: CoordReply) { Answers(r) && r.raw.reply.result == Denied && r.raw.reply.state.None? && r.raw.reply.absent }

  predicate IsAbsentYet(l: Launch, h: History) { |h| == 1 && EndsWith(h, GetCall(l)) && SaysAbsent(Heard(h)) }

  predicate HasCreated(l: Launch, h: History) { EndsWith(h, CreateCall(l)) && Answers(Heard(h)) && IsAbsentYet(l, Prior(h)) }

  /** The creation was confirmed. */
  predicate Created(h: History)
    requires h != [] && Answers(Heard(h))
  {
    Heard(h).raw.reply.result == Won || Heard(h).raw.reply.result == Found
  }

  /** The read, the creation or the read after it went wrong. */
  predicate HasLost(l: Launch, h: History) {
    || (|h| == 1 && EndsWith(h, GetCall(l)) && !Finds(Heard(h)) && !SaysAbsent(Heard(h)))
    || (EndsWith(h, CreateCall(l)) && !Answers(Heard(h)) && IsAbsentYet(l, Prior(h)))
    || (EndsWith(h, GetCall(l)) && HasCreated(l, Prior(h))
        && if Created(Prior(h)) then !Heard(h).Answer? else !Finds(Heard(h)))
  }

  /** The pass has C1's reply on its incident: read at once, read after the creation, or read
      once more after something was lost. */
  predicate HasReading(l: Launch, h: History) {
    && EndsWith(h, GetCall(l)) && Answers(Heard(h))
    && (|h| == 1 || HasLost(l, Prior(h)) ==> Finds(Heard(h)))
    && (|h| == 1 || HasLost(l, Prior(h)) || (HasCreated(l, Prior(h)) && (Created(Prior(h)) || Finds(Heard(h)))))
  }

  function Told(h: History): Reply
    requires h != [] && Answers(Heard(h))
  {
    Heard(h).raw.reply
  }

  /** C1 holds exactly the request the job froze, against the configured repository. */
  predicate IsFrozen(l: Launch, r: Reply) {
    && r.result == Found && r.detail.authority.Some?
    && var a := r.detail.authority.value;
       && a.request.incident == l.job.frozen.incident && a.request.keyId == l.job.frozen.request.keyId
       && a.request.remediation == l.job.frozen.request.remediation && a.request.broker == l.job.frozen.request.broker
       && a.owner == l.owner && a.repo == l.repo
  }

  predicate ShowsEffect(r: Reply)
    requires r.detail.authority.Some?
  {
    r.state == Some(EffectStarted) || r.state == Some(ReconcileRequired) || r.detail.authority.value.start.Some?
  }

  /** Contradictory: another request, no state, or a state without the identity it needs. */
  predicate Contradicts(l: Launch, r: Reply) {
    !IsFrozen(l, r) ||
    var a := r.detail.authority.value;
    || r.state.None?
    || (r.state == Some(EffectClaimed) && (a.claim.None? || a.claimVersion > 9007199254740991))
    || (ShowsEffect(r) && (a.claim.None? || a.start.None?))
  }

  predicate Blocked(job: J.Job) { job.state == J.Closed || job.state == J.Failed || job.state == J.StateConflict }

  /** The incident is ACTIVE and the job still open: it is to be reserved. */
  predicate MayReserve(l: Launch, h: History) {
    HasReading(l, h) && !Contradicts(l, Told(h)) && Told(h).state == Some(Active) && !Blocked(l.job)
  }

  predicate HasReserved(l: Launch, h: History) { EndsWith(h, ReserveCall(l)) && Answers(Heard(h)) && MayReserve(l, Prior(h)) }

  predicate IsReserved(r: Reply) { r.result == Won || r.state == Some(Reserved) }

  predicate HasReread(l: Launch, h: History) {
    EndsWith(h, GetCall(l)) && Answers(Heard(h)) && HasReserved(l, Prior(h)) && !IsReserved(Told(Prior(h)))
  }

  /** The last reply, and whether the reading the pass rests on showed an effect start. */
  datatype Basis = Basis(reply: Reply, effect: bool)

  predicate RoutesOn(l: Launch, h: History, b: Basis) {
    && h != [] && Answers(Heard(h)) && b.reply == Told(h)
    && ( || (HasReading(l, h) && !Contradicts(l, Told(h)) && (Told(h).state == Some(Active) ==> Blocked(l.job)) && b.effect == ShowsEffect(Told(h)))
         || (HasReserved(l, h) && IsReserved(Told(h)) && b.effect == ShowsEffect(Told(Prior(h))))
         || (HasReread(l, h) && b.effect == ShowsEffect(Told(Prior(Prior(h))))))
  }

  // ---- What is written

  /** The state a job in state `local` is asked to take. */
  predicate Routed(local: J.JobState, remote: Option<Status>, effect: bool, next: J.JobState) {
    match remote {
      case Some(Closed) => next == J.Closed
      case Some(Failed) | Some(Expired) => next == if local == J.Closed || local == J.StateConflict then J.StateConflict else J.Failed
      case _ =>
        && (effect ==> next == J.ReconcileRequired)
        && (!effect && remote == Some(Active) ==>
              && (local == J.Pending ==> next == J.Pending)
              && (local == J.Processing ==> next == J.RetryReady)
              && (local != J.Pending && local != J.Processing ==> next == local))
        && (!effect && remote != Some(Active) ==>
              && (local in {J.Closed, J.Failed, J.StateConflict} ==> next == J.StateConflict)
              && (local in {J.Processing, J.RetryReady} ==> next == J.RetryReady)
              && (local in {J.Pending, J.HandoffReady, J.ReconcileRequired} ==> next == J.HandoffReady))
    }
  }

  function SafeOrNone(version: int): Option<int> {
    if -9007199254740991 <= version <= 9007199254740991 then Some(version) else None
  }

  /** The remote fields are those of the reply: of the whole record where it carries one. */
  predicate CopiesReply(patch: J.Patch, r: Reply) {
    && patch.remote == Some(r.state)
    && match r.detail.authority {
         case Some(a) =>
           && patch.claim == Some(a.claim) && patch.claimVersion == Some(SafeOrNone(a.claimVersion))
           && patch.start == Some(a.start) && patch.classification == Some(a.final)
         case None =>
           && patch.claim == Some(r.detail.claim) && patch.start == Some(r.detail.start) && patch.classification == Some(None)
           && patch.claimVersion == Some(if r.detail.claimVersion.Some? then SafeOrNone(r.detail.claimVersion.value) else None)
       }
  }

  /** The one write of a pass that found no contradiction. */
  predicate RoutedWrite(l: Launch, b: Basis, call: CoordCall) {
    && call.UpdateJob? && call.incident == l.job.frozen.incident
    && call.patch.state.Some? && Routed(l.job.state, b.reply.state, b.effect, call.patch.state.value)
    && CopiesReply(call.patch, b.reply)
    && call.patch.handoff == Some(if call.patch.state.value in {J.HandoffReady, J.RetryReady, J.ReconcileRequired} then Some(l.handoff) else None)
    && call.patch.consumed == Some(None)
    && (call.allowConflict <==> call.patch.state.value == J.StateConflict || l.job.state == J.StateConflict)
  }

  /** And of one that did. */
  function ConflictWrite(l: Launch, state: Option<Status>): CoordCall {
    UpdateJob(l.job.frozen.incident, J.Patch(Some(J.StateConflict), Some(state), None, None, None, None, None, None), true)
  }

  // ---- Where a pass comes from

  predicate Follows(before: Pc, pc: Pc) {
    pc.Finished? ||
    match before {
      case Reading => pc.Creating? || pc.Rescuing? || pc.Reserving? || pc.Updating?
      case Creating => pc.ReadingCreated? || pc.Rescuing?
      case ReadingCreated(_) => pc.Rescuing? || pc.Reserving? || pc.Updating?
      case Rescuing => pc.Reserving? || pc.Updating?
      case Reserving(_) => pc.Rereading? || pc.Updating?
      case Rereading(_) => pc.Updating?
      case Updating(_, _, _) => pc.Rechecking?
      case Rechecking => pc.Retiring?
      case Retiring => false
      case Finished(_) => false
    }
  }

  lemma LastStep(l: Launch, h: History)
    requires IsHistory(l, h) && h != []
    ensures IsHistory(l, Prior(h)) && !At(l, Prior(h)).pc.Finished?
    ensures h[|h| - 1].call == CallOf(At(l, Prior(h))) && At(l, h) == Step(At(l, Prior(h)), Heard(h))
    ensures Follows(At(l, Prior(h)).pc, At(l, h).pc)
  {
    hide ReplyMatches, SnapshotOf, Dangerous, NextState, RoutedPatch, ConflictPatch, IsAbsent;
  }

  lemma AtReading(l: Launch, h: History)
    requires IsHistory(l, h)
    ensures At(l, h).pc.Reading? <==> h == []
    ensures h == [] ==> At(l, h) == Launched(l)
  {
    hide Step, CallOf, IsHistory;
    if h != [] {
      LastStep(l, h);
    }
  }

  lemma AtCreating(l: Launch, h: History)
    requires IsHistory(l, h)
    ensures At(l, h).pc.Creating? <==> IsAbsentYet(l, h)
  {
    hide IsHistory, At, Judge;
    if h != [] {
      LastStep(l, h);
      AtReading(l, Prior(h));
      JudgeDoesNotCreate(At(l, Prior(h)), Heard(h));
    } else {
      AtReading(l, h);
    }
  }

  lemma JudgeDoesNotCreate(c: Coord, r: CoordReply)
    ensures r.Answer? ==> var pc := Judge(c, r.raw).pc; pc.Finished? || pc.Updating? || pc.Reserving?
  {
    hide ReplyMatches, SnapshotOf, Dangerous, NextState, RoutedPatch, ConflictPatch;
  }

  lemma AtReadingCreated(l: Launch, h: History)
    requires IsHistory(l, h)
    ensures At(l, h).pc.ReadingCreated? <==> HasCreated(l, h)
    ensures HasCreated(l, h) ==> At(l, h).pc == ReadingCreated(!Created(h))
  {
    hide IsHistory, At, Judge;
    if h != [] {
      LastStep(l, h);
      AtCreating(l, Prior(h));
    } else {
      AtReading(l, h);
    }
  }

  lemma AtRescuing(l: Launch, h: History)
    requires IsHistory(l, h)
    ensures At(l, h).pc.Rescuing? <==> HasLost(l, h)
  {
    hide IsHistory, At, Judge;
    if h != [] {
      LastStep(l, h);
      AtReading(l, Prior(h));
      AtCreating(l, Prior(h));
      AtReadingCreated(l, Prior(h));
      JudgeDoesNotCreate(At(l, Prior(h)), Heard(h));
    } else {
      AtReading(l, h);
    }
  }

  /** A reading is judged, and nothing else is. */
  lemma ReadingIsJudged(l: Launch, h: History)
    requires IsHistory(l, h) && HasReading(l, h)
    ensures At(l, h) == Judge(Launched(l), Heard(h).raw)
  {
    hide IsHistory, At, Judge;
    LastStep(l, h);
    AtReading(l, Prior(h));
    AtReadingCreated(l, Prior(h));
    AtRescuing(l, Prior(h));
    JudgeForgets(At(l, Prior(h)), Heard(h).raw);
  }

  lemma JudgeForgets(c: Coord, raw: Raw)
    ensures Judge(c, raw) == Judge(Launched(c.launch), raw)
  {
  }

  lemma JudgedIsReading(l: Launch, h: History)
    requires IsHistory(l, h) && h != [] && (At(l, h).pc.Reserving? || At(l, h).pc.Updating?)
    requires var pc := At(l, Prior(h)).pc; pc.Reading? || pc.ReadingCreated? || pc.Rescuing?
    ensures HasReading(l, h)
  {
    hide IsHistory, At, Judge;
    LastStep(l, h);
    AtReading(l, Prior(h));
    AtReadingCreated(l, Prior(h));
    AtRescuing(l, Prior(h));
    GarbledIsRefused(At(l, Prior(h)), Heard(h));
  }

  lemma GarbledIsRefused(c: Coord, r: CoordReply)
    ensures r.Answer? && r.raw.Garbled? ==> Judge(c, r.raw).pc.Finished?
  {
  }

  /** What judging makes of a reply. */
  lemma JudgedIs(l: Launch, r: Reply)
    ensures
      var c := Judge(Launched(l), Object(r));
      if Contradicts(l, r) then c.pc == Updating(ConflictPatch(r.state), true, Refuse)
      else if r.state == Some(Active) && !Blocked(l.job) then c.pc == Reserving(ShowsEffect(r))
      else c == Decide(Launched(l), SnapshotOf(r), ShowsEffect(r))
  {
    hide Decide;
  }

  lemma DecidesForget(c: Coord, s: Snapshot, effect: bool)
    ensures Decide(c, s, effect) == Decide(Launched(c.launch), s, effect) && Decide(c, s, effect).pc.Updating?
  {
  }

  lemma DecisionsUpdate(c: Coord)
    ensures forall s: Snapshot, effect: bool :: Decide(c, s, effect).pc.Updating?
  {
  }

  lemma AtReserving(l: Launch, h: History)
    requires IsHistory(l, h)
    ensures At(l, h).pc.Reserving? <==> MayReserve(l, h)
    ensures MayReserve(l, h) ==> At(l, h).pc == Reserving(ShowsEffect(Told(h)))
  {
    hide IsHistory, At, Judge, Step, CallOf, Decide;
    if HasReading(l, h) {
      ReadingIsJudged(l, h);
      JudgedIs(l, Told(h));
      DecisionsUpdate(Launched(l));
    } else if h != [] {
      LastStep(l, h);
      if At(l, h).pc.Reserving? {
        JudgedIsReading(l, h);
      }
    } else {
      AtReading(l, h);
    }
  }

  lemma AtRereading(l: Launch, h: History)
    requires IsHistory(l, h)
    ensures At(l, h).pc.Rereading? <==> HasReserved(l, h) && !IsReserved(Told(h))
    ensures HasReserved(l, h) && !IsReserved(Told(h)) ==> At(l, h).pc == Rereading(ShowsEffect(Told(Prior(h))))
  {
    hide IsHistory, At, Judge, Decide, MayReserve, ShowsEffect;
    if h != [] {
      LastStep(l, h);
      AtReserving(l, Prior(h));
      if At(l, Prior(h)).pc.Reserving? && Heard(h).Answer? && Heard(h).raw.Object? {
        DecidesForget(At(l, Prior(h)), SnapshotOf(Told(h)), At(l, Prior(h)).pc.dangerous);
      }
    } else {
      AtReading(l, h);
    }
  }

  /** The pass stands before its write. */
  lemma AtUpdating(l: Launch, h: History)
    requires IsHistory(l, h)
    ensures At(l, h).pc.Updating? <==> (HasReading(l, h) && Contradicts(l, Told(h))) || exists b :: RoutesOn(l, h, b)
    ensures HasReading(l, h) && Contradicts(l, Told(h)) ==> At(l, h).pc == Updating(ConflictPatch(Told(h).state), true, Refuse)
    ensures forall b :: RoutesOn(l, h, b) ==> At(l, h) == Decide(Launched(l), SnapshotOf(b.reply), b.effect)
  {
    hide IsHistory, At, Judge, Step, CallOf, Decide, Contradicts;
    if h == [] {
      AtReading(l, h);
    } else {
      LastStep(l, h);
      DecisionsUpdate(Launched(l));
      if HasReading(l, h) {
        UpdatesOnReading(l, h);
      }
      UpdatesOnReservation(l, h);
      UpdatesOnReread(l, h);
      if At(l, h).pc.Updating? {
        var pc := At(l, Prior(h)).pc;
        if pc.Reading? || pc.ReadingCreated? || pc.Rescuing? {
          JudgedIsReading(l, h);
        }
      }
    }
  }

  lemma UpdatesOnReading(l: Launch, h: History)
    requires IsHistory(l, h) && HasReading(l, h)
    ensures
      var r := Told(h);
      && (Contradicts(l, r) ==> At(l, h).pc == Updating(ConflictPatch(r.state), true, Refuse))
      && (!Contradicts(l, r) && (r.state == Some(Active) ==> Blocked(l.job)) ==>
            At(l, h) == Decide(Launched(l), SnapshotOf(r), ShowsEffect(r)) && RoutesOn(l, h, Basis(r, ShowsEffect(r))))
      && (At(l, h).pc.Updating? ==> Contradicts(l, r) || (r.state == Some(Active) ==> Blocked(l.job)))
  {
    hide IsHistory, At, Judge, Step, CallOf, Decide, HasReserved, HasReread;
    ReadingIsJudged(l, h);
    JudgedIs(l, Told(h));
  }

  lemma UpdatesOnReservation(l: Launch, h: History)
    requires IsHistory(l, h) && h != []
    ensures At(l, Prior(h)).pc.Reserving? && At(l, h).pc.Updating? <==> HasReserved(l, h) && IsReserved(Told(h))
    ensures HasReserved(l, h) && IsReserved(Told(h)) ==>
              var b := Basis(Told(h), ShowsEffect(Told(Prior(h))));
              RoutesOn(l, h, b) && At(l, h) == Decide(Launched(l), SnapshotOf(b.reply), b.effect)
  {
    hide IsHistory, At, Judge, Decide, HasReading, Contradicts, HasReread;
    LastStep(l, h);
    AtReserving(l, Prior(h));
    if At(l, Prior(h)).pc.Reserving? && Heard(h).Answer? && Heard(h).raw.Object? {
      DecidesForget(At(l, Prior(h)), SnapshotOf(Told(h)), At(l, Prior(h)).pc.dangerous);
    }
  }

  lemma UpdatesOnReread(l: Launch, h: History)
    requires IsHistory(l, h) && h != []
    ensures At(l, Prior(h)).pc.Rereading? && At(l, h).pc.Updating? <==> HasReread(l, h)
    ensures HasReread(l, h) ==>
              var b := Basis(Told(h), ShowsEffect(Told(Prior(Prior(h)))));
              RoutesOn(l, h, b) && At(l, h) == Decide(Launched(l), SnapshotOf(b.reply), b.effect)
  {
    hide IsHistory, At, Judge, Decide, HasReading, Contradicts;
    LastStep(l, h);
    AtRereading(l, Prior(h));
    if At(l, Prior(h)).pc.Rereading? && Heard(h).Answer? && Heard(h).raw.Object? {
      DecidesForget(At(l, Prior(h)), SnapshotOf(Told(h)), At(l, Prior(h)).pc.dangerous);
    }
  }

  lemma DecisionIsRouted(l: Launch, b: Basis)
    ensures
      var pc := Decide(Launched(l), SnapshotOf(b.reply), b.effect).pc;
      pc.Updating? && RoutedWrite(l, b, UpdateJob(l.job.frozen.incident, pc.patch, pc.allowConflict))
  {
  }

  lemma TableIsRouted(local: J.JobState, remote: Option<Status>, effect: bool)
    ensures Routed(local, remote, effect, NextState(local, remote, effect))
  {
  }

  lemma OneRoutedWrite(l: Launch, b: Basis, call: CoordCall, other: CoordCall)
    requires RoutedWrite(l, b, call) && RoutedWrite(l, b, other)
    ensures call == other
  {
    assert call.patch == other.patch;
  }

  // ---- The promises

  /** When a pass creates the incident: exactly when all it heard is that there is none. */
  lemma CreatesExactly(l: Launch, h: History)
    requires IsHistory(l, h)
    ensures !At(l, h).pc.Finished? && CallOf(At(l, h)) == CreateCall(l) <==> IsAbsentYet(l, h)
  {
    hide IsHistory, At;
    AtCreating(l, h);
  }

  /** When it reserves. */
  lemma ReservesExactly(l: Launch, h: History)
    requires IsHistory(l, h)
    ensures !At(l, h).pc.Finished? && CallOf(At(l, h)) == ReserveCall(l) <==> MayReserve(l, h)
  {
    hide IsHistory, At, MayReserve;
    AtReserving(l, h);
  }

  /** What a pass writes, and when: a conflict on a reading that contradicts the job, and
      otherwise the row of the routing table for the remote state it last heard, the effect its
      reading showed and the local state, with a fresh handoff exactly for the three states the
      broker acts on. */
  lemma WritesExactly(l: Launch, h: History, call: CoordCall)
    requires IsHistory(l, h) && call.UpdateJob?
    ensures !At(l, h).pc.Finished? && CallOf(At(l, h)) == call <==>
            || (HasReading(l, h) && Contradicts(l, Told(h)) && call == ConflictWrite(l, Told(h).state))
            || exists b :: RoutesOn(l, h, b) && RoutedWrite(l, b, call)
  {
    hide IsHistory, At, HasReading, Contradicts, RoutesOn, RoutedWrite, Decide;
    AtUpdating(l, h);
    var c := At(l, h);
    if b :| RoutesOn(l, h, b) && RoutedWrite(l, b, call) {
      DecisionIsRouted(l, b);
      OneRoutedWrite(l, b, call, UpdateJob(l.job.frozen.incident, c.pc.patch, c.pc.allowConflict));
    }
    if !c.pc.Finished? && CallOf(c) == call {
      UpdatingCalls(c, call);
      if b :| RoutesOn(l, h, b) {
        DecisionIsRouted(l, b);
      } else {
        ReadingAnswers(l, h);
      }
    }
  }

  lemma UpdatingCalls(c: Coord, call: CoordCall)
    requires !c.pc.Finished? && CallOf(c) == call && call.UpdateJob?
    ensures c.pc.Updating? && call == UpdateJob(c.launch.job.frozen.incident, c.pc.patch, c.pc.allowConflict)
  {
  }

  lemma ReadingAnswers(l: Launch, h: History)
    requires HasReading(l, h)
    ensures h != [] && Answers(Heard(h))
  {
  }

  /** A pass whose last reply showed CLOSED, FAILED or EXPIRED issues no handoff. */
  lemma EndedIncidentsGetNoHandoff(l: Launch, h: History, call: CoordCall)
    requires IsHistory(l, h) && !At(l, h).pc.Finished? && CallOf(At(l, h)) == call && call.UpdateJob?
    ensures h != [] && Answers(Heard(h))
    ensures call.patch.handoff.Some? && call.patch.handoff.value.Some? ==> Told(h).state !in {Some(Closed), Some(Failed), Some(Expired)}
  {
    hide IsHistory, At, HasReading, Contradicts, CopiesReply;
    WritesExactly(l, h, call);
    if HasReading(l, h) {
      ReadingAnswers(l, h);
    }
  }

  /** An effect start that shows only in the reread after a lost reservation is not taken for one:
      an open job is handed to the broker, with EFFECT_STARTED as its remote state. */
  lemma LateEffectIsHandedOn(l: Launch, h: History)
    requires IsHistory(l, h) && HasReread(l, h) && Told(h).state == Some(EffectStarted)
    requires !ShowsEffect(Told(Prior(Prior(h))))
    ensures !At(l, h).pc.Finished? && CallOf(At(l, h)).UpdateJob?
    ensures
      var patch := CallOf(At(l, h)).patch;
      && patch.state == Some(if l.job.state in {J.Processing, J.RetryReady} then J.RetryReady else J.HandoffReady)
      && patch.remote == Some(Some(EffectStarted)) && patch.handoff == Some(Some(l.handoff))
  {
    hide IsHistory, At, HasReading, Contradicts, CopiesReply, Decide;
    OpenJobsReserve(l, h);
    var b := Basis(Told(h), false);
    assert RoutesOn(l, h, b);
    AtUpdating(l, h);
    DecisionIsRouted(l, b);
    RoutedCopies(l, b, CallOf(At(l, h)));
  }

  lemma OpenJobsReserve(l: Launch, h: History)
    requires HasReread(l, h)
    ensures !Blocked(l.job)
  {
  }

  lemma RoutedCopies(l: Launch, b: Basis, call: CoordCall)
    requires RoutedWrite(l, b, call)
    ensures call.patch.remote == Some(b.reply.state)
  {
  }

  /** C1's record is CLOSED as VERIFIED_ABSENT. */
  predicate ShowsGone(r: Reply) {
    r.state == Some(Closed) && r.detail.authority.Some? && r.detail.authority.value.final == Some(VerifiedAbsent)
  }

  /** The write was stored, on a reply that showed the key gone. */
  ghost predicate HasClosed(l: Launch, h: History) {
    && h != [] && h[|h| - 1].call.UpdateJob? && Heard(h).Stored?
    && exists b :: RoutesOn(l, Prior(h), b) && ShowsGone(b.reply)
  }

  lemma AtRechecking(l: Launch, h: History)
    requires IsHistory(l, h)
    ensures At(l, h).pc.Rechecking? <==> HasClosed(l, h)
  {
    hide IsHistory, At, Judge, RoutesOn, HasReading, Contradicts, NextState, RoutedPatch;
    if h == [] {
      AtReading(l, h);
    } else {
      LastStep(l, h);
      AtUpdating(l, Prior(h));
      if h[|h| - 1].call.UpdateJob? {
        UpdatingCalls(At(l, Prior(h)), h[|h| - 1].call);
      }
    }
  }

  lemma AtRetiring(l: Launch, h: History)
    requires IsHistory(l, h)
    ensures At(l, h).pc.Retiring? <==> EndsWith(h, GetCall(l)) && Finds(Heard(h)) && ShowsGone(Told(h)) && HasClosed(l, Prior(h))
  {
    hide IsHistory, At, Judge, HasClosed;
    if h == [] {
      AtReading(l, h);
    } else {
      LastStep(l, h);
      AtRechecking(l, Prior(h));
    }
  }

  /** When the policy is retired: exactly after the write stored on CLOSED / VERIFIED_ABSENT and
      one more read that finds it so. */
  lemma RetiresExactly(l: Launch, h: History)
    requires IsHistory(l, h)
    ensures !At(l, h).pc.Finished? && CallOf(At(l, h)).RetirePolicy? <==>
            EndsWith(h, GetCall(l)) && Finds(Heard(h)) && ShowsGone(Told(h)) && HasClosed(l, Prior(h))
    ensures !At(l, h).pc.Finished? && CallOf(At(l, h)).RetirePolicy? ==>
              CallOf(At(l, h)) == RetirePolicy(l.job.frozen.policy, l.job.frozen.incident)
  {
    hide IsHistory, At, HasClosed;
    AtRetiring(l, h);
  }

  /** When a pass succeeds: its routed write is stored and, where the key is gone, the policy is
      retired as well. */
  lemma SucceedsExactly(l: Launch, h: History)
    requires IsHistory(l, h)
    ensures At(l, h).pc == Finished(true) <==>
            && h != []
            && ( || (h[|h| - 1].call.UpdateJob? && Heard(h).Stored? && exists b :: RoutesOn(l, Prior(h), b) && !ShowsGone(b.reply))
                 || (h[|h| - 1].call.RetirePolicy? && Heard(h).Retired?))
  {
    hide IsHistory, At, RoutesOn, HasReading, Contradicts, NextState, RoutedPatch, ReplyMatches, SnapshotOf, Dangerous;
    if h == [] {
      AtReading(l, h);
    } else {
      LastStep(l, h);
      AtUpdating(l, Prior(h));
      SnapshotShowsGone(l);
    }
  }

  lemma SnapshotShowsGone(l: Launch)
    ensures forall r: Reply :: (SnapshotOf(r).state == Some(Closed) && SnapshotOf(r).classification == Some(VerifiedAbsent)) <==> ShowsGone(r)
  {
  }

  // ---- Every write of a history

  ghost predicate IsDue(l: Launch, h: History, call: CoordCall) {
    || (HasReading(l, h) && Contradicts(l, Told(h)) && call == ConflictWrite(l, Told(h).state))
    || exists b :: RoutesOn(l, h, b) && RoutedWrite(l, b, call)
  }

  ghost predicate WritesAreDue(l: Launch, h: History) {
    forall n {:trigger h[n]} | 0 <= n < |h| && h[n].call.UpdateJob? :: IsDue(l, h[..n], h[n].call)
  }

  lemma EveryWriteIsDue(l: Launch, h: History)
    requires IsHistory(l, h)
    ensures WritesAreDue(l, h)
  {
    hide IsHistory, At, CallOf, HasReading, Contradicts, RoutesOn, RoutedWrite;
    forall n {:trigger h[n]} | 0 <= n < |h| && h[n].call.UpdateJob? ensures IsDue(l, h[..n], h[n].call) {
      PrefixIsHistory(l, h, n);
      WritesExactly(l, h[..n], h[n].call);
    }
  }
}
