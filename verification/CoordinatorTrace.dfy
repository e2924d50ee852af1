/** What every pass of the coordinator over a job does, whatever C1 and the job store answer. */
module CoordinatorTrace {
  import opened Domain
  import opened C1 = C1Contract
  import opened BrokerLogic
  import opened Coordinator
  import J = JobStore

  type History = seq<Exchange>

  function At(l: Launch, h: History): (c: Coord)
    ensures c.launch == l
    decreases |h|
  {
    if h == [] then Launched(l)
    else
      var c := At(l, h[..|h| - 1]);
      if c.pc.Finished? then c else Step(c, h[|h| - 1].reply)
  }

  ghost predicate IsHistory(l: Launch, h: History)
    decreases |h|
  {
    h == [] ||
    (&& IsHistory(l, h[..|h| - 1])
     && !At(l, h[..|h| - 1]).pc.Finished?
     && h[|h| - 1].call == CallOf(At(l, h[..|h| - 1])))
  }

  lemma {:induction false} PrefixIsHistory(l: Launch, h: History, n: nat)
    requires IsHistory(l, h) && n <= |h|
    ensures IsHistory(l, h[..n])
    ensures n < |h| ==> !At(l, h[..n]).pc.Finished? && h[n].call == CallOf(At(l, h[..n]))
    decreases |h|
  {
    hide Step, CallOf;
    if n == |h| {
      assert h[..n] == h;
    } else {
      assert h[..|h| - 1][..n] == h[..n];
      PrefixIsHistory(l, h[..|h| - 1], n);
    }
  }

  /** The call number `n` of a pass, answered or still under way. */
  ghost predicate Issues(l: Launch, h: History, n: nat, call: CoordCall) {
    n <= |h| && !At(l, h[..n]).pc.Finished? && CallOf(At(l, h[..n])) == call
  }

  /** One more exchange. */
  lemma OneMore(l: Launch, h: History, x: Exchange)
    requires IsHistory(l, h) && !At(l, h).pc.Finished? && x.call == CallOf(At(l, h))
    ensures IsHistory(l, h + [x]) && At(l, h + [x]) == Step(At(l, h), x.reply)
  {
    hide Step, CallOf;
    assert (h + [x])[..|h + [x]| - 1] == h;
  }

  // ---- Monitors

  predicate ReadsMatch(l: Launch, x: Exchange) {
    x.call == ReadIncident(l) && FoundReply(x.reply) && ReplyMatches(x.reply.raw.reply, l)
  }

  predicate ReadsClosed(l: Launch, x: Exchange) {
    && x.call == ReadIncident(l) && FoundReply(x.reply)
    && SnapshotOf(x.reply.raw.reply).state == Some(Closed)
    && SnapshotOf(x.reply.raw.reply).classification == Some(VerifiedAbsent)
  }

  predicate Updates(x: Exchange) { x.call.UpdateJob? }

  /** `matched`: some read of this pass matched the frozen request; `closed`: the latest
      exchange read CLOSED / VERIFIED_ABSENT; `wrote`: what it asked to write into the job. */
  datatype Watch = Watch(matched: bool, closed: bool, wrote: Option<J.Patch>)

  function Observe(l: Launch, w: Watch, x: Exchange): Watch {
    Watch(w.matched || ReadsMatch(l, x), ReadsClosed(l, x), if Updates(x) then Some(x.call.patch) else w.wrote)
  }

  function Watching(l: Launch, h: History): Watch {
    if h == [] then Watch(false, false, None)
    else Observe(l, Watching(l, h[..|h| - 1]), h[|h| - 1])
  }

  predicate PatchAuthorized(l: Launch, w: Watch, patch: J.Patch) {
    && patch.state.Some?
    && (patch.handoff.Some? ==> w.matched && patch.consumed == Some(None))
    && (patch.handoff.Some? && patch.handoff.value.Some? ==> patch.handoff.value.value == l.handoff)
    && (patch.handoff.None? ==> patch.consumed.None?)
  }

  predicate Agrees(c: Coord, w: Watch) {
    match c.pc {
      case Reading | Creating | ReadingCreated(_) | Rescuing => w.wrote.None?
      case Reserving(_) | Rereading(_) => w.wrote.None? && w.matched
      case Updating(patch, _, next) => w.wrote.None? && PatchAuthorized(c.launch, w, patch) && (next == Retire ==> w.matched)
      case Rechecking => w.matched
      case Retiring => w.matched && w.closed
      case Finished(_) => true
    }
  }

  lemma AgreesStep(c: Coord, w: Watch, r: CoordReply)
    requires !c.pc.Finished? && Agrees(c, w)
    ensures Agrees(Step(c, r), Observe(c.launch, w, Exchange(CallOf(c), r)))
  {
  }

  lemma {:induction false} AgreesAlways(l: Launch, h: History)
    requires IsHistory(l, h)
    ensures Agrees(At(l, h), Watching(l, h))
    decreases |h|
  {
    if h != [] {
      AgreesAlways(l, h[..|h| - 1]);
      AgreesStep(At(l, h[..|h| - 1]), Watching(l, h[..|h| - 1]), h[|h| - 1].reply);
    }
  }

  ghost predicate Matched(l: Launch, h: History) { exists i | 0 <= i < |h| :: ReadsMatch(l, h[i]) }

  lemma {:induction false} WatchedReads(l: Launch, h: History)
    ensures Watching(l, h).matched ==> Matched(l, h)
    ensures Watching(l, h).closed ==> h != [] && ReadsClosed(l, h[|h| - 1])
    ensures (exists i | 0 <= i < |h| :: Updates(h[i])) ==> Watching(l, h).wrote.Some?
    decreases |h|
  {
    if h != [] {
      var prior := h[..|h| - 1];
      WatchedReads(l, prior);
      if Matched(l, prior) {
        var i :| 0 <= i < |prior| && ReadsMatch(l, prior[i]);
        assert ReadsMatch(l, h[i]);
      }
      if i :| 0 <= i < |h| && Updates(h[i]) {
        assert i < |h| - 1 ==> Updates(prior[i]);
      }
    }
  }

  // ---- What a pass promises

  /** A pass writes the job at most once.  It hands work to the broker only under its own
      fresh handoff id, only after it read the exact frozen authority from C1, and each such
      write forgets what the broker consumed before. */
  lemma HandoffsAreAuthorized(l: Launch, h: History)
    requires IsHistory(l, h) && !At(l, h).pc.Finished? && CallOf(At(l, h)).UpdateJob?
    ensures
      var call := CallOf(At(l, h));
      && call.incident == l.job.frozen.incident
      && (forall i | 0 <= i < |h| :: !Updates(h[i]))
      && (call.patch.handoff.Some? ==> Matched(l, h) && call.patch.consumed == Some(None))
      && (call.patch.handoff.Some? && call.patch.handoff.value.Some? ==> call.patch.handoff.value.value == l.handoff)
      && (call.patch.handoff.None? ==> call.patch.consumed.None?)
  {
    AgreesAlways(l, h);
    WatchedReads(l, h);
  }

  /** No pass contains two writes of the job. */
  lemma WritesOnce(l: Launch, h: History, i: nat, j: nat)
    requires IsHistory(l, h) && i < |h| && j < |h| && h[i].call.UpdateJob? && h[j].call.UpdateJob?
    ensures j <= i
  {
    if i < j {
      PrefixIsHistory(l, h, j);
      assert Updates(h[..j][i]);
      HandoffsAreAuthorized(l, h[..j]);
    }
  }

  /** A policy is retired only for the job's own policy and incident, right after a read of
      CLOSED / VERIFIED_ABSENT. */
  lemma RetirementIsWitnessed(l: Launch, h: History)
    requires IsHistory(l, h) && !At(l, h).pc.Finished? && CallOf(At(l, h)).RetirePolicy?
    ensures CallOf(At(l, h)) == RetirePolicy(l.job.frozen.policy, l.job.frozen.incident)
    ensures h != [] && ReadsClosed(l, h[|h| - 1])
  {
    AgreesAlways(l, h);
    WatchedReads(l, h);
  }

  // ---- Remote state dominates

  /** The first read matches the frozen request and shows a persisted effect start. */
  predicate FirstReadShowsEffect(l: Launch, h: History) {
    h != [] && ReadsMatch(l, h[0]) && Dangerous(SnapshotOf(h[0].reply.raw.reply))
  }

  predicate Dominated(c: Coord) {
    match c.pc {
      case Reserving(dangerous) => dangerous
      case Rereading(dangerous) => dangerous
      case Updating(patch, _, _) => patch.state.Some? && J.Final(patch.state.value)
      case Reading | Creating | ReadingCreated(_) | Rescuing => false
      case _ => true
    }
  }

  lemma {:induction false} DangerIsRemembered(l: Launch, h: History)
    requires IsHistory(l, h) && FirstReadShowsEffect(l, h)
    ensures Dominated(At(l, h))
    decreases |h|
  {
    if |h| == 1 {
      assert At(l, h[..0]) == Launched(l);
    } else {
      assert h[..|h| - 1][0] == h[0];
      DangerIsRemembered(l, h[..|h| - 1]);
    }
  }

  /** Whatever the local job says, however stale this pass's copy of it is and whatever is
      stored by now: if the first read of C1 shows an effect start, the job is left in a
      state the broker never starts a child from.  Unless C1 calls the incident ACTIVE, the
      write follows that read at once. */
  lemma RemoteStateDominates(l: Launch, h: History, stored: J.Job)
    requires IsHistory(l, h) && FirstReadShowsEffect(l, h)
    ensures !At(l, h).pc.Finished? && CallOf(At(l, h)).UpdateJob? ==>
              var call := CallOf(At(l, h));
              J.Final(J.After(stored, (call.patch, call.allowConflict)).state)
    ensures |h| == 1 && h[0].reply.raw.reply.state != Some(Active) ==> At(l, h).pc.Updating?
  {
    DangerIsRemembered(l, h);
    if At(l, h).pc.Updating? {
      J.FinalRequestsStick(stored, At(l, h).pc.patch, At(l, h).pc.allowConflict);
    }
    if |h| == 1 {
      assert At(l, h[..0]) == Launched(l);
    }
  }
}
