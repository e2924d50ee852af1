/** What each call of the C1 contract does, in terms of the record alone: who may call, in
    which status, inside which window of time, and what is on record afterwards. */
module C1Laws {
  import opened Domain
  import opened C1Contract

  // ---- The window

  /** Outside its window an incident gives nothing away: reserve, claim, release and begin are
      denied, and the first two, from the right principal, expire what nobody has claimed. */
  lemma OutsideTheWindow(a: Authority, call: Call, now: nat)
    requires now < a.createdAt || a.expiresAt <= now
    requires call.op.Reserve? || call.op.Claim? || call.op.Release? || call.op.Begin?
    ensures
      var (b, outcome) := Transact(a, call, now);
      var principal := if call.op.Reserve? then a.request.remediation else a.request.broker;
      && outcome == Denied
      && b == if (call.op.Reserve? || call.op.Claim?) && call.caller == principal
                 && (a.status == Active || a.status == Reserved || a.status == ReadyRetry)
              then a.(status := Expired) else a
  {
  }

  lemma ReservesExactly(a: Authority, caller: Did, i: IncidentId, now: nat)
    requires a.createdAt <= now < a.expiresAt
    ensures
      var (b, outcome) := Transact(a, Call(caller, i, Reserve), now);
      && (outcome == Won <==> caller == a.request.remediation && a.attempts == 0 && a.status == Active)
      && (outcome == Won ==> b == a.(status := Reserved, reservation := a.reservation + 1))
      && (outcome != Won ==> b == a && outcome == if caller == a.request.remediation && a.attempts == 0 then Lost else Denied)
  {
  }

  lemma ClaimsExactly(a: Authority, caller: Did, i: IncidentId, now: nat, expected: nat, nonce: Nonce)
    requires a.createdAt <= now < a.expiresAt
    ensures
      var (b, outcome) := Transact(a, Call(caller, i, Claim(expected, nonce)), now);
      var next := a.claimVersion + 1;
      var open := a.attempts == 0 && a.claimVersion == expected && (a.status == Reserved || a.status == ReadyRetry);
      && (outcome == Proposed <==> caller == a.request.broker && open && next < 0x1_0000_0000_0000_0000)
      && (outcome == Proposed ==> b == a.(status := EffectClaimed, claim := Some(ClaimId(next, nonce)), claimVersion := next))
      && (outcome != Proposed ==> b == a && outcome == if caller == a.request.broker && !open then Lost else Denied)
  {
  }

  lemma ReleasesExactly(a: Authority, caller: Did, i: IncidentId, now: nat, claim: ClaimId)
    requires a.createdAt <= now < a.expiresAt
    ensures
      var (b, outcome) := Transact(a, Call(caller, i, Release(claim)), now);
      && (outcome == Won <==> caller == a.request.broker && a.status == EffectClaimed && a.attempts == 0 && a.claim == Some(claim))
      && (outcome == Won ==> b == a.(status := ReadyRetry, claim := None))
      && (outcome != Won ==> b == a && outcome == Denied)
  {
  }

  lemma BeginsExactly(a: Authority, caller: Did, i: IncidentId, now: nat, claim: ClaimId, nonce: Nonce)
    requires a.createdAt <= now < a.expiresAt
    ensures
      var (b, outcome) := Transact(a, Call(caller, i, Begin(claim, nonce)), now);
      && (outcome == Won <==> caller == a.request.broker && a.status == EffectClaimed && a.attempts == 0 && a.claim == Some(claim))
      && (outcome == Won ==> b == a.(status := EffectStarted, attempts := 1, start := Some(StartId(a.claimVersion, nonce))))
      && (outcome != Won ==> b == a && outcome == Denied)
  {
  }

  // ---- Calls that know no window

  /** The claim and the start on record are the caller's. */
  predicate HoldsEffect(a: Authority, caller: Did, claim: ClaimId, start: StartId) {
    caller == a.request.broker && a.attempts == 1 && a.claim == Some(claim) && a.start == Some(start)
  }

  /** One verdict ends a started effect, at any time: CLOSED for gone, FAILED for present and
      RECONCILE_REQUIRED for anything else that was attempted. */
  lemma FinalizesExactly(a: Authority, caller: Did, i: IncidentId, now: nat, claim: ClaimId, start: StartId, verdict: Classification)
    ensures
      var (b, outcome) := Transact(a, Call(caller, i, Finalize(claim, start, verdict)), now);
      && (outcome == Won <==> HoldsEffect(a, caller, claim, start) && a.status == EffectStarted && verdict != NotAttempted)
      && (outcome == Won ==> b == a.(final := Some(verdict), status := b.status))
      && (outcome == Won && verdict == VerifiedAbsent ==> b.status == Closed)
      && (outcome == Won && verdict == VerifiedPresent ==> b.status == Failed)
      && (outcome == Won && verdict in {ProviderAcknowledged, AttemptedOutcomeUnknown} ==> b.status == ReconcileRequired)
      && (outcome != Won ==> b == a && outcome == Denied)
  {
  }

  /** A later verdict reaches CLOSED from an unsettled or failed effect, and nothing else. */
  lemma ReconcilesExactly(a: Authority, caller: Did, i: IncidentId, now: nat, claim: ClaimId, start: StartId, verdict: Classification)
    ensures
      var (b, outcome) := Transact(a, Call(caller, i, Reconcile(claim, start, verdict)), now);
      && (outcome == Won <==>
            && HoldsEffect(a, caller, claim, start) && a.status in {EffectStarted, ReconcileRequired, Failed}
            && verdict in {VerifiedAbsent, VerifiedPresent, AttemptedOutcomeUnknown})
      && (outcome == Won ==> b == a.(final := Some(verdict), status := if verdict == VerifiedAbsent then Closed else ReconcileRequired))
      && (outcome != Won ==> b == a && outcome == Denied)
  {
  }

  /** Confirmations change nothing and are true of the record. */
  lemma ConfirmsExactly(a: Authority, caller: Did, i: IncidentId, now: nat, claim: ClaimId, start: StartId)
    ensures
      var (b, outcome) := Transact(a, Call(caller, i, ConfirmClaim(claim)), now);
      && b == a
      && (outcome == Confirmed <==> caller == a.request.broker && a.status == EffectClaimed && a.attempts == 0 && a.claim == Some(claim))
      && (outcome != Confirmed ==> outcome == if caller == a.request.broker then NotOwner else Denied)
    ensures
      var (b, outcome) := Transact(a, Call(caller, i, ConfirmStart(claim, start)), now);
      && b == a
      && (outcome == Confirmed <==> a.status == EffectStarted && HoldsEffect(a, caller, claim, start))
      && (outcome != Confirmed ==> outcome == if caller == a.request.broker then NotOwner else Denied)
  {
  }

  // ---- Creation and commits

  /** An incident is created exactly for three distinct principals, a positive key and a
      window of one to fifteen minutes, which starts now. */
  lemma CreatesExactly(c1: Ledger, caller: Did, operator: Did, i: IncidentId, request: CreateRequest, now: nat)
    requires i !in c1
    ensures
      var next := Commit(c1, Call(caller, i, Create(request)), operator, now);
      && (i in next <==>
            && caller == operator && request.incident == i
            && request.remediation != request.broker && request.remediation != operator && request.broker != operator
            && request.keyId > 0 && 60 <= request.ttlSecs <= 900)
      && (i in next ==>
            && next[i].request == request && next[i].owner == "Ticoworld" && next[i].repo == "t3n-breakglass-sandbox"
            && next[i].createdAt == now && next[i].expiresAt == now + request.ttlSecs
            && next[i].status == Active && next[i].attempts == 0 && next[i].reservation == 0 && next[i].claimVersion == 0
            && next[i].claim.None? && next[i].start.None? && next[i].final.None?)
  {
  }

  /** What a transaction leaves on record is exactly what its transition made of the record,
      refused calls included. */
  lemma CommitsTheTransition(c1: Ledger, call: Call, operator: Did, now: nat)
    requires call.incident in c1
    ensures Commit(c1, call, operator, now)[call.incident] == Transact(c1[call.incident], call, now).0
  {
    match call.op {
      case Finalize(_, _, verdict) => match verdict { case VerifiedAbsent => case _ => }
      case Reconcile(_, _, verdict) => match verdict { case VerifiedAbsent => case _ => }
      case _ =>
    }
  }

  /** A reply tells what became of the record it was computed from. */
  lemma RepliesTell(a: Authority, call: Call, operator: Did, now: nat)
    requires !call.op.Create?
    ensures
      var reply := ReplyFrom(Some(a), call, operator, now);
      var (b, outcome) := Transact(a, call, now);
      && reply.op == call.op && !reply.absent
      && (call.op.Get? && call.caller != operator ==> reply.result == Denied && reply.state.None? && reply.attempts.None? && reply.detail == NO_DETAIL)
      && (!call.op.Get? || call.caller == operator ==> reply.result == outcome && reply.state == Some(b.status) && reply.attempts == Some(b.attempts))
    ensures
      var reply := ReplyFrom(None, call, operator, now);
      reply.result == Denied && reply.state.None? && reply.detail == NO_DETAIL && (reply.absent <==> !call.op.Get? || call.caller == operator)
  {
  }

  // ---- Over any sequence of transactions

  /** This transaction started the effect of `i`: it found it unstarted, inside its window. */
  predicate StartsEffect(c1: Ledger, i: IncidentId, call: Call, now: nat, start: StartId) {
    && i in c1 && c1[i].start.None? && call.incident == i && call.op.Begin? && call.caller == c1[i].request.broker
    && c1[i].createdAt <= now < c1[i].expiresAt
    && c1[i].claim == Some(call.op.claim) && start == StartId(c1[i].claimVersion, call.op.startNonce)
  }

  /** This one claimed it. */
  predicate TakesClaim(c1: Ledger, i: IncidentId, call: Call, now: nat, claim: ClaimId) {
    && i in c1 && c1[i].claim.None? && call.incident == i && call.op.Claim? && call.caller == c1[i].request.broker
    && c1[i].createdAt <= now < c1[i].expiresAt
    && call.op.expected == c1[i].claimVersion && claim == ClaimId(c1[i].claimVersion + 1, call.op.contender)
  }

  /** A start or a claim that was not there before a commit was put there by such a call. */
  lemma CommitStarts(c1: Ledger, call: Call, operator: Did, now: nat, i: IncidentId)
    requires WellFormed(c1) && i in Commit(c1, call, operator, now)
    ensures
      var later := Commit(c1, call, operator, now)[i];
      && (later.start.Some? && !(i in c1 && c1[i].start == later.start) ==> StartsEffect(c1, i, call, now, later.start.value))
      && (later.claim.Some? && !(i in c1 && c1[i].claim == later.claim) ==> TakesClaim(c1, i, call, now, later.claim.value))
  {
    CommitTouchesOne(c1, call, operator, now);
    if call.incident == i && i in c1 {
      CommitsTheTransition(c1, call, operator, now);
      TransitionStarts(c1[i], call, now);
    }
  }

  lemma TransitionStarts(a: Authority, call: Call, now: nat)
    requires ValidShape(a)
    ensures
      var b := Transact(a, call, now).0;
      && (b.start != a.start ==>
            && call.op.Begin? && call.caller == a.request.broker && a.start.None? && a.claim == Some(call.op.claim)
            && a.createdAt <= now < a.expiresAt && b.start == Some(StartId(a.claimVersion, call.op.startNonce)))
      && (b.claim != a.claim && b.claim.Some? ==>
            && call.op.Claim? && call.caller == a.request.broker && a.claim.None? && call.op.expected == a.claimVersion
            && a.createdAt <= now < a.expiresAt && b.claim == Some(ClaimId(a.claimVersion + 1, call.op.contender)))
  {
    match call.op {
      case Finalize(_, _, verdict) => match verdict { case VerifiedAbsent => case _ => }
      case Reconcile(_, _, verdict) => match verdict { case VerifiedAbsent => case _ => }
      case _ =>
    }
  }

  ghost predicate StartedBy(c1: Ledger, calls: seq<(Call, nat)>, operator: Did, k: nat, i: IncidentId, start: StartId)
    requires k < |calls|
  {
    StartsEffect(CommitAll(c1, calls[..k], operator), i, calls[k].0, calls[k].1, start)
  }

  /** Over any sequence of transactions: the window is never moved, and a start on record was
      put there by the broker's begin, for the claim then on record, inside that window. */
  lemma {:induction false} StartsInTheWindow(c1: Ledger, calls: seq<(Call, nat)>, operator: Did, i: IncidentId)
    requires WellFormed(c1)
    ensures
      var later := CommitAll(c1, calls, operator);
      && (i in c1 ==> i in later && later[i].createdAt == c1[i].createdAt && later[i].expiresAt == c1[i].expiresAt)
      && (i in later && later[i].start.Some? ==>
            || (i in c1 && c1[i].start == later[i].start)
            || exists k | 0 <= k < |calls| :: StartedBy(c1, calls, operator, k, i, later[i].start.value))
    decreases |calls|
  {
    hide Commit, WellFormed, StartsEffect;
    AuthorityIsDurable(c1, calls, operator);
    if calls != [] {
      var next := Commit(c1, calls[0].0, operator, calls[0].1);
      var later := CommitAll(c1, calls, operator);
      CommitKeeps(c1, calls[0].0, operator, calls[0].1);
      StartsInTheWindow(next, calls[1..], operator, i);
      if i in later && later[i].start.Some? {
        if i in next && next[i].start == later[i].start {
          CommitStarts(c1, calls[0].0, operator, calls[0].1, i);
          assert calls[..0] == [];
          assert StartsEffect(c1, i, calls[0].0, calls[0].1, later[i].start.value) ==> StartedBy(c1, calls, operator, 0, i, later[i].start.value);
        } else {
          var k :| 0 <= k < |calls[1..]| && StartedBy(next, calls[1..], operator, k, i, later[i].start.value);
          assert calls[..k + 1][1..] == calls[1..][..k];
          assert StartedBy(c1, calls, operator, k + 1, i, later[i].start.value);
        }
      }
    }
  }
}
