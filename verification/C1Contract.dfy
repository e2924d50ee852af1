/** The C1 authority contract: one record per incident, changed only by the transitions
    of winner/contract/src/model.rs and committed as winner/contract/src/lib.rs commits them.

    The host runs calls as optimistic transactions.  A reply is computed from the record
    the transaction read, which may already be stale; the write only lands on the record
    it was computed from.  Hence `ReplyFrom` takes any record as its base, while `Commit`
    always starts from the committed one. */
module C1Contract {
  import opened Domain

  const GITHUB_OWNER := "Ticoworld"
  const GITHUB_REPOSITORY := "t3n-breakglass-sandbox"
  const MIN_INCIDENT_TTL_SECS := 60
  const MAX_INCIDENT_TTL_SECS := 900
  const MAX_GENERATION: nat := 0xFFFF_FFFF_FFFF_FFFF

  datatype Status =
    | Active | Reserved | EffectClaimed | EffectStarted | ReadyRetry
    | Closed | Expired | ReconcileRequired | Failed

  /** `reservation` is 0 when there is no reservation id. */
  datatype Authority = Authority(
    request: CreateRequest, owner: string, repo: string,
    createdAt: nat, expiresAt: nat,
    attempts: nat, status: Status, reservation: nat,
    claim: Option<ClaimId>, claimVersion: nat,
    start: Option<StartId>, final: Option<Classification>)

  datatype Op =
    | Create(request: CreateRequest)
    | Get
    | Reserve
    | Claim(expected: nat, contender: Nonce)
    | ConfirmClaim(claim: ClaimId)
    | Release(claim: ClaimId)
    | Begin(claim: ClaimId, startNonce: Nonce)
    | ConfirmStart(claim: ClaimId, start: StartId)
    | Finalize(claim: ClaimId, start: StartId, verdict: Classification)
    | Reconcile(claim: ClaimId, start: StartId, verdict: Classification)

  datatype Call = Call(caller: Did, incident: IncidentId, op: Op)

  datatype Outcome = Won | Found | Proposed | Lost | Denied | Confirmed | NotOwner

  /** The `detail` object of a reply.  `authority` is set when the whole record is returned;
      `other` says that some further key is present. */
  datatype Detail = Detail(
    revokesDeployKey: bool, owner: Option<string>, repo: Option<string>, keyId: Option<int>,
    claim: Option<ClaimId>, claimVersion: Option<int>, start: Option<StartId>,
    authority: Option<Authority>, other: bool)

  const NO_DETAIL := Detail(false, None, None, None, None, None, None, None, false)

  /** `absent` is the DENIED reply that says the incident does not exist. */
  datatype Reply = Reply(result: Outcome, op: Op, state: Option<Status>, attempts: Option<nat>, detail: Detail, absent: bool)

  type Ledger = map<IncidentId, Authority>

  // ---- model.rs

  predicate ValidShape(a: Authority) {
    && a.request.keyId > 0
    && a.createdAt < a.expiresAt
    && a.attempts <= 1
    && (a.claim.Some? ==> a.claimVersion > 0)
    && match a.status {
         case Active =>
           a.attempts == 0 && a.reservation == 0 && a.claim.None? && a.claimVersion == 0 && a.start.None? && a.final.None?
         case Reserved =>
           a.attempts == 0 && a.reservation > 0 && a.claim.None? && a.start.None? && a.final.None? && a.claimVersion == 0
         case ReadyRetry =>
           a.attempts == 0 && a.reservation > 0 && a.claim.None? && a.start.None? && a.final.None? && a.claimVersion > 0
         case EffectClaimed =>
           a.attempts == 0 && a.reservation > 0 && a.claim.Some? && a.start.None? && a.final.None?
         case EffectStarted =>
           a.attempts == 1 && a.reservation > 0 && a.claim.Some? && a.start.Some? && a.final.None?
         case Expired =>
           a.attempts == 0 && a.claim.None? && a.start.None? && a.final.None?
         case Closed =>
           a.attempts == 1 && a.reservation > 0 && a.claim.Some? && a.start.Some? && a.final == Some(VerifiedAbsent)
         case ReconcileRequired =>
           a.attempts == 1 && a.reservation > 0 && a.claim.Some? && a.start.Some? &&
           a.final in {Some(ProviderAcknowledged), Some(AttemptedOutcomeUnknown), Some(VerifiedPresent)}
         case Failed =>
           a.attempts == 1 && a.reservation > 0 && a.claim.Some? && a.start.Some? && a.final == Some(VerifiedPresent)
       }
  }

  predicate ValidTime(a: Authority, now: nat) { a.createdAt <= now < a.expiresAt }

  /** build_incident_authority, for a caller already known to be the operator. */
  function Build(request: CreateRequest, operator: Did, now: nat): Option<Authority> {
    if request.remediation == request.broker || request.remediation == operator || request.broker == operator then None
    else if request.keyId <= 0 then None
    else if request.ttlSecs < MIN_INCIDENT_TTL_SECS || request.ttlSecs > MAX_INCIDENT_TTL_SECS then None
    else Some(Authority(request, GITHUB_OWNER, GITHUB_REPOSITORY, now, now + request.ttlSecs as nat,
                        0, Active, 0, None, 0, None, None))
  }

  /** A call that arrives outside the time window expires an incident nobody claimed. */
  function ExpireUnclaimed(a: Authority): Authority {
    if a.status in {Active, Reserved, ReadyRetry} then a.(status := Expired) else a
  }

  function DoReserve(a: Authority, caller: Did, now: nat): (Authority, Outcome) {
    if caller != a.request.remediation then (a, Denied)
    else if !ValidTime(a, now) then (ExpireUnclaimed(a), Denied)
    else if a.attempts != 0 then (a, Denied)
    else if a.status == Active then (a.(reservation := a.reservation + 1, status := Reserved), Won)
    else (a, Lost)
  }

  function DoClaim(a: Authority, caller: Did, now: nat, expected: nat, contender: Nonce): (Authority, Outcome) {
    if caller != a.request.broker then (a, Denied)
    else if !ValidTime(a, now) then (ExpireUnclaimed(a), Denied)
    else if a.attempts != 0 then (a, Lost)
    else if a.claimVersion != expected then (a, Lost)
    else if a.status in {Reserved, ReadyRetry} then
      if a.claimVersion >= MAX_GENERATION then (a, Denied)
      else
        (a.(claimVersion := a.claimVersion + 1, claim := Some(ClaimId(a.claimVersion + 1, contender)), status := EffectClaimed), Proposed)
    else (a, Lost)
  }

  function DoRelease(a: Authority, caller: Did, now: nat, claim: ClaimId): (Authority, Outcome) {
    if caller != a.request.broker then (a, Denied)
    else if a.status != EffectClaimed || a.attempts != 0 || a.claim != Some(claim) then (a, Denied)
    else if !ValidTime(a, now) then (a, Denied)
    else (a.(claim := None, status := ReadyRetry), Won)
  }

  function DoBegin(a: Authority, caller: Did, now: nat, claim: ClaimId, nonce: Nonce): (Authority, Outcome) {
    if caller != a.request.broker then (a, Denied)
    else if a.status != EffectClaimed || a.attempts != 0 || a.claim != Some(claim) then (a, Denied)
    else if !ValidTime(a, now) then (a, Denied)
    else (a.(attempts := 1, start := Some(StartId(a.claimVersion, nonce)), status := EffectStarted), Won)
  }

  function DoFinalize(a: Authority, caller: Did, claim: ClaimId, start: StartId, verdict: Classification): (Authority, Outcome) {
    if caller != a.request.broker then (a, Denied)
    else if a.status != EffectStarted || a.claim != Some(claim) || a.start != Some(start) || a.attempts != 1 then (a, Denied)
    else match verdict {
      case VerifiedAbsent => (a.(final := Some(verdict), status := Closed), Won)
      case VerifiedPresent => (a.(final := Some(verdict), status := Failed), Won)
      case NotAttempted => (a, Denied)
      case _ => (a.(final := Some(verdict), status := ReconcileRequired), Won)
    }
  }

  function DoReconcile(a: Authority, caller: Did, claim: ClaimId, start: StartId, verdict: Classification): (Authority, Outcome) {
    if caller != a.request.broker then (a, Denied)
    else if a.status !in {EffectStarted, ReconcileRequired, Failed} then (a, Denied)
    else if a.claim != Some(claim) || a.start != Some(start) || a.attempts != 1 then (a, Denied)
    else match verdict {
      case VerifiedAbsent => (a.(final := Some(verdict), status := Closed), Won)
      case VerifiedPresent => (a.(final := Some(verdict), status := ReconcileRequired), Won)
      case AttemptedOutcomeUnknown => (a.(final := Some(verdict), status := ReconcileRequired), Won)
      case _ => (a, Denied)
    }
  }

  function DoConfirmClaim(a: Authority, caller: Did, claim: ClaimId): Outcome {
    if caller != a.request.broker then Denied
    else if a.status == EffectClaimed && a.attempts == 0 && a.claim == Some(claim) then Confirmed
    else NotOwner
  }

  function DoConfirmStart(a: Authority, caller: Did, claim: ClaimId, start: StartId): Outcome {
    if caller != a.request.broker then Denied
    else if a.status == EffectStarted && a.attempts == 1 && a.claim == Some(claim) && a.start == Some(start) then Confirmed
    else NotOwner
  }

  // ---- lib.rs

  /** What one call makes of an existing record, and the result it reports. */
  function Transact(a: Authority, call: Call, now: nat): (Authority, Outcome) {
    match call.op {
      case Create(_) => (a, Denied)
      case Get => (a, Found)
      case Reserve => DoReserve(a, call.caller, now)
      case Claim(expected, contender) => DoClaim(a, call.caller, now, expected, contender)
      case ConfirmClaim(claim) => (a, DoConfirmClaim(a, call.caller, claim))
      case Release(claim) => DoRelease(a, call.caller, now, claim)
      case Begin(claim, nonce) => DoBegin(a, call.caller, now, claim, nonce)
      case ConfirmStart(claim, start) => (a, DoConfirmStart(a, call.caller, claim, start))
      case Finalize(claim, start, verdict) => DoFinalize(a, call.caller, claim, start, verdict)
      case Reconcile(claim, start, verdict) => DoReconcile(a, call.caller, claim, start, verdict)
    }
  }

  predicate OperatorOnly(op: Op) { op.Create? || op.Get? }

  function DetailOf(a: Authority, call: Call, outcome: Outcome): Detail {
    match (call.op, outcome) {
      case (Get, Found) => NO_DETAIL.(authority := Some(a), other := true)
      case (Claim(_, _), Proposed) => NO_DETAIL.(claim := a.claim, claimVersion := Some(a.claimVersion))
      case (Begin(_, _), Won) => NO_DETAIL.(claim := a.claim, claimVersion := Some(a.claimVersion), start := a.start)
      case (ConfirmClaim(_), Confirmed) =>
        NO_DETAIL.(revokesDeployKey := true, owner := Some(a.owner), repo := Some(a.repo), keyId := Some(a.request.keyId),
                   claim := a.claim, claimVersion := Some(a.claimVersion))
      case _ => NO_DETAIL
    }
  }

  /** The reply a transaction computes from the record it read. */
  function ReplyFrom(base: Option<Authority>, call: Call, operator: Did, now: nat): Reply {
    if OperatorOnly(call.op) && call.caller != operator then Reply(Denied, call.op, None, None, NO_DETAIL, false)
    else match base {
      case None =>
        if call.op.Create? then
          match Build(call.op.request, operator, now) {
            case Some(a) => Reply(Won, call.op, Some(a.status), Some(a.attempts), NO_DETAIL.(authority := Some(a), other := true), false)
            case None => Reply(Denied, call.op, None, None, NO_DETAIL, false)
          }
        else Reply(Denied, call.op, None, None, NO_DETAIL, true)
      case Some(a) =>
        if call.op.Create? then Reply(Denied, call.op, None, None, NO_DETAIL, false)
        else
          var (a', outcome) := Transact(a, call, now);
          Reply(outcome, call.op, Some(a'.status), Some(a'.attempts), DetailOf(a', call, outcome), false)
    }
  }

  /** Confirmations and the operator's read answer from the committed record. */
  predicate ReadsCommitted(op: Op) { op.Get? || op.ConfirmClaim? || op.ConfirmStart? }

  function Committed(c1: Ledger, incident: IncidentId): Option<Authority> {
    if incident in c1 then Some(c1[incident]) else None
  }

  /** The effect of one transaction that commits now. */
  function Commit(c1: Ledger, call: Call, operator: Did, now: nat): Ledger {
    if OperatorOnly(call.op) && call.caller != operator then c1
    else if call.op.Create? then
      if call.incident in c1 || call.op.request.incident != call.incident then c1
      else match Build(call.op.request, operator, now) {
        case Some(a) => c1[call.incident := a]
        case None => c1
      }
    else if call.incident !in c1 then c1
    else
      var (a', outcome) := Transact(c1[call.incident], call, now);
      if outcome in {Won, Proposed} || a'.status == Expired then c1[call.incident := a'] else c1
  }

  function CommitAll(c1: Ledger, calls: seq<(Call, nat)>, operator: Did): Ledger
    decreases |calls|
  {
    if calls == [] then c1 else CommitAll(Commit(c1, calls[0].0, operator, calls[0].1), calls[1..], operator)
  }

  // ---- What the contract keeps

  ghost predicate WellFormed(c1: Ledger) {
    forall i <- c1 :: ValidShape(c1[i]) && c1[i].request.incident == i && c1[i].owner == GITHUB_OWNER && c1[i].repo == GITHUB_REPOSITORY
  }

  /** What no later transaction can take back. */
  predicate Keeps(a: Authority, b: Authority) {
    && b.request == a.request && b.owner == a.owner && b.repo == a.repo
    && b.createdAt == a.createdAt && b.expiresAt == a.expiresAt
    && (a.start.Some? ==> b.start == a.start && b.claim == a.claim && b.attempts == 1)
    && (a.status in {Closed, Expired} ==> b == a)
  }

  ghost predicate Grows(c1: Ledger, later: Ledger) {
    forall i <- c1 :: i in later && Keeps(c1[i], later[i])
  }

  /** One transition: the shape stays valid and nothing durable is taken back. */
  lemma TransactKeeps(a: Authority, call: Call, now: nat)
    requires ValidShape(a)
    ensures ValidShape(Transact(a, call, now).0) && Keeps(a, Transact(a, call, now).0)
  {
    match call.op {
      case Finalize(_, _, verdict) => match verdict { case VerifiedAbsent => case _ => }
      case Reconcile(_, _, verdict) => match verdict { case VerifiedAbsent => case _ => }
      case _ =>
    }
  }

  /** VERIFIED_ABSENT is recorded only by a call that says so. */
  lemma AbsenceIsDeclared(a: Authority, call: Call, now: nat)
    requires a.final != Some(VerifiedAbsent) && Transact(a, call, now).0.final == Some(VerifiedAbsent)
    ensures (call.op.Finalize? || call.op.Reconcile?) && call.op.verdict == VerifiedAbsent
  {
    match call.op {
      case Finalize(_, _, verdict) => match verdict { case VerifiedAbsent => case _ => }
      case Reconcile(_, _, verdict) => match verdict { case VerifiedAbsent => case _ => }
      case _ =>
    }
  }

  /** One transaction touches one incident, and only the operator's creation adds one. */
  lemma CommitTouchesOne(c1: Ledger, call: Call, operator: Did, now: nat)
    ensures
      var next := Commit(c1, call, operator, now);
      && (forall i <- next :: i != call.incident ==> i in c1 && next[i] == c1[i])
      && (forall i <- c1 :: i in next)
      && (call.incident in c1 ==> next[call.incident] == c1[call.incident] || next[call.incident] == Transact(c1[call.incident], call, now).0)
      && (call.incident !in c1 && call.incident in next ==>
            && call.op.Create? && call.caller == operator && next[call.incident].request == call.op.request
            && next[call.incident].final.None?)
  {
  }

  /** The operator's read returns the committed record. */
  lemma ReadsTellTheRecord(base: Option<Authority>, call: Call, operator: Did, now: nat)
    requires call.op.Get? && ReplyFrom(base, call, operator, now).result == Found
    ensures base.Some? && ReplyFrom(base, call, operator, now).detail.authority == base
    ensures ReplyFrom(base, call, operator, now).state == Some(base.value.status)
  {
  }

  lemma KeepsItself(a: Authority)
    requires ValidShape(a)
    ensures Keeps(a, a)
  {
  }

  lemma CreationIsWellFormed(c1: Ledger, call: Call, operator: Did, now: nat)
    requires call.incident !in c1 && call.incident in Commit(c1, call, operator, now)
    ensures
      var a := Commit(c1, call, operator, now)[call.incident];
      ValidShape(a) && a.request.incident == call.incident && a.owner == GITHUB_OWNER && a.repo == GITHUB_REPOSITORY
  {
  }

  lemma CommitKeeps(c1: Ledger, call: Call, operator: Did, now: nat)
    requires WellFormed(c1)
    ensures WellFormed(Commit(c1, call, operator, now))
    ensures Grows(c1, Commit(c1, call, operator, now))
  {
    hide Transact, Commit, ValidShape;
    CommitTouchesOne(c1, call, operator, now);
    if call.incident in c1 {
      TransactKeeps(c1[call.incident], call, now);
    } else if call.incident in Commit(c1, call, operator, now) {
      CreationIsWellFormed(c1, call, operator, now);
    }
    forall i <- c1 ensures Keeps(c1[i], Commit(c1, call, operator, now)[i]) {
      KeepsItself(c1[i]);
    }
  }

  /** Over any run of transactions: shapes stay valid, targets and principals stay as
      created, the first committed effect start is never overwritten, CLOSED is final. */
  lemma {:induction false} AuthorityIsDurable(c1: Ledger, calls: seq<(Call, nat)>, operator: Did)
    requires WellFormed(c1)
    ensures WellFormed(CommitAll(c1, calls, operator))
    ensures Grows(c1, CommitAll(c1, calls, operator))
    decreases |calls|
  {
    if calls != [] {
      var next := Commit(c1, calls[0].0, operator, calls[0].1);
      CommitKeeps(c1, calls[0].0, operator, calls[0].1);
      AuthorityIsDurable(next, calls[1..], operator);
    }
  }

  /** A start is confirmed only while it is the committed one, so once some start is
      committed no other is ever confirmed, after any further transactions. */
  lemma OnlyThePersistedStartIsConfirmed(c1: Ledger, calls: seq<(Call, nat)>, operator: Did, i: IncidentId, caller: Did, claim: ClaimId, start: StartId, now: nat)
    requires WellFormed(c1) && i in c1 && c1[i].start.Some?
    ensures ReplyFrom(Committed(CommitAll(c1, calls, operator), i), Call(caller, i, ConfirmStart(claim, start)), operator, now).result == Confirmed
            ==> c1[i].start == Some(start) && c1[i].claim == Some(claim)
  {
    AuthorityIsDurable(c1, calls, operator);
  }

  /** Two contenders that read the same claimed record are both told WON; whichever commits
      first is the one that is confirmed, and the other is told it is not the owner. */
  lemma WonIsProvisional(c1: Ledger, i: IncidentId, operator: Did, now: nat, n1: Nonce, n2: Nonce)
    requires WellFormed(c1) && i in c1 && c1[i].status == EffectClaimed && c1[i].createdAt <= now < c1[i].expiresAt && n1 != n2
    ensures
      var claim := c1[i].claim.value;
      var broker := c1[i].request.broker;
      var begin1 := Call(broker, i, Begin(claim, n1));
      var begin2 := Call(broker, i, Begin(claim, n2));
      var after := Commit(Commit(c1, begin1, operator, now), begin2, operator, now);
      var confirm1 := Call(broker, i, ConfirmStart(claim, StartId(c1[i].claimVersion, n1)));
      var confirm2 := Call(broker, i, ConfirmStart(claim, StartId(c1[i].claimVersion, n2)));
      && ReplyFrom(Committed(c1, i), begin1, operator, now).result == Won
      && ReplyFrom(Committed(c1, i), begin2, operator, now).result == Won
      && ReplyFrom(Committed(after, i), confirm1, operator, now).result == Confirmed
      && ReplyFrom(Committed(after, i), confirm2, operator, now).result == NotOwner
  {
  }
}
