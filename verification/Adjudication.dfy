/** winner/c2/broker-adjudication.ts: judging the results of a broker race, and why the
    verdict agrees with what the contenders were told. */
module Adjudication {
  import opened Domain
  import opened C1 = C1Contract
  import opened BrokerLogic
  import opened BrokerChild
  import T = BrokerTrace

  /** The fields of a persisted result; None where one is missing. */
  datatype Result = Result(
    contender: string,
    claim: Option<Outcome>,
    claimOutcome: Option<ClaimOutcome>,
    ownership: Option<Ownership>,
    proposal: Option<Claimed>,
    loadedTarget: Option<Claimed>,
    confirmation: Option<Outcome>,
    confirmationIdentity: Option<Claimed>,
    tokenMinted: Option<bool>,
    mintCount: Option<int>,
    destructiveCalls: Option<int>,
    deleteAttempted: Option<bool>,
    callsAfterLoss: Option<int>)

  datatype State = ConfirmedOwner | NonOwnerEarlyClaimLost | NonOwnerConfirmRejected | InvalidIndeterminate

  function Identity(claimed: Option<Claimed>): Option<Claimed> {
    if claimed.Some? && 0 < claimed.value.version <= MAX_SAFE_INTEGER then claimed else None
  }

  predicate ProviderSafe(r: Result) {
    && r.tokenMinted == Some(false) && r.mintCount == Some(0)
    && (r.destructiveCalls == None || r.destructiveCalls == Some(0))
    && (r.deleteAttempted == None || r.deleteAttempted == Some(false))
    && r.callsAfterLoss == Some(0)
  }

  function Owner(r: Result): Option<Claimed> {
    if Identity(r.loadedTarget).Some? then Identity(r.loadedTarget) else Identity(r.confirmationIdentity)
  }

  function Adjudicate(r: Result): State {
    if r.contender == "" then InvalidIndeterminate
    else if r.ownership == Some(OwnerConfirmed) && r.claimOutcome == Some(ClaimWon) && r.claim != Some(Lost) && Owner(r).Some? then ConfirmedOwner
    else if r.claimOutcome == Some(ClaimLost) && (r.claim == None || r.claim == Some(Lost)) && Identity(r.proposal).None?
            && r.ownership.None? && ProviderSafe(r) then NonOwnerEarlyClaimLost
    else if r.claimOutcome == Some(ClaimLost) && Identity(r.proposal).Some? && r.ownership == Some(NotTheOwner)
            && r.confirmation != Some(Confirmed) && ProviderSafe(r) then NonOwnerConfirmRejected
    else InvalidIndeterminate
  }

  function CountIn(rs: seq<Result>, p: Result -> bool): nat {
    if rs == [] then 0 else (if p(rs[0]) then 1 else 0) + CountIn(rs[1..], p)
  }

  predicate IsIdentity(claimed: Option<Claimed>) { claimed.Some? && 0 < claimed.value.version <= 9007199254740991 }

  /** The result says that its contender touched nothing. */
  predicate TouchedNothing(r: Result) {
    && r.tokenMinted == Some(false) && r.mintCount == Some(0) && r.callsAfterLoss == Some(0)
    && r.destructiveCalls in {None, Some(0)} && r.deleteAttempted in {None, Some(false)}
  }

  /** How each result is judged: an owner, a contender that lost early, one whose claim was not
      confirmed, and everything else indeterminate. */
  lemma JudgesExactly(r: Result)
    ensures Adjudicate(r) == ConfirmedOwner <==>
            && r.contender != "" && r.ownership == Some(OwnerConfirmed) && r.claimOutcome == Some(ClaimWon) && r.claim != Some(Lost)
            && (IsIdentity(r.loadedTarget) || IsIdentity(r.confirmationIdentity))
    ensures Adjudicate(r) == NonOwnerEarlyClaimLost <==>
            && r.contender != "" && r.ownership.None? && r.claimOutcome == Some(ClaimLost) && r.claim in {None, Some(Lost)}
            && !IsIdentity(r.proposal) && TouchedNothing(r)
    ensures Adjudicate(r) == NonOwnerConfirmRejected <==>
            && r.contender != "" && r.ownership == Some(NotTheOwner) && r.claimOutcome == Some(ClaimLost) && r.confirmation != Some(Confirmed)
            && IsIdentity(r.proposal) && TouchedNothing(r)
  {
  }

  function IsOwner(): Result -> bool { (r: Result) => Adjudicate(r) == ConfirmedOwner }
  function IsInvalid(): Result -> bool { (r: Result) => Adjudicate(r) == InvalidIndeterminate }
  function IsSafe(): Result -> bool { (r: Result) => Adjudicate(r) in {NonOwnerEarlyClaimLost, NonOwnerConfirmRejected} }
  function Named(name: string): Result -> bool { (r: Result) => r.contender == name }

  predicate UniqueContenders(rs: seq<Result>) {
    forall i, j | 0 <= i < j < |rs| :: rs[i].contender != "" && rs[j].contender != "" ==> rs[i].contender != rs[j].contender
  }

  predicate Valid(rs: seq<Result>) {
    && CountIn(rs, IsOwner()) == 1
    && CountIn(rs, IsInvalid()) == 0
    && CountIn(rs, IsSafe()) == |rs| - CountIn(rs, IsOwner())
    && UniqueContenders(rs)
  }

  // ---- Counting

  lemma {:induction false} NoneCounted(rs: seq<Result>, p: Result -> bool)
    ensures CountIn(rs, p) == 0 <==> forall r <- rs :: !p(r)
    ensures CountIn(rs, p) <= |rs|
  {
    if rs != [] {
      NoneCounted(rs[1..], p);
      assert forall r <- rs :: r == rs[0] || r in rs[1..];
    }
  }

  /** Result `i` is the only one of its kind. */
  predicate Only(rs: seq<Result>, p: Result -> bool, i: nat)
    requires i < |rs|
  {
    p(rs[i]) && forall j | 0 <= j < |rs| :: p(rs[j]) ==> j == i
  }

  lemma OnlyOneCounts(rs: seq<Result>, p: Result -> bool, i: nat)
    requires i < |rs| && Only(rs, p, i)
    ensures CountIn(rs, p) == 1
  {
    var others := rs[..i] + rs[i + 1..];
    CountSkips(rs, i, p);
    NoneCounted(others, p);
    forall r <- others ensures !p(r) {
      var j :| 0 <= j < |others| && others[j] == r;
      assert r == rs[if j < i then j else j + 1];
    }
  }

  lemma {:induction false} OneIsFound(rs: seq<Result>, p: Result -> bool) returns (i: nat)
    requires CountIn(rs, p) == 1
    ensures i < |rs| && Only(rs, p, i)
  {
    NoneCounted(rs[1..], p);
    if p(rs[0]) {
      assert forall j | 0 < j < |rs| :: rs[j] == rs[1..][j - 1] && rs[1..][j - 1] in rs[1..];
      i := 0;
    } else {
      i := OneIsFound(rs[1..], p);
      assert forall j | 0 < j < |rs| :: rs[j] == rs[1..][j - 1];
      i := i + 1;
    }
  }

  lemma {:induction false} CountsSplit(rs: seq<Result>)
    ensures CountIn(rs, IsOwner()) + CountIn(rs, IsInvalid()) + CountIn(rs, IsSafe()) == |rs|
  {
    if rs != [] {
      CountsSplit(rs[1..]);
    }
  }

  lemma {:induction false} CountSkips(rs: seq<Result>, k: nat, p: Result -> bool)
    requires k < |rs|
    ensures CountIn(rs, p) == CountIn(rs[..k] + rs[k + 1..], p) + (if p(rs[k]) then 1 else 0)
  {
    if k == 0 {
      assert rs[..0] + rs[1..] == rs[1..];
    } else {
      CountSkips(rs[1..], k - 1, p);
      assert (rs[..k] + rs[k + 1..])[1..] == rs[1..][..k - 1] + rs[1..][k..];
    }
  }

  lemma SkipOne(rs: seq<Result>, k: nat)
    requires k < |rs|
    ensures multiset(rs[..k] + rs[k + 1..]) == multiset(rs) - multiset{rs[k]}
  {
    assert rs == rs[..k] + ([rs[k]] + rs[k + 1..]);
  }

  lemma FindIn(rs: seq<Result>, r: Result, all: multiset<Result>) returns (k: nat)
    requires multiset(rs) == all && r in all
    ensures k < |rs| && rs[k] == r
  {
    assert r in rs;
    k :| 0 <= k < |rs| && rs[k] == r;
  }

  lemma EmptyPermutes(rs: seq<Result>)
    requires multiset([]) == multiset(rs)
    ensures rs == []
  {
    assert |multiset(rs)| == 0;
  }

  lemma {:induction false} CountPermutes(rs: seq<Result>, qs: seq<Result>, p: Result -> bool)
    requires multiset(rs) == multiset(qs)
    ensures CountIn(rs, p) == CountIn(qs, p)
    decreases |rs|
  {
    hide CountIn;
    if rs == [] {
      EmptyPermutes(qs);
    } else {
      var k := FindIn(qs, rs[0], multiset(rs));
      CountSkips(rs, 0, p);
      CountSkips(qs, k, p);
      SkipOne(rs, 0);
      SkipOne(qs, k);
      CountPermutes(rs[..0] + rs[1..], qs[..k] + qs[k + 1..], p);
    }
  }

  lemma UniqueMeansCountedOnce(rs: seq<Result>)
    ensures UniqueContenders(rs) <==> forall name: string :: name != "" ==> CountIn(rs, Named(name)) <= 1
  {
    if UniqueContenders(rs) {
      forall name: string | name != "" ensures CountIn(rs, Named(name)) <= 1 {
        NamesCounted(rs, name);
      }
    } else {
      var i, j :| 0 <= i < j < |rs| && rs[i].contender != "" && rs[j].contender != "" && rs[i].contender == rs[j].contender;
      TwoCounted(rs, i, j, Named(rs[i].contender));
    }
  }

  lemma {:induction false} NamesCounted(rs: seq<Result>, name: string)
    requires UniqueContenders(rs) && name != ""
    ensures CountIn(rs, Named(name)) <= 1
  {
    if rs != [] {
      var rest := rs[1..];
      NamesCounted(rest, name);
      if rs[0].contender == name {
        NoneCounted(rest, Named(name));
        forall r <- rest ensures !Named(name)(r) {
          var j :| 0 <= j < |rest| && rest[j] == r;
          assert rs[j + 1] == r;
        }
      }
    }
  }

  lemma TwoCounted(rs: seq<Result>, i: nat, j: nat, p: Result -> bool)
    requires i < j < |rs| && p(rs[i]) && p(rs[j])
    ensures CountIn(rs, p) >= 2
  {
    CountSkips(rs, j, p);
    var others := rs[..j] + rs[j + 1..];
    assert others[i] == rs[i];
    CountSkips(others, i, p);
  }

  /** The verdict ignores the order of the results. */
  lemma VerdictIgnoresOrder(rs: seq<Result>, qs: seq<Result>)
    requires multiset(rs) == multiset(qs)
    ensures Valid(rs) <==> Valid(qs)
  {
    CountPermutes(rs, qs, IsOwner());
    CountPermutes(rs, qs, IsInvalid());
    CountPermutes(rs, qs, IsSafe());
    assert |rs| == |multiset(rs)| == |multiset(qs)| == |qs|;
    forall name: string ensures CountIn(rs, Named(name)) == CountIn(qs, Named(name)) {
      CountPermutes(rs, qs, Named(name));
    }
    UniqueMeansCountedOnce(rs);
    UniqueMeansCountedOnce(qs);
  }

  predicate SafeNonOwner(r: Result) {
    Adjudicate(r) in {NonOwnerEarlyClaimLost, NonOwnerConfirmRejected} && ProviderSafe(r)
  }

  /** One owner, and every other contender minted and deleted nothing. */
  predicate OneOwner(rs: seq<Result>, i: nat)
    requires i < |rs|
  {
    Adjudicate(rs[i]) == ConfirmedOwner && forall j | 0 <= j < |rs| && j != i :: SafeNonOwner(rs[j])
  }

  lemma ValidMeansOneOwner(rs: seq<Result>)
    ensures Valid(rs) <==> UniqueContenders(rs) && exists i | 0 <= i < |rs| :: OneOwner(rs, i)
  {
    CountsSplit(rs);
    NoneCounted(rs, IsInvalid());
    if Valid(rs) {
      var i := OneIsFound(rs, IsOwner());
      assert forall j | 0 <= j < |rs| :: rs[j] in rs && !IsInvalid()(rs[j]);
      assert OneOwner(rs, i);
    }
    if i :| 0 <= i < |rs| && OneOwner(rs, i) {
      OnlyOneCounts(rs, IsOwner(), i);
      assert forall j | 0 <= j < |rs| :: !IsInvalid()(rs[j]);
    }
  }

  // ---- Results of a race

  function ReplyResult(raw: Option<Raw>): Option<Outcome> {
    if raw.Some? && raw.value.Object? then Some(raw.value.reply.result) else None
  }

  /** The result file of a contender: its evidence. */
  function ResultOf(e: Evidence): Result {
    Result(
      e.contender, ReplyResult(e.claim), e.claimOutcome, e.ownership, e.proposal,
      if e.loadedTarget.Some? then Some(e.loadedTarget.value.claim) else None,
      ReplyResult(e.confirmation),
      if e.confirmation.Some? && e.confirmation.value.Object? then ClaimIdentity(e.confirmation.value.reply.detail) else None,
      Some(e.tokenMinted), Some(e.mintCount), Some(e.destructiveCalls), Some(e.deleteAttempted), Some(e.callsAfterLoss))
  }

  predicate HeardLost(h: T.History) {
    h != [] && h[0].reply.Answer? && h[0].reply.raw.Object? && h[0].reply.raw.reply.result == Lost
  }

  predicate HeardProposed(h: T.History) {
    |h| > 2 && h[0].reply.Answer? && ParseClaimProposal(h[0].reply.raw).Accepted? && h[1].reply.Stored? && h[2].reply.Answer?
  }

  predicate HeardOwner(h: T.History) {
    && HeardProposed(h)
    && ParseClaimConfirmation(h[2].reply.raw).Accepted?
    && ParseClaimConfirmation(h[2].reply.raw).value.claim == ParseClaimProposal(h[0].reply.raw).value
  }

  predicate HeardRejected(h: T.History) {
    HeardProposed(h) && h[2].reply.raw.Object? && h[2].reply.raw.reply.result == NotOwner && h[2].reply.raw.reply.detail == NO_DETAIL
  }

  /** PROPOSED or LOST, then CONFIRMED or NOT_OWNER, each well formed. */
  predicate FairlyHeard(h: T.History) { HeardLost(h) || HeardOwner(h) || HeardRejected(h) }

  function AfterLoss(l: Launch, h: T.History): Evidence
    requires HeardLost(h)
  {
    FreshEvidence(l.contender).(claim := Some(h[0].reply.raw), claimOutcome := Some(ClaimLost))
  }

  function AfterProposal(l: Launch, h: T.History): Evidence
    requires HeardProposed(h)
  {
    FreshEvidence(l.contender).(
      claim := Some(h[0].reply.raw), claimOutcome := Some(ClaimProposed),
      proposal := Some(ParseClaimProposal(h[0].reply.raw).value))
  }

  lemma FirstStep(l: Launch, h: T.History)
    requires l.existing.None? && h != []
    ensures T.At(l, h[..1]) == Step(Launched(l), h[0].reply)
  {
    hide Step;
    assert h[..1][..0] == [] && h[..1][0] == h[0];
    assert T.At(l, h[..1][..0]) == Launched(l);
  }

  lemma LossReported(l: Launch, h: T.History)
    requires l.existing.None? && HeardLost(h) && |h| == 1
    ensures T.At(l, h).evidence == AfterLoss(l, h) && T.At(l, h).pc.Reporting?
  {
    hide StepEffect, StepAftermath, StepVerifier, StepExit;
    FirstStep(l, h);
    assert h[..1] == h;
  }

  lemma {:induction false} LossIsFinal(l: Launch, h: T.History)
    requires l.existing.None? && T.IsHistory(l, h) && HeardLost(h)
    ensures T.At(l, h).evidence == AfterLoss(l, h) && (T.At(l, h).pc.Reporting? || T.At(l, h).pc.Done?)
    decreases |h|
  {
    hide Step;
    if |h| == 1 {
      LossReported(l, h);
    } else {
      LossIsFinal(l, h[..|h| - 1]);
      if !T.At(l, h[..|h| - 1]).pc.Done? {
        ReportingKeepsEvidence(T.At(l, h[..|h| - 1]), h[|h| - 1].reply);
      }
    }
  }

  lemma ProposalStored(l: Launch, h: T.History)
    requires l.existing.None? && HeardProposed(h)
    ensures T.At(l, h[..2]).pc.ConfirmingClaim? && T.At(l, h[..2]).evidence == AfterProposal(l, h)
    ensures T.At(l, h[..2]).claim == Some(ParseClaimProposal(h[0].reply.raw).value)
  {
    hide StepEffect, StepAftermath, StepVerifier, StepExit;
    FirstStep(l, h);
    assert h[..2][..1] == h[..1] && h[..2][1] == h[1];
  }

  function AfterRejection(l: Launch, h: T.History): Evidence
    requires HeardRejected(h)
  {
    AfterProposal(l, h).(confirmation := Some(h[2].reply.raw), ownership := Some(NotTheOwner), claimOutcome := Some(ClaimLost))
  }

  lemma RejectionReported(l: Launch, h: T.History)
    requires l.existing.None? && T.IsHistory(l, h) && HeardRejected(h) && |h| == 3
    ensures T.At(l, h).evidence == AfterRejection(l, h) && T.At(l, h).pc.Reporting?
  {
    hide StepEffect, StepAftermath, StepVerifier, StepExit, T.IsHistory, AfterProposal, ParseClaimProposal;
    ProposalStored(l, h);
    assert h[..|h| - 1] == h[..2];
  }

  lemma ReportingKeepsEvidence(c: Child, r: ChildReply)
    requires c.pc.Reporting?
    ensures Step(c, r).evidence == c.evidence && (Step(c, r).pc.Reporting? || Step(c, r).pc.Done?)
  {
    hide StepEffect, StepAftermath, StepVerifier, StepClaim;
  }

  lemma {:induction false} RejectionIsFinal(l: Launch, h: T.History)
    requires l.existing.None? && T.IsHistory(l, h) && HeardRejected(h)
    ensures T.At(l, h).evidence == AfterRejection(l, h)
    ensures T.At(l, h).pc.Reporting? || T.At(l, h).pc.Done?
    decreases |h|
  {
    hide Step, AfterProposal, ParseClaimProposal;
    if |h| == 3 {
      RejectionReported(l, h);
    } else {
      RejectionIsFinal(l, h[..|h| - 1]);
      assert AfterRejection(l, h[..|h| - 1]) == AfterRejection(l, h) by { SameStart(l, h); }
      if !T.At(l, h[..|h| - 1]).pc.Done? {
        ReportingKeepsEvidence(T.At(l, h[..|h| - 1]), h[|h| - 1].reply);
      }
    }
  }

  lemma SameStart(l: Launch, h: T.History)
    requires HeardRejected(h) && |h| > 3
    ensures HeardRejected(h[..|h| - 1]) && AfterRejection(l, h[..|h| - 1]) == AfterRejection(l, h)
  {
  }

  /** What makes the result an owner's, whatever becomes of the effect. */
  predicate OwnerEvidence(l: Launch, e: Evidence) {
    && e.contender == l.contender
    && e.ownership == Some(OwnerConfirmed) && e.claimOutcome == Some(ClaimWon)
    && e.claim.Some? && e.claim.value.Object? && e.claim.value.reply.result == Proposed
    && e.loadedTarget.Some? && 0 < e.loadedTarget.value.claim.version <= MAX_SAFE_INTEGER
  }

  predicate PastClaim(pc: Pc) { PhaseOf(pc) != ClaimPhase || pc.StoringMismatch? }

  /** The step leaves the claim's story in the evidence as it is. */
  predicate Kept(c: Child, c': Child) {
    && PastClaim(c'.pc)
    && c'.evidence.contender == c.evidence.contender && c'.evidence.ownership == c.evidence.ownership
    && c'.evidence.claimOutcome == c.evidence.claimOutcome && c'.evidence.claim == c.evidence.claim
    && c'.evidence.loadedTarget == c.evidence.loadedTarget
  }

  lemma FailKeeps(c: Child)
    ensures Kept(c, Fail(c))
  {
  }

  lemma ReportKeeps(c: Child)
    ensures Kept(c, Report(c))
  {
  }

  lemma KeptWhileStarting(c: Child, r: ChildReply)
    requires Ready(c) && (c.pc.Installing? || c.pc.Beginning?)
    ensures Kept(c, Step(c, r))
  {
    hide StepClaim, StepAftermath, StepVerifier, StepExit, Fail, Report;
    FailKeeps(c);
    if r.Answer? && r.raw.Object? {
      FailKeeps(c.(start := r.raw.reply.detail.start));
    }
  }

  lemma KeptWhileMinting(c: Child, r: ChildReply)
    requires Ready(c) && (c.pc.ConfirmingStart? || c.pc.MintingEffect?)
    ensures Kept(c, Step(c, r))
  {
    hide StepClaim, StepAftermath, StepVerifier, StepExit, Fail, Report;
    FailKeeps(c);
    if r.Minted? {
      var e := c.evidence.(tokenMinted := r.token.Some?, mintCount := if r.token.Some? then 1 else 0);
      FailKeeps(c.(token := r.token, evidence := e));
    }
  }

  lemma KeptWhileChecking(c: Child, r: ChildReply)
    requires Ready(c) && (c.pc.Scoping? || c.pc.Inspecting?)
    ensures Kept(c, Step(c, r))
  {
    hide StepClaim, StepAftermath, StepVerifier, StepExit;
  }

  lemma KeptWhileDeleting(c: Child, r: ChildReply)
    requires Ready(c) && (c.pc.Surveying? || c.pc.Deleting?)
    ensures Kept(c, Step(c, r))
  {
    hide StepClaim, StepAftermath, StepVerifier, StepExit, ListIsWellFormed, ListContains;
  }

  lemma KeptWhileRereading(c: Child, r: ChildReply)
    requires Ready(c) && (c.pc.Reinspecting? || c.pc.Resurveying?)
    ensures Kept(c, Step(c, r))
  {
    hide StepClaim, StepEffect, StepVerifier, StepExit, ClassifyProviderOutcome, ListIsWellFormed, ListContains;
  }

  lemma KeptWhileRevoking(c: Child, r: ChildReply)
    requires Ready(c) && (c.pc.RevokingEffect? || c.pc.DeclaringUnknown?)
    ensures Kept(c, Step(c, r))
  {
    hide StepClaim, StepEffect, StepVerifier, StepExit, ClassifyProviderOutcome, ListIsWellFormed, ListContains;
  }

  lemma KeptWhileProbing(c: Child, r: ChildReply)
    requires Ready(c) && c.pc.ProbingEffect?
    ensures Kept(c, Step(c, r))
  {
    hide StepClaim, StepEffect, StepVerifier, StepExit, ClassifyProviderOutcome, ListIsWellFormed, ListContains;
  }

  lemma KeptWhileReading(c: Child, r: ChildReply)
    requires Ready(c) && (c.pc.MintingReader? || c.pc.ReaderScoping?)
    ensures Kept(c, Step(c, r))
  {
    hide StepClaim, StepEffect, StepAftermath, StepExit, ListIsWellFormed, ListContains;
  }

  lemma KeptWhileLooking(c: Child, r: ChildReply)
    requires Ready(c) && (c.pc.ReaderInspecting? || c.pc.ReaderSurveying?)
    ensures Kept(c, Step(c, r))
  {
    hide StepClaim, StepEffect, StepAftermath, StepExit, ListIsWellFormed, ListContains;
  }

  lemma KeptWhileClosing(c: Child, r: ChildReply)
    requires Ready(c) && (c.pc.RevokingReader? || c.pc.ProbingReader?)
    ensures Kept(c, Step(c, r))
  {
    hide StepClaim, StepEffect, StepAftermath, StepExit, ListIsWellFormed, ListContains;
  }

  lemma KeptWhileConcluding(c: Child, r: ChildReply)
    requires Ready(c) && c.pc.Concluding?
    ensures Kept(c, Step(c, r))
  {
    hide StepClaim, StepEffect, StepAftermath, StepExit, Fail, Report;
    FailKeeps(c);
    if r.Answer? {
      ReportKeeps(c.(evidence := c.evidence.(reconciled := Some(r.raw), classification := Some(VerifiedAbsent))));
      ReportKeeps(c.(evidence := c.evidence.(finalized := Some(r.raw))));
    }
  }

  lemma KeptWhileUnwinding(c: Child, r: ChildReply)
    requires Ready(c) && (c.pc.Unwinding? || c.pc.UnwindProbing?)
    ensures Kept(c, Step(c, r))
  {
    hide StepEffect, StepAftermath, StepVerifier;
  }

  lemma KeptWhileReporting(c: Child, r: ChildReply)
    requires Ready(c) && (c.pc.Reporting? || c.pc.StoringMismatch?)
    ensures Kept(c, Step(c, r))
  {
    hide StepEffect, StepAftermath, StepVerifier;
  }

  lemma StoryIsKept(c: Child, r: ChildReply)
    requires Ready(c) && !c.pc.Done? && PastClaim(c.pc)
    ensures Kept(c, Step(c, r))
  {
    hide Step, Kept;
    match c.pc {
      case Installing | Beginning => KeptWhileStarting(c, r);
      case ConfirmingStart | MintingEffect => KeptWhileMinting(c, r);
      case Scoping | Inspecting => KeptWhileChecking(c, r);
      case Surveying(_) | Deleting => KeptWhileDeleting(c, r);
      case Reinspecting(_) | Resurveying(_, _) => KeptWhileRereading(c, r);
      case RevokingEffect | DeclaringUnknown => KeptWhileRevoking(c, r);
      case ProbingEffect => KeptWhileProbing(c, r);
      case MintingReader | ReaderScoping => KeptWhileReading(c, r);
      case ReaderInspecting | ReaderSurveying(_) => KeptWhileLooking(c, r);
      case RevokingReader(_) | ProbingReader(_) => KeptWhileClosing(c, r);
      case Concluding => KeptWhileConcluding(c, r);
      case Unwinding | UnwindProbing => KeptWhileUnwinding(c, r);
      case Reporting(_) | StoringMismatch => KeptWhileReporting(c, r);
    }
  }

  lemma OwnershipConfirmed(l: Launch, h: T.History)
    requires l.existing.None? && T.IsHistory(l, h) && HeardOwner(h) && |h| == 3
    ensures OwnerEvidence(l, T.At(l, h).evidence) && PastClaim(T.At(l, h).pc)
  {
    hide StepEffect, StepAftermath, StepVerifier, StepExit, T.IsHistory;
    ProposalStored(l, h);
    assert h[..|h| - 1] == h[..2];
  }

  lemma {:induction false} OwnershipIsFinal(l: Launch, h: T.History)
    requires l.existing.None? && T.IsHistory(l, h) && HeardOwner(h)
    ensures OwnerEvidence(l, T.At(l, h).evidence) && PastClaim(T.At(l, h).pc)
    decreases |h|
  {
    hide Step;
    if |h| == 3 {
      OwnershipConfirmed(l, h);
    } else {
      OwnershipIsFinal(l, h[..|h| - 1]);
      StoryIsKept(T.At(l, h[..|h| - 1]), h[|h| - 1].reply);
    }
  }

  // ---- The verdict on a race

  datatype Contender = Contender(launch: Launch, log: T.History)

  /** A contender that ran to its end and was answered in order. */
  ghost predicate Raced(c: Contender) {
    && c.launch.existing.None? && c.launch.contender != ""
    && T.IsHistory(c.launch, c.log) && T.At(c.launch, c.log).pc.Done? && FairlyHeard(c.log)
  }

  function Final(c: Contender): Result { ResultOf(T.At(c.launch, c.log).evidence) }

  lemma FinalState(c: Contender)
    requires Raced(c)
    ensures Final(c).contender == c.launch.contender
    ensures Adjudicate(Final(c)) == if HeardOwner(c.log) then ConfirmedOwner
                                    else if HeardLost(c.log) then NonOwnerEarlyClaimLost else NonOwnerConfirmRejected
  {
    hide Step;
    if HeardOwner(c.log) {
      OwnershipIsFinal(c.launch, c.log);
    } else if HeardLost(c.log) {
      LossIsFinal(c.launch, c.log);
    } else {
      RejectionIsFinal(c.launch, c.log);
    }
  }

  function Finals(race: seq<Contender>): seq<Result> { seq(|race|, i requires 0 <= i < |race| => Final(race[i])) }

  /** One contender was confirmed, and no other. */
  predicate OneConfirmed(race: seq<Contender>, i: nat)
    requires i < |race|
  {
    HeardOwner(race[i].log) && forall j | 0 <= j < |race| && j != i :: !HeardOwner(race[j].log)
  }

  lemma EveryFinal(race: seq<Contender>)
    requires forall c <- race :: Raced(c)
    ensures |Finals(race)| == |race|
    ensures forall i | 0 <= i < |race| :: Finals(race)[i].contender == race[i].launch.contender
    ensures forall i | 0 <= i < |race| :: Adjudicate(Finals(race)[i]) == ConfirmedOwner <==> HeardOwner(race[i].log)
    ensures forall i | 0 <= i < |race| :: !HeardOwner(race[i].log) <==> SafeNonOwner(Finals(race)[i])
  {
    forall i | 0 <= i < |race|
      ensures Finals(race)[i].contender == race[i].launch.contender
      ensures Adjudicate(Finals(race)[i]) == ConfirmedOwner <==> HeardOwner(race[i].log)
      ensures !HeardOwner(race[i].log) <==> SafeNonOwner(Finals(race)[i])
    {
      hide Final, HeardOwner, HeardLost, Raced, ProviderSafe;
      FinalState(race[i]);
    }
  }

  /** For any number of distinctly named contenders that ran to their end: the results are
      judged valid exactly when one of them, and only one, was confirmed by C1. */
  lemma VerdictAgreesWithTheRace(race: seq<Contender>)
    requires forall c <- race :: Raced(c)
    requires forall i, j | 0 <= i < j < |race| :: race[i].launch.contender != race[j].launch.contender
    ensures Valid(Finals(race)) <==> exists i | 0 <= i < |race| :: OneConfirmed(race, i)
  {
    hide Finals, HeardOwner, Raced, Adjudicate, SafeNonOwner, Valid;
    EveryFinal(race);
    ValidMeansOneOwner(Finals(race));
    if i :| 0 <= i < |race| && OneConfirmed(race, i) {
      assert OneOwner(Finals(race), i);
    }
    if i :| 0 <= i < |race| && OneOwner(Finals(race), i) {
      assert OneConfirmed(race, i);
    }
  }
}
