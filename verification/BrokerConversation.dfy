/** What a broker child must hear, word for word, before it may go on: the conversations that
    lead to its DELETE, and from there to its verdict.

    The predicates here read exchanges only; the lemmas say that the child of BrokerChild is at
    a statement exactly when its whole conversation is the one spelled out. */
module BrokerConversation {
  import opened Domain
  import opened C1 = C1Contract
  import opened BrokerLogic
  import opened BrokerChild
  import opened BrokerTrace

  function Prior(h: History): History
    requires h != []
  {
    h[..|h| - 1]
  }

  predicate EndsWith(h: History, call: ChildCall) { h != [] && h[|h| - 1].call == call }

  function Heard(h: History): ChildReply
    requires h != []
  {
    h[|h| - 1].reply
  }

  // ---- Up to the DELETE

  predicate Safe(n: int) { 0 < n <= 9007199254740991 }

  predicate Proposes(r: ChildReply, c: Claimed) {
    && r.Answer? && r.raw.Object? && r.raw.reply.result == Proposed
    && r.raw.reply.detail == Detail(false, None, None, None, Some(c.id), Some(c.version), None, None, false)
    && Safe(c.version)
  }

  /** The claim was handed over at launch, or proposed by C1 and stored. */
  predicate HasClaim(l: Launch, h: History, c: Claimed) {
    if l.existing.Some? then h == [] && l.existing == Some(c)
    else
      && |h| == 2
      && h[0].call == Invoke(C1.Call(l.broker, l.incident, Claim(l.expectedVersion, l.claimNonce))) && Proposes(h[0].reply, c)
      && h[1].call.Persist? && h[1].call.evidence.proposal == Some(c) && h[1].reply == Stored
  }

  predicate Names(l: Launch, r: ChildReply, c: Claimed, key: int) {
    && r.Answer? && r.raw.Object? && r.raw.reply.result == Confirmed
    && l.owner != "" && l.repo != "" && Safe(key) && Safe(c.version)
    && var d := r.raw.reply.detail;
       && d.revokesDeployKey && d.owner == Some(l.owner) && d.repo == Some(l.repo) && d.keyId == Some(key)
       && d.claim == Some(c.id) && d.claimVersion == Some(c.version)
  }

  /** C1 confirmed that very claim and named a key of the configured repository. */
  predicate HasTarget(l: Launch, h: History, c: Claimed, key: int) {
    && EndsWith(h, Invoke(C1.Call(l.broker, l.incident, ConfirmClaim(c.id)))) && Names(l, Heard(h), c, key)
    && HasClaim(l, Prior(h), c)
  }

  predicate HasInstallation(l: Launch, h: History, c: Claimed, key: int) {
    EndsWith(h, CheckInstallation) && Heard(h) == Http(200) && HasTarget(l, Prior(h), c, key)
  }

  predicate Starts(r: ChildReply, s: StartId) {
    && r.Answer? && r.raw.Object? && r.raw.reply.result == Won && r.raw.reply.op.Begin?
    && r.raw.reply.state == Some(EffectStarted) && r.raw.reply.attempts == Some(1) && r.raw.reply.detail.start == Some(s)
  }

  predicate HasStart(l: Launch, h: History, c: Claimed, key: int, s: StartId) {
    && EndsWith(h, Invoke(C1.Call(l.broker, l.incident, Begin(c.id, l.startNonce)))) && Starts(Heard(h), s)
    && HasInstallation(l, Prior(h), c, key)
  }

  predicate Persisted(r: ChildReply) {
    r.Answer? && r.raw.Object? && r.raw.reply.result == Confirmed && r.raw.reply.op.ConfirmStart?
  }

  predicate HasProvedStart(l: Launch, h: History, c: Claimed, key: int, s: StartId) {
    && EndsWith(h, Invoke(C1.Call(l.broker, l.incident, ConfirmStart(c.id, s)))) && Persisted(Heard(h))
    && HasStart(l, Prior(h), c, key, s)
  }

  /** The claim, the key, the start and the effect token of one conversation. */
  datatype Deed = Deed(claim: Claimed, key: int, start: StartId, token: Token)

  predicate HasToken(l: Launch, h: History, d: Deed) {
    && EndsWith(h, MintEffect) && Heard(h).Minted? && Heard(h).token == Some(d.token)
    && HasProvedStart(l, Prior(h), d.claim, d.key, d.start)
  }

  predicate HasScope(l: Launch, h: History, d: Deed) {
    EndsWith(h, ListRepositories(d.token)) && Heard(h) == Repositories(200, true) && HasToken(l, Prior(h), d)
  }

  /** The key itself: present, under the frozen title, read-only. */
  predicate HasKey(l: Launch, h: History, d: Deed) {
    && EndsWith(h, GetKey(d.token, l.owner, l.repo, d.key)) && Heard(h) == KeyBody(200, Some(d.key), Some(l.title), true)
    && HasScope(l, Prior(h), d)
  }

  predicate Lists(r: ChildReply, key: int) {
    && r.Keys? && r.status == 200 && r.listing.Some? && Some(key) in r.listing.value
    && forall row <- r.listing.value :: row.Some? && row.value > 0
  }

  /** Everything a DELETE needs. */
  predicate MayDelete(l: Launch, h: History, d: Deed) {
    EndsWith(h, ListKeys(d.token, l.owner, l.repo)) && Lists(Heard(h), d.key) && HasKey(l, Prior(h), d)
  }

  // ---- From the DELETE to the verdict

  /** None when the DELETE failed in transport. */
  function Answered(r: ChildReply): Option<int> { if r.Http? then Some(r.status) else None }

  predicate HasDeleted(l: Launch, h: History, d: Deed) {
    EndsWith(h, DeleteKey(d.token, l.owner, l.repo, d.key)) && MayDelete(l, Prior(h), d)
  }

  predicate HasReread(l: Launch, h: History, d: Deed) {
    EndsWith(h, GetKey(d.token, l.owner, l.repo, d.key)) && Heard(h).KeyBody? && HasDeleted(l, Prior(h), d)
  }

  predicate Unlists(r: ChildReply, key: int) {
    && r.Keys? && r.status == 200 && r.listing.Some? && Some(key) !in r.listing.value
    && forall row <- r.listing.value :: row.Some? && row.value > 0
  }

  /** Doubt about the DELETE outweighs what the reads show. */
  function Judged(deleted: Option<int>, gone: bool): Classification {
    if deleted.None? then AttemptedOutcomeUnknown
    else if gone then VerifiedAbsent
    else if deleted == Some(204) then ProviderAcknowledged
    else VerifiedPresent
  }

  /** Both reads were tried; the second only when the first came back. */
  predicate HasOutcome(l: Launch, h: History, d: Deed, o: Classification) {
    || (EndsWith(h, GetKey(d.token, l.owner, l.repo, d.key)) && !Heard(h).KeyBody? && HasDeleted(l, Prior(h), d)
        && o == Judged(Answered(Heard(Prior(h))), false))
    || (EndsWith(h, ListKeys(d.token, l.owner, l.repo)) && HasReread(l, Prior(h), d)
        && o == Judged(Answered(Heard(Prior(Prior(h)))), Heard(Prior(h)).status == 404 && Unlists(Heard(h), d.key)))
  }

  predicate HasRevocation(l: Launch, h: History, d: Deed, o: Classification) {
    EndsWith(h, Revoke(d.token)) && Heard(h) == Http(204) && HasOutcome(l, Prior(h), d, o)
  }

  predicate Refuses(r: ChildReply) { r.Http? && (r.status == 401 || r.status == 403) }

  predicate HasRefusal(l: Launch, h: History, d: Deed, o: Classification) {
    EndsWith(h, Probe(d.token)) && Refuses(Heard(h)) && HasRevocation(l, Prior(h), d, o)
  }

  function Declaration(l: Launch, d: Deed, o: Classification): ChildCall {
    Invoke(C1.Call(l.broker, l.incident, Finalize(d.claim.id, d.start, o)))
  }

  /** The effect token is gone, and a doubt is on record. */
  predicate MayVerify(l: Launch, h: History, d: Deed, o: Classification) {
    || (o == VerifiedAbsent && HasRefusal(l, h, d, o))
    || (o == AttemptedOutcomeUnknown && EndsWith(h, Declaration(l, d, o)) && Heard(h).Answer? && HasRefusal(l, Prior(h), d, o))
  }

  predicate HasReader(l: Launch, h: History, d: Deed, o: Classification, reader: Token) {
    EndsWith(h, MintReader) && Heard(h).Minted? && Heard(h).token == Some(reader) && MayVerify(l, Prior(h), d, o)
  }

  predicate HasReaderScope(l: Launch, h: History, d: Deed, o: Classification, reader: Token) {
    EndsWith(h, ListRepositories(reader)) && Heard(h) == Repositories(200, true) && HasReader(l, Prior(h), d, o, reader)
  }

  predicate HasMissing(l: Launch, h: History, d: Deed, o: Classification, reader: Token) {
    && EndsWith(h, GetKey(reader, l.owner, l.repo, d.key)) && Heard(h).KeyBody? && Heard(h).status == 404
    && HasReaderScope(l, Prior(h), d, o, reader)
  }

  predicate HasUnlisted(l: Launch, h: History, d: Deed, o: Classification, reader: Token) {
    EndsWith(h, ListKeys(reader, l.owner, l.repo)) && Unlists(Heard(h), d.key) && HasMissing(l, Prior(h), d, o, reader)
  }

  predicate HasReaderRevocation(l: Launch, h: History, d: Deed, o: Classification, reader: Token) {
    EndsWith(h, Revoke(reader)) && Heard(h) == Http(204) && HasUnlisted(l, Prior(h), d, o, reader)
  }

  /** Everything the verdict needs. */
  predicate MayConclude(l: Launch, h: History, d: Deed, o: Classification, reader: Token) {
    EndsWith(h, Probe(reader)) && Refuses(Heard(h)) && HasReaderRevocation(l, Prior(h), d, o, reader)
  }

  // ---- Where the child comes from

  // ---- Where the child comes from

  /** The statements that may follow each one; `Leaves` is the finally block or the end. */
  predicate Leaves(pc: Pc) { PhaseOf(pc) == ExitPhase || pc.Done? }

  predicate Follows(before: Pc, pc: Pc) {
    Leaves(pc) ||
    match before {
      case Claiming => pc.StoringProposal?
      case StoringProposal => pc.ConfirmingClaim?
      case ConfirmingClaim => pc.Installing? || pc.StoringMismatch?
      case Installing => pc.Beginning?
      case Beginning => pc.ConfirmingStart?
      case ConfirmingStart => pc.MintingEffect?
      case MintingEffect => pc.Scoping?
      case Scoping => pc.Inspecting?
      case Inspecting => pc.Surveying?
      case Surveying(_) => pc.Deleting?
      case Deleting => pc.Reinspecting?
      case Reinspecting(_) => pc.Resurveying? || pc.RevokingEffect?
      case Resurveying(_, _) => pc.RevokingEffect?
      case RevokingEffect => pc.ProbingEffect?
      case ProbingEffect => pc.DeclaringUnknown? || pc.MintingReader?
      case DeclaringUnknown => pc.MintingReader?
      case MintingReader => pc.ReaderScoping?
      case ReaderScoping => pc.ReaderInspecting? || pc.RevokingReader?
      case ReaderInspecting => pc.ReaderSurveying? || pc.RevokingReader?
      case ReaderSurveying(_) => pc.RevokingReader?
      case RevokingReader(_) => pc.ProbingReader?
      case ProbingReader(_) => pc.Concluding?
      case _ => false
    }
  }

  lemma FailuresLeave()
    ensures forall c: Child :: Leaves(Fail(c).pc) && Leaves(Report(c).pc)
  {
  }

  lemma AfterClaiming(c: Child, r: ChildReply)
    requires Ready(c) && PhaseOf(c.pc) == ClaimPhase
    ensures Follows(c.pc, Step(c, r).pc)
  {
    hide StepEffect, StepAftermath, StepVerifier, StepExit, Fail, Report, ParseClaimProposal, ParseClaimConfirmation, TargetMatchesRepository;
    FailuresLeave();
  }

  lemma AfterStarting(c: Child, r: ChildReply)
    requires Ready(c) && (c.pc.Installing? || c.pc.Beginning? || c.pc.ConfirmingStart? || c.pc.MintingEffect?)
    ensures Follows(c.pc, Step(c, r).pc)
  {
    hide StepClaim, StepAftermath, StepVerifier, StepExit, Fail, Report, StartIsConfirmed, BeginCommitted;
    FailuresLeave();
  }

  lemma AfterChecking(c: Child, r: ChildReply)
    requires Ready(c) && (c.pc.Scoping? || c.pc.Inspecting? || c.pc.Surveying? || c.pc.Deleting?)
    ensures Follows(c.pc, Step(c, r).pc)
  {
    hide StepClaim, StepAftermath, StepVerifier, StepExit, Fail, Report, PresentReadOnly, ListsTarget;
    FailuresLeave();
  }

  lemma AfterDelete(c: Child, r: ChildReply)
    requires Ready(c) && PhaseOf(c.pc) == AftermathPhase
    ensures Follows(c.pc, Step(c, r).pc)
  {
    hide StepClaim, StepEffect, StepVerifier, StepExit, Fail, Report, ClassifyProviderOutcome, ListIsWellFormed, ListContains, RefusedToken;
    FailuresLeave();
  }

  lemma AfterReading(c: Child, r: ChildReply)
    requires Ready(c) && (c.pc.MintingReader? || c.pc.ReaderScoping? || c.pc.ReaderInspecting? || c.pc.ReaderSurveying?)
    ensures Follows(c.pc, Step(c, r).pc)
  {
    hide StepClaim, StepEffect, StepAftermath, StepExit, Fail, Report, OnConclusion, ListIsWellFormed, ListContains;
    FailuresLeave();
  }

  lemma AfterVerifying(c: Child, r: ChildReply)
    requires Ready(c) && (c.pc.RevokingReader? || c.pc.ProbingReader? || c.pc.Concluding?)
    ensures Follows(c.pc, Step(c, r).pc)
  {
    hide StepClaim, StepEffect, StepAftermath, StepExit, Fail, Report, OnReaderList, RefusedToken;
    FailuresLeave();
  }

  lemma AfterLeaving(c: Child, r: ChildReply)
    requires Ready(c) && PhaseOf(c.pc) == ExitPhase
    ensures Follows(c.pc, Step(c, r).pc)
  {
    hide StepClaim, StepEffect, StepAftermath, StepVerifier;
  }

  lemma StepFollows(c: Child, r: ChildReply)
    requires Ready(c) && !c.pc.Done?
    ensures Follows(c.pc, Step(c, r).pc)
  {
    hide Step, Follows;
    match c.pc {
      case Claiming | StoringProposal | ConfirmingClaim | StoringMismatch => AfterClaiming(c, r);
      case Installing | Beginning | ConfirmingStart | MintingEffect => AfterStarting(c, r);
      case Scoping | Inspecting | Surveying(_) | Deleting => AfterChecking(c, r);
      case Reinspecting(_) | Resurveying(_, _) | RevokingEffect | ProbingEffect | DeclaringUnknown => AfterDelete(c, r);
      case MintingReader | ReaderScoping | ReaderInspecting | ReaderSurveying(_) => AfterReading(c, r);
      case RevokingReader(_) | ProbingReader(_) | Concluding => AfterVerifying(c, r);
      case Unwinding | UnwindProbing | Reporting(_) => AfterLeaving(c, r);
    }
  }

  /** The last exchange of a history and the statement it answered. */
  lemma LastStep(l: Launch, h: History)
    requires IsHistory(l, h) && h != []
    ensures IsHistory(l, Prior(h)) && !At(l, Prior(h)).pc.Done?
    ensures h[|h| - 1].call == CallOf(At(l, Prior(h))) && At(l, h) == Step(At(l, Prior(h)), Heard(h))
    ensures Follows(At(l, Prior(h)).pc, At(l, h).pc)
  {
    hide Step, CallOf;
    StepFollows(At(l, Prior(h)), Heard(h));
  }

  // ---- Each statement and its conversation

  lemma AtClaiming(l: Launch, h: History)
    requires IsHistory(l, h)
    ensures At(l, h).pc.Claiming? <==> h == [] && l.existing.None?
    ensures h == [] ==> At(l, h) == Launched(l)
  {
    hide Step, CallOf, IsHistory;
    if h != [] {
      LastStep(l, h);
    }
  }

  lemma AtStoring(l: Launch, h: History, c: Claimed)
    requires IsHistory(l, h)
    ensures At(l, h).pc.StoringProposal? && At(l, h).claim == Some(c) <==>
            && |h| == 1 && l.existing.None?
            && h[0].call == Invoke(C1.Call(l.broker, l.incident, Claim(l.expectedVersion, l.claimNonce))) && Proposes(h[0].reply, c)
    ensures At(l, h).pc.StoringProposal? && At(l, h).claim == Some(c) ==> At(l, h).evidence.proposal == Some(c)
  {
    hide StepEffect, StepAftermath, StepVerifier, StepExit, IsHistory, At;
    if h != [] {
      LastStep(l, h);
    }
    AtClaiming(l, if h == [] then h else Prior(h));
  }

  lemma AtConfirming(l: Launch, h: History, c: Claimed)
    requires IsHistory(l, h)
    ensures At(l, h).pc.ConfirmingClaim? && At(l, h).claim == Some(c) <==> HasClaim(l, h, c)
  {
    hide StepEffect, StepAftermath, StepVerifier, StepExit, OnClaim, OnClaimConfirmation, IsHistory, At, Proposes;
    if h == [] {
      AtClaiming(l, h);
    } else {
      LastStep(l, h);
      AtStoring(l, Prior(h), c);
    }
  }

  function TargetOf(l: Launch, c: Claimed, key: int): Option<ClaimTarget> { Some(ClaimTarget(l.owner, l.repo, key, c)) }

  lemma AtInstalling(l: Launch, h: History, c: Claimed, key: int)
    requires IsHistory(l, h)
    ensures At(l, h).pc.Installing? && At(l, h).target == TargetOf(l, c, key) <==> HasTarget(l, h, c, key)
  {
    hide StepEffect, StepAftermath, StepVerifier, StepExit, OnClaim, IsHistory, At, HasClaim;
    if h == [] {
      AtClaiming(l, h);
    } else {
      LastStep(l, h);
      AtConfirming(l, Prior(h), c);
    }
  }

  lemma AtBeginning(l: Launch, h: History, c: Claimed, key: int)
    requires IsHistory(l, h)
    ensures At(l, h).pc.Beginning? && At(l, h).target == TargetOf(l, c, key) <==> HasInstallation(l, h, c, key)
  {
    hide StepClaim, StepAftermath, StepVerifier, StepExit, OnBegin, OnMintEffect, IsHistory, At, HasTarget;
    if h == [] {
      AtClaiming(l, h);
    } else {
      LastStep(l, h);
      AtInstalling(l, Prior(h), c, key);
    }
  }

  lemma AtConfirmingStart(l: Launch, h: History, c: Claimed, key: int, s: StartId)
    requires IsHistory(l, h)
    ensures At(l, h).pc.ConfirmingStart? && At(l, h).target == TargetOf(l, c, key) && At(l, h).start == Some(s) <==> HasStart(l, h, c, key, s)
  {
    hide StepClaim, StepAftermath, StepVerifier, StepExit, OnMintEffect, IsHistory, At, HasInstallation;
    if h == [] {
      AtClaiming(l, h);
    } else {
      LastStep(l, h);
      AtBeginning(l, Prior(h), c, key);
    }
  }

  lemma AtMinting(l: Launch, h: History, c: Claimed, key: int, s: StartId)
    requires IsHistory(l, h)
    ensures At(l, h).pc.MintingEffect? && At(l, h).target == TargetOf(l, c, key) && At(l, h).start == Some(s) <==> HasProvedStart(l, h, c, key, s)
  {
    hide StepClaim, StepAftermath, StepVerifier, StepExit, OnBegin, OnMintEffect, IsHistory, At, HasStart;
    if h == [] {
      AtClaiming(l, h);
    } else {
      LastStep(l, h);
      AtConfirmingStart(l, Prior(h), c, key, s);
    }
  }

  /** The child's variables are those of this deed. */
  predicate Carries(l: Launch, c: Child, d: Deed) {
    c.target == TargetOf(l, d.claim, d.key) && c.start == Some(d.start) && c.token == Some(d.token)
  }

  lemma AtScoping(l: Launch, h: History, d: Deed)
    requires IsHistory(l, h)
    ensures At(l, h).pc.Scoping? && Carries(l, At(l, h), d) <==> HasToken(l, h, d)
  {
    hide StepClaim, StepAftermath, StepVerifier, StepExit, OnBegin, IsHistory, At, HasProvedStart;
    if h == [] {
      AtClaiming(l, h);
    } else {
      LastStep(l, h);
      AtMinting(l, Prior(h), d.claim, d.key, d.start);
    }
  }

  lemma AtInspecting(l: Launch, h: History, d: Deed)
    requires IsHistory(l, h)
    ensures At(l, h).pc.Inspecting? && Carries(l, At(l, h), d) <==> HasScope(l, h, d)
  {
    hide StepClaim, StepAftermath, StepVerifier, StepExit, OnBegin, OnMintEffect, IsHistory, At, HasToken;
    if h == [] {
      AtClaiming(l, h);
    } else {
      LastStep(l, h);
      AtScoping(l, Prior(h), d);
    }
  }

  lemma AtSurveying(l: Launch, h: History, d: Deed)
    requires IsHistory(l, h)
    ensures At(l, h).pc == Surveying(true) && Carries(l, At(l, h), d) <==> HasKey(l, h, d)
  {
    hide StepClaim, StepAftermath, StepVerifier, StepExit, OnBegin, OnMintEffect, IsHistory, At, HasScope;
    if h == [] {
      AtClaiming(l, h);
    } else {
      LastStep(l, h);
      AtInspecting(l, Prior(h), d);
    }
  }

  lemma AtDeleting(l: Launch, h: History, d: Deed)
    requires IsHistory(l, h)
    ensures At(l, h).pc.Deleting? && Carries(l, At(l, h), d) <==> MayDelete(l, h, d)
  {
    hide StepClaim, StepAftermath, StepVerifier, StepExit, OnBegin, OnMintEffect, IsHistory, At, HasKey;
    if h == [] {
      AtClaiming(l, h);
    } else {
      LastStep(l, h);
      AtSurveying(l, Prior(h), d);
    }
  }

  lemma AtReinspecting(l: Launch, h: History, d: Deed)
    requires IsHistory(l, h)
    ensures At(l, h).pc.Reinspecting? && Carries(l, At(l, h), d) <==> HasDeleted(l, h, d)
    ensures HasDeleted(l, h, d) ==> At(l, h).pc.deleted == Answered(Heard(h))
  {
    hide StepClaim, StepAftermath, StepVerifier, StepExit, IsHistory, At, MayDelete, OnBegin, OnMintEffect;
    if h == [] {
      AtClaiming(l, h);
    } else {
      LastStep(l, h);
      AtDeleting(l, Prior(h), d);
    }
  }

  lemma AtResurveying(l: Launch, h: History, d: Deed)
    requires IsHistory(l, h)
    ensures At(l, h).pc.Resurveying? && Carries(l, At(l, h), d) <==> HasReread(l, h, d)
    ensures HasReread(l, h, d) ==> At(l, h).pc == Resurveying(Answered(Heard(Prior(h))), Heard(h).status)
  {
    hide StepClaim, StepEffect, StepVerifier, StepExit, IsHistory, At, HasDeleted, OnEffectProbe;
    if h == [] {
      AtClaiming(l, h);
    } else {
      LastStep(l, h);
      AtReinspecting(l, Prior(h), d);
    }
  }

  lemma AtRevoking(l: Launch, h: History, d: Deed, o: Classification)
    requires IsHistory(l, h)
    ensures At(l, h).pc.RevokingEffect? && At(l, h).classification == Some(o) && Carries(l, At(l, h), d) <==> HasOutcome(l, h, d, o)
  {
    hide StepClaim, StepEffect, StepVerifier, StepExit, IsHistory, At, HasDeleted, OnEffectProbe;
    if h == [] {
      AtClaiming(l, h);
    } else {
      LastStep(l, h);
      AtReinspecting(l, Prior(h), d);
      AtResurveying(l, Prior(h), d);
    }
  }

  lemma AtProbing(l: Launch, h: History, d: Deed, o: Classification)
    requires IsHistory(l, h)
    ensures At(l, h).pc.ProbingEffect? && At(l, h).classification == Some(o) && Carries(l, At(l, h), d) <==> HasRevocation(l, h, d, o)
  {
    hide StepClaim, StepEffect, StepVerifier, StepExit, IsHistory, At, HasOutcome, OnEffectProbe, Classify;
    if h == [] {
      AtClaiming(l, h);
    } else {
      LastStep(l, h);
      AtRevoking(l, Prior(h), d, o);
    }
  }

  lemma AtDeclaring(l: Launch, h: History, d: Deed)
    requires IsHistory(l, h)
    ensures At(l, h).pc.DeclaringUnknown? && Carries(l, At(l, h), d) <==> HasRefusal(l, h, d, AttemptedOutcomeUnknown)
    ensures At(l, h).pc.DeclaringUnknown? ==> At(l, h).classification == Some(AttemptedOutcomeUnknown)
  {
    hide StepClaim, StepEffect, StepVerifier, StepExit, IsHistory, At, HasRevocation, Classify;
    if h == [] {
      AtClaiming(l, h);
    } else {
      LastStep(l, h);
      AtProbing(l, Prior(h), d, AttemptedOutcomeUnknown);
    }
  }

  lemma AtMintingReader(l: Launch, h: History, d: Deed, o: Classification)
    requires IsHistory(l, h)
    ensures At(l, h).pc.MintingReader? && At(l, h).classification == Some(o) && Carries(l, At(l, h), d) <==> MayVerify(l, h, d, o)
  {
    hide StepClaim, StepEffect, StepVerifier, StepExit, IsHistory, At, HasRevocation, Classify, Fail, Report;
    FailuresLeave();
    if h == [] {
      AtClaiming(l, h);
    } else {
      LastStep(l, h);
      AtProbing(l, Prior(h), d, o);
      AtDeclaring(l, Prior(h), d);
    }
  }

  lemma AtReaderScoping(l: Launch, h: History, d: Deed, o: Classification, reader: Token)
    requires IsHistory(l, h)
    ensures At(l, h).pc.ReaderScoping? && At(l, h).reader == Some(reader) && At(l, h).classification == Some(o) && Carries(l, At(l, h), d) <==> HasReader(l, h, d, o, reader)
  {
    hide StepClaim, StepEffect, StepAftermath, StepExit, IsHistory, At, MayVerify, OnReaderList, OnConclusion;
    if h == [] {
      AtClaiming(l, h);
    } else {
      LastStep(l, h);
      AtMintingReader(l, Prior(h), d, o);
    }
  }

  lemma AtReaderInspecting(l: Launch, h: History, d: Deed, o: Classification, reader: Token)
    requires IsHistory(l, h)
    ensures At(l, h).pc.ReaderInspecting? && At(l, h).reader == Some(reader) && At(l, h).classification == Some(o) && Carries(l, At(l, h), d) <==> HasReaderScope(l, h, d, o, reader)
  {
    hide StepClaim, StepEffect, StepAftermath, StepExit, IsHistory, At, HasReader, OnReaderList, OnConclusion;
    if h == [] {
      AtClaiming(l, h);
    } else {
      LastStep(l, h);
      AtReaderScoping(l, Prior(h), d, o, reader);
    }
  }

  lemma AtReaderSurveying(l: Launch, h: History, d: Deed, o: Classification, reader: Token)
    requires IsHistory(l, h)
    ensures At(l, h).pc == ReaderSurveying(404) && At(l, h).reader == Some(reader) && At(l, h).classification == Some(o) && Carries(l, At(l, h), d) <==> HasMissing(l, h, d, o, reader)
  {
    hide StepClaim, StepEffect, StepAftermath, StepExit, IsHistory, At, HasReaderScope, OnReaderList, OnConclusion;
    if h == [] {
      AtClaiming(l, h);
    } else {
      LastStep(l, h);
      AtReaderInspecting(l, Prior(h), d, o, reader);
    }
  }

  lemma AtRevokingReader(l: Launch, h: History, d: Deed, o: Classification, reader: Token)
    requires IsHistory(l, h)
    ensures At(l, h).pc == RevokingReader(Some(true)) && At(l, h).reader == Some(reader) && At(l, h).classification == Some(o) && Carries(l, At(l, h), d) <==> HasUnlisted(l, h, d, o, reader)
  {
    hide StepClaim, StepEffect, StepAftermath, StepExit, IsHistory, At, HasMissing, OnConclusion;
    if h == [] {
      AtClaiming(l, h);
    } else {
      LastStep(l, h);
      AtReaderSurveying(l, Prior(h), d, o, reader);
    }
  }

  lemma AtProbingReader(l: Launch, h: History, d: Deed, o: Classification, reader: Token)
    requires IsHistory(l, h)
    ensures At(l, h).pc == ProbingReader(Some(true)) && At(l, h).reader == Some(reader) && At(l, h).classification == Some(o) && Carries(l, At(l, h), d) <==> HasReaderRevocation(l, h, d, o, reader)
  {
    hide StepClaim, StepEffect, StepAftermath, StepExit, IsHistory, At, HasUnlisted, OnReaderList, OnConclusion;
    if h == [] {
      AtClaiming(l, h);
    } else {
      LastStep(l, h);
      AtRevokingReader(l, Prior(h), d, o, reader);
    }
  }

  lemma AtConcluding(l: Launch, h: History, d: Deed, o: Classification, reader: Token)
    requires IsHistory(l, h)
    ensures At(l, h).pc.Concluding? && At(l, h).reader == Some(reader) && At(l, h).classification == Some(o) && Carries(l, At(l, h), d) <==> MayConclude(l, h, d, o, reader)
  {
    hide StepClaim, StepEffect, StepAftermath, StepExit, IsHistory, At, HasReaderRevocation, OnReaderList, OnConclusion;
    if h == [] {
      AtClaiming(l, h);
    } else {
      LastStep(l, h);
      AtProbingReader(l, Prior(h), d, o, reader);
    }
  }

  // ---- The promises

  /** What the child carries when it comes to its DELETE. */
  lemma DeedOf(l: Launch, h: History) returns (d: Deed)
    requires IsHistory(l, h) && At(l, h).pc.Deleting?
    ensures Carries(l, At(l, h), d)
  {
    hide IsHistory, At;
    AgreesAlways(l, h);
    var c := At(l, h);
    d := Deed(c.target.value.claim, c.target.value.keyId, c.start.value, c.token.value);
  }

  lemma DeletesHere(c: Child)
    requires Ready(c) && !c.pc.Done?
    ensures CallOf(c).DeleteKey? <==> c.pc.Deleting?
  {
  }

  /** The child's next call is a DELETE exactly when all it has said and heard is this: its
      claim confirmed for a key of the configured repository, the installation found, its start
      begun and confirmed, a token issued, and under that token the repository in scope, the
      key there with the frozen title and read-only, and listed in a well-formed list. */
  lemma DeletesExactly(l: Launch, h: History, call: ChildCall)
    requires IsHistory(l, h) && call.DeleteKey?
    ensures !At(l, h).pc.Done? && CallOf(At(l, h)) == call <==>
            && call.owner == l.owner && call.repo == l.repo
            && exists d: Deed :: d.token == call.token && d.key == call.keyId && MayDelete(l, h, d)
  {
    hide IsHistory, At, MayDelete;
    var c := At(l, h);
    if !c.pc.Done? && CallOf(c) == call {
      DeletesHere(c);
      var d := DeedOf(l, h);
      AtDeleting(l, h, d);
    }
    if d: Deed :| d.token == call.token && d.key == call.keyId && MayDelete(l, h, d) {
      AtDeleting(l, h, d);
    }
  }

  /** Every DELETE of a history stands behind that conversation and goes to its key. */
  ghost predicate DeletesAreDue(l: Launch, h: History) {
    forall n {:trigger h[n]} | 0 <= n < |h| && h[n].call.DeleteKey? ::
      exists d: Deed :: MayDelete(l, h[..n], d) && h[n].call == DeleteKey(d.token, l.owner, l.repo, d.key)
  }

  lemma EveryDeleteIsDue(l: Launch, h: History)
    requires IsHistory(l, h)
    ensures DeletesAreDue(l, h)
  {
    hide IsHistory, At, CallOf, MayDelete;
    forall n {:trigger h[n]} | 0 <= n < |h| && h[n].call.DeleteKey?
      ensures exists d: Deed :: MayDelete(l, h[..n], d) && h[n].call == DeleteKey(d.token, l.owner, l.repo, d.key)
    {
      PrefixIsHistory(l, h, n);
      DeletesExactly(l, h[..n], h[n].call);
    }
  }

  /** One of the three reads before the DELETE, answered as it must be. */
  predicate WellAnswered(l: Launch, h: History, i: nat)
    requires i < |h|
  {
    match h[i].call {
      case ListRepositories(_) => h[i].reply == Repositories(200, true)
      case GetKey(_, _, _, key) => h[i].reply == KeyBody(200, Some(key), Some(l.title), true)
      case ListKeys(_, _, _) => i > 0 && h[i - 1].call.GetKey? && Lists(h[i].reply, h[i - 1].call.keyId)
      case _ => true
    }
  }

  predicate Reads(call: ChildCall) { call.ListRepositories? || call.GetKey? || call.ListKeys? }

  predicate NoReads(h: History) { forall i | 0 <= i < |h| :: !Reads(h[i].call) }

  lemma StillNoReads(h: History)
    requires h != [] && NoReads(Prior(h)) && !Reads(h[|h| - 1].call)
    ensures NoReads(h)
  {
    assert forall i | 0 <= i < |h| - 1 :: h[i] == Prior(h)[i];
  }

  lemma NotRead(h: History, i: nat)
    requires NoReads(h) && i < |h|
    ensures !Reads(h[i].call)
  {
  }

  /** Before the token is issued nothing is read. */
  lemma NothingReadYet(l: Launch, h: History, d: Deed)
    requires HasToken(l, h, d)
    ensures NoReads(h)
  {
    hide NoReads;
    var h1 := Prior(h);
    var h2 := Prior(h1);
    var h3 := Prior(h2);
    var h4 := Prior(h3);
    ClaimReadsNothing(l, Prior(h4), d.claim);
    StillNoReads(h4);
    StillNoReads(h3);
    StillNoReads(h2);
    StillNoReads(h1);
    StillNoReads(h);
  }

  lemma ClaimReadsNothing(l: Launch, h: History, c: Claimed)
    requires HasClaim(l, h, c)
    ensures NoReads(h)
  {
  }

  lemma DeedIsWellAnswered(l: Launch, h: History, d: Deed, i: nat)
    requires MayDelete(l, h, d) && i < |h|
    ensures WellAnswered(l, h, i)
  {
    hide HasToken, NoReads;
    var h1 := Prior(h);
    var h2 := Prior(h1);
    NothingReadYet(l, Prior(h2), d);
    assert h1[|h| - 2] == h[|h| - 2] && h2[|h| - 3] == h[|h| - 3];
    if i < |h| - 3 {
      assert Prior(h2)[i] == h[i];
      NotRead(Prior(h2), i);
    }
  }

  /** After any other answer to one of these reads, the child never sends a DELETE. */
  lemma WrongAnswersEndIt(l: Launch, h: History, i: nat, n: nat, call: ChildCall)
    requires IsHistory(l, h) && i < n <= |h| && !WellAnswered(l, h, i)
    ensures Issues(l, h, n, call) ==> !call.DeleteKey?
  {
    hide IsHistory, At, MayDelete, CallOf, WellAnswered;
    if Issues(l, h, n, call) && call.DeleteKey? {
      PrefixIsHistory(l, h, n);
      DeletesExactly(l, h[..n], call);
      var d: Deed :| d.token == call.token && d.key == call.keyId && MayDelete(l, h[..n], d);
      DeedIsWellAnswered(l, h[..n], d, i);
      AnswersInPrefix(l, h, n, i);
    }
  }

  lemma AnswersInPrefix(l: Launch, h: History, n: nat, i: nat)
    requires i < n <= |h|
    ensures WellAnswered(l, h[..n], i) <==> WellAnswered(l, h, i)
  {
  }

  lemma ConcludesHere(c: Child)
    requires Ready(c) && !c.pc.Done?
    ensures DeclaresAbsent(CallOf(c)) <==> c.pc.Concluding?
    ensures DeclaresUnknown(CallOf(c)) <==> c.pc.DeclaringUnknown?
  {
  }

  lemma VerdictOf(l: Launch, h: History) returns (d: Deed, o: Classification, reader: Token)
    requires IsHistory(l, h) && At(l, h).pc.Concluding?
    ensures Carries(l, At(l, h), d) && At(l, h).classification == Some(o) && At(l, h).reader == Some(reader)
  {
    hide Step, CallOf, IsHistory, At;
    CarriesOn(l, h);
    var c := At(l, h);
    AgreesAlways(l, h);
    d := Deed(c.target.value.claim, c.target.value.keyId, c.start.value, c.token.value);
    o, reader := c.classification.value, c.reader.value;
  }

  /** Past the DELETE the token is still held, and past its outcome the outcome. */
  predicate Equipped(c: Child) {
    && (PhaseOf(c.pc) in {AftermathPhase, VerifierPhase} ==> c.token.Some?)
    && (PhaseOf(c.pc) in {AftermathPhase, VerifierPhase} && !c.pc.Reinspecting? && !c.pc.Resurveying? ==> c.classification.Some?)
    && (c.pc.Concluding? ==> c.reader.Some?)
  }

  lemma StepEquips(c: Child, r: ChildReply)
    requires Ready(c) && !c.pc.Done? && Equipped(c)
    ensures Equipped(Step(c, r))
  {
    hide Step, CallOf;
    StepFollows(c, r);
    if c.pc.Deleting? || c.pc.Reinspecting? || c.pc.Resurveying? {
      RereadKeepsEquipment(c, r);
    } else if PhaseOf(c.pc) == AftermathPhase {
      CleanupKeepsEquipment(c, r);
    } else if PhaseOf(c.pc) == VerifierPhase && !c.pc.Concluding? {
      VerifierKeepsEquipment(c, r);
    }
  }

  lemma RereadKeepsEquipment(c: Child, r: ChildReply)
    requires Ready(c) && (c.pc.Deleting? || c.pc.Reinspecting? || c.pc.Resurveying?)
    ensures Equipped(Step(c, r))
  {
    hide StepClaim, StepVerifier, StepExit, OnBegin, OnMintEffect, OnEffectProbe, Fail, Report, ClassifyProviderOutcome, ListIsWellFormed, ListContains;
  }

  lemma CleanupKeepsEquipment(c: Child, r: ChildReply)
    requires Ready(c) && Equipped(c) && (c.pc.RevokingEffect? || c.pc.ProbingEffect? || c.pc.DeclaringUnknown?)
    ensures Equipped(Step(c, r))
  {
    hide StepClaim, StepEffect, StepVerifier, StepExit, Fail, Report, Classify, RefusedToken;
    FailuresLeave();
  }

  lemma VerifierKeepsEquipment(c: Child, r: ChildReply)
    requires Ready(c) && Equipped(c) && PhaseOf(c.pc) == VerifierPhase && !c.pc.Concluding?
    ensures Equipped(Step(c, r))
  {
    hide StepClaim, StepEffect, StepAftermath, StepExit, OnConclusion, Fail, Report, ListIsWellFormed, ListContains, RefusedToken;
    FailuresLeave();
  }

  lemma {:induction false} CarriesOn(l: Launch, h: History)
    requires IsHistory(l, h)
    ensures Equipped(At(l, h))
    decreases |h|
  {
    hide Step, CallOf, Equipped;
    if h == [] {
      LaunchedEquipped(l);
    } else {
      CarriesOn(l, Prior(h));
      StepEquips(At(l, Prior(h)), Heard(h));
    }
  }

  lemma LaunchedEquipped(l: Launch)
    ensures Equipped(Launched(l))
  {
  }

  /** VERIFIED_ABSENT is declared exactly after this: the DELETE, the reads and the end of the
      effect token; in doubt, the declared UNKNOWN; then a separate token in scope that saw a
      404 and a list without the key, revoked and refused.  In doubt it reconciles, otherwise
      it finalizes. */
  lemma ConcludesExactly(l: Launch, h: History, call: ChildCall)
    requires IsHistory(l, h) && DeclaresAbsent(call)
    ensures !At(l, h).pc.Done? && CallOf(At(l, h)) == call <==>
            exists d, o, reader ::
              && MayConclude(l, h, d, o, reader)
              && call == Invoke(C1.Call(l.broker, l.incident,
                                        if o == AttemptedOutcomeUnknown then Reconcile(d.claim.id, d.start, VerifiedAbsent)
                                        else Finalize(d.claim.id, d.start, VerifiedAbsent)))
  {
    hide IsHistory, At, MayConclude;
    var c := At(l, h);
    if !c.pc.Done? && CallOf(c) == call {
      ConcludesHere(c);
      var d, o, reader := VerdictOf(l, h);
      AtConcluding(l, h, d, o, reader);
    }
    if d, o, reader :|
      && MayConclude(l, h, d, o, reader)
      && call == Invoke(C1.Call(l.broker, l.incident,
                                if o == AttemptedOutcomeUnknown then Reconcile(d.claim.id, d.start, VerifiedAbsent)
                                else Finalize(d.claim.id, d.start, VerifiedAbsent)))
    {
      AtConcluding(l, h, d, o, reader);
    }
  }

  /** UNKNOWN is declared exactly when the DELETE failed in transport and its token was then
      revoked and refused, whatever the two reads in between showed. */
  lemma DoubtsExactly(l: Launch, h: History, call: ChildCall)
    requires IsHistory(l, h) && DeclaresUnknown(call)
    ensures !At(l, h).pc.Done? && CallOf(At(l, h)) == call <==>
            exists d: Deed :: HasRefusal(l, h, d, AttemptedOutcomeUnknown) && call == Declaration(l, d, AttemptedOutcomeUnknown)
  {
    hide IsHistory, At, HasRefusal;
    var c := At(l, h);
    if !c.pc.Done? && CallOf(c) == call {
      ConcludesHere(c);
      CarriesOn(l, h);
      AgreesAlways(l, h);
      var d := Deed(c.target.value.claim, c.target.value.keyId, c.start.value, c.token.value);
      AtDeclaring(l, h, d);
    }
    if d: Deed :| HasRefusal(l, h, d, AttemptedOutcomeUnknown) && call == Declaration(l, d, AttemptedOutcomeUnknown) {
      AtDeclaring(l, h, d);
    }
  }

  // ---- What the result file says

  /** What a history shows of the effect: the last answers to begin and to the mint, whether the
      start was confirmed and whether a DELETE was sent. */
  datatype Facts = Facts(started: Option<StartId>, confirmed: bool, minted: bool, deleted: bool)

  function Noted(f: Facts, x: Exchange): Facts {
    Facts(
      if x.call.Invoke? && x.call.call.op.Begin? && x.reply.Answer? && x.reply.raw.Object? then x.reply.raw.reply.detail.start else f.started,
      f.confirmed || (x.call.Invoke? && x.call.call.op.ConfirmStart? && Persisted(x.reply)),
      if x.call.MintEffect? && x.reply.Minted? then x.reply.token.Some? else f.minted,
      f.deleted || x.call.DeleteKey?)
  }

  function FactsOf(h: History): Facts {
    if h == [] then Facts(None, false, false, false) else Noted(FactsOf(Prior(h)), h[|h| - 1])
  }

  /** The evidence says just that. */
  predicate Tells(e: Evidence, f: Facts) {
    && e.startConfirmed == f.confirmed
    && e.tokenMinted == f.minted && e.mintCount == (if f.minted then 1 else 0)
    && e.deleteAttempted == f.deleted && e.destructiveCalls == (if f.deleted then 1 else 0)
    && e.callsAfterLoss == 0
  }

  /** What was classified is reported, as VERIFIED_ABSENT once a doubt was reconciled; with nothing
      to classify, NOT_ATTEMPTED is reported only where neither begin nor DELETE was sent. */
  predicate Classifies(c: Child) {
    if c.classification.Some? then
      || c.evidence.classification == c.classification
      || (c.classification == Some(AttemptedOutcomeUnknown) && c.evidence.reconciled.Some? && c.evidence.classification == Some(VerifiedAbsent))
    else c.evidence.classification in {None, Some(NotAttempted)} && (c.evidence.classification.Some? ==> !c.beginSent && !c.deleteSent)
  }

  predicate Truthful(c: Child, f: Facts) {
    && Tells(c.evidence, f) && c.start == f.started && Classifies(c)
    && (PhaseOf(c.pc) == ClaimPhase ==> f.started.None? && c.evidence.start.None?)
    && (PhaseOf(c.pc) in {ClaimPhase, EffectPhase} ==> c.evidence.classification.None? && c.classification.None?)
    && (c.pc.Reporting? || c.pc.Done? ==> c.evidence.start == f.started)
  }

  lemma ReportTells(c: Child, f: Facts)
    requires Tells(c.evidence, f) && c.start == f.started && Classifies(c)
    ensures Truthful(Report(c), f)
  {
  }

  lemma FailureTells(c: Child, f: Facts)
    requires Tells(c.evidence, f) && c.start == f.started && Classifies(c)
    ensures Truthful(Fail(c), f)
  {
    hide Report;
    ReportTells(c, f);
    if !c.beginSent && !c.deleteSent && c.evidence.classification.None? {
      ReportTells(c.(evidence := c.evidence.(classification := Some(NotAttempted))), f);
    }
  }

  /** Only four statements make a call that is noted. */
  lemma QuietCalls(c: Child, f: Facts, r: ChildReply)
    requires Ready(c) && !c.pc.Done?
    ensures Noted(f, Exchange(CallOf(c), r)) == f || c.pc.Beginning? || c.pc.ConfirmingStart? || c.pc.MintingEffect? || c.pc.Deleting?
  {
  }

  lemma TruthInClaiming(c: Child, f: Facts, r: ChildReply)
    requires Ready(c) && (c.pc.Claiming? || c.pc.StoringProposal?) && Truthful(c, f)
    ensures Truthful(Step(c, r), f)
  {
    hide StepEffect, StepAftermath, StepVerifier, StepExit, OnClaimConfirmation, ParseClaimProposal;
  }

  predicate SameDeeds(e: Evidence, e': Evidence) {
    && e'.startConfirmed == e.startConfirmed && e'.start == e.start && e'.callsAfterLoss == e.callsAfterLoss
    && e'.tokenMinted == e.tokenMinted && e'.mintCount == e.mintCount
    && e'.deleteAttempted == e.deleteAttempted && e'.destructiveCalls == e.destructiveCalls
    && e'.classification == e.classification
  }

  lemma ConfirmingDoesNothing(c: Child, r: ChildReply)
    requires c.claim.Some?
    ensures SameDeeds(c.evidence, OnClaimConfirmation(c, r).evidence)
    ensures OnClaimConfirmation(c, r).start == c.start && OnClaimConfirmation(c, r).classification == c.classification
  {
    hide ParseClaimConfirmation, TargetMatchesRepository;
    if r.Answer? {
      match ParseClaimConfirmation(r.raw) {
        case Malformed =>
        case Refused =>
        case Accepted(target) =>
      }
    }
  }

  lemma TruthInConfirming(c: Child, f: Facts, r: ChildReply)
    requires Ready(c) && c.pc.ConfirmingClaim? && Truthful(c, f)
    ensures Truthful(Step(c, r), f)
  {
    hide StepEffect, StepAftermath, StepVerifier, StepExit, Fail, Report, OnClaim, OnClaimConfirmation;
    ConfirmingDoesNothing(c, r);
  }

  lemma TruthInMismatch(c: Child, f: Facts, r: ChildReply)
    requires Ready(c) && c.pc.StoringMismatch? && Truthful(c, f)
    ensures Truthful(Step(c, r), f)
  {
    hide StepEffect, StepAftermath, StepVerifier, StepExit, Fail, Report, OnClaim, OnClaimConfirmation;
    FailureTells(c, f);
  }

  lemma TruthInBeginning(c: Child, f: Facts, r: ChildReply)
    requires Ready(c) && c.pc.Beginning? && Truthful(c, f)
    ensures Truthful(Step(c, r), Noted(f, Exchange(CallOf(c), r)))
  {
    hide StepClaim, StepAftermath, StepVerifier, StepExit, Fail, Report, OnMintEffect, BeginCommitted;
    FailureTells(c, f);
    if r.Answer? && r.raw.Object? {
      FailureTells(c.(start := r.raw.reply.detail.start), Noted(f, Exchange(CallOf(c), r)));
    }
  }

  lemma TruthInProving(c: Child, f: Facts, r: ChildReply)
    requires Ready(c) && c.pc.ConfirmingStart? && Truthful(c, f)
    ensures Truthful(Step(c, r), Noted(f, Exchange(CallOf(c), r)))
  {
    hide StepClaim, StepAftermath, StepVerifier, StepExit, Fail, Report, OnBegin, OnMintEffect;
    FailureTells(c, f);
  }

  lemma TruthInMinting(c: Child, f: Facts, r: ChildReply)
    requires Ready(c) && c.pc.MintingEffect? && Truthful(c, f)
    ensures Truthful(Step(c, r), Noted(f, Exchange(CallOf(c), r)))
  {
    hide StepClaim, StepAftermath, StepVerifier, StepExit, Fail, Report, OnBegin;
    FailureTells(c, f);
    if r.Minted? {
      var e := c.evidence.(tokenMinted := r.token.Some?, mintCount := if r.token.Some? then 1 else 0);
      FailureTells(c.(token := r.token, evidence := e), Noted(f, Exchange(CallOf(c), r)));
    }
  }

  lemma TruthInDeleting(c: Child, f: Facts, r: ChildReply)
    requires Ready(c) && c.pc.Deleting? && Truthful(c, f)
    ensures Truthful(Step(c, r), Noted(f, Exchange(CallOf(c), r)))
  {
    hide StepClaim, StepAftermath, StepVerifier, StepExit, Fail, Report, OnBegin, OnMintEffect;
  }

  lemma TruthInChecking(c: Child, f: Facts, r: ChildReply)
    requires Ready(c) && (c.pc.Installing? || c.pc.Scoping? || c.pc.Inspecting? || c.pc.Surveying?) && Truthful(c, f)
    ensures Truthful(Step(c, r), f)
  {
    hide StepClaim, StepAftermath, StepVerifier, StepExit, Fail, Report, OnBegin, OnMintEffect, PresentReadOnly, ListsTarget;
    FailureTells(c, f);
  }

  lemma TruthInReread(c: Child, f: Facts, r: ChildReply)
    requires Ready(c) && (c.pc.Reinspecting? || c.pc.Resurveying?) && Truthful(c, f)
    ensures Truthful(Step(c, r), f)
  {
    hide StepClaim, StepEffect, StepVerifier, StepExit, Fail, Report, OnEffectProbe, ClassifyProviderOutcome, ListIsWellFormed, ListContains;
  }

  lemma TruthInCleanup(c: Child, f: Facts, r: ChildReply)
    requires Ready(c) && (c.pc.RevokingEffect? || c.pc.ProbingEffect? || c.pc.DeclaringUnknown?) && Truthful(c, f)
    ensures Truthful(Step(c, r), f)
  {
    hide StepClaim, StepEffect, StepVerifier, StepExit, Fail, Report, Classify, RefusedToken;
    FailureTells(c, f);
    FailureTells(c.(cleaned := true), f);
  }

  lemma TruthInReading(c: Child, f: Facts, r: ChildReply)
    requires Ready(c) && (c.pc.MintingReader? || c.pc.ReaderScoping? || c.pc.ReaderInspecting? || c.pc.ReaderSurveying?) && Truthful(c, f)
    ensures Truthful(Step(c, r), f)
  {
    hide StepClaim, StepEffect, StepAftermath, StepExit, Fail, Report, OnConclusion, ListIsWellFormed, ListContains;
    FailureTells(c, f);
  }

  lemma TruthInVerifying(c: Child, f: Facts, r: ChildReply)
    requires Ready(c) && (c.pc.RevokingReader? || c.pc.ProbingReader?) && Truthful(c, f)
    ensures Truthful(Step(c, r), f)
  {
    hide StepClaim, StepEffect, StepAftermath, StepExit, Fail, Report, OnConclusion, OnReaderList, RefusedToken;
    FailureTells(c, f);
  }

  lemma TruthInConcluding(c: Child, f: Facts, r: ChildReply)
    requires Ready(c) && c.pc.Concluding? && Truthful(c, f)
    ensures Truthful(Step(c, r), f)
  {
    hide StepClaim, StepEffect, StepAftermath, StepExit, Fail, Report, OnReaderList, RefusedToken;
    FailureTells(c, f);
    if r.Answer? {
      if c.classification == Some(AttemptedOutcomeUnknown) {
        ReportTells(c.(evidence := c.evidence.(reconciled := Some(r.raw), classification := Some(VerifiedAbsent))), f);
      } else {
        ReportTells(c.(evidence := c.evidence.(finalized := Some(r.raw))), f);
      }
    }
  }

  lemma TruthInLeaving(c: Child, f: Facts, r: ChildReply)
    requires Ready(c) && PhaseOf(c.pc) == ExitPhase && Truthful(c, f)
    ensures Truthful(Step(c, r), f)
  {
    hide StepClaim, StepEffect, StepAftermath, StepVerifier, Report;
    ReportTells(c, f);
  }

  lemma TruthStep(c: Child, f: Facts, r: ChildReply)
    requires Ready(c) && !c.pc.Done? && Truthful(c, f)
    ensures Truthful(Step(c, r), Noted(f, Exchange(CallOf(c), r)))
  {
    hide Step, CallOf, Noted, Truthful;
    QuietCalls(c, f, r);
    match c.pc {
      case Claiming | StoringProposal => TruthInClaiming(c, f, r);
      case ConfirmingClaim => TruthInConfirming(c, f, r);
      case StoringMismatch => TruthInMismatch(c, f, r);
      case Beginning => TruthInBeginning(c, f, r);
      case ConfirmingStart => TruthInProving(c, f, r);
      case MintingEffect => TruthInMinting(c, f, r);
      case Deleting => TruthInDeleting(c, f, r);
      case Installing | Scoping | Inspecting | Surveying(_) => TruthInChecking(c, f, r);
      case Reinspecting(_) | Resurveying(_, _) => TruthInReread(c, f, r);
      case RevokingEffect | ProbingEffect | DeclaringUnknown => TruthInCleanup(c, f, r);
      case MintingReader | ReaderScoping | ReaderInspecting | ReaderSurveying(_) => TruthInReading(c, f, r);
      case RevokingReader(_) | ProbingReader(_) => TruthInVerifying(c, f, r);
      case Concluding => TruthInConcluding(c, f, r);
      case Unwinding | UnwindProbing | Reporting(_) => TruthInLeaving(c, f, r);
    }
  }

  lemma {:induction false} TruthAlways(l: Launch, h: History)
    requires IsHistory(l, h)
    ensures Truthful(At(l, h), FactsOf(h))
    decreases |h|
  {
    hide Step, CallOf, Noted, Truthful;
    if h == [] {
      TruthAtFirst(l);
    } else {
      TruthAlways(l, Prior(h));
      TruthStep(At(l, Prior(h)), FactsOf(Prior(h)), Heard(h));
    }
  }

  lemma TruthAtFirst(l: Launch)
    ensures Truthful(Launched(l), Facts(None, false, false, false))
  {
  }

  /** The result a finished child leaves says whether its start was confirmed, a token issued
      and a DELETE sent, which start C1 had answered, and how the outcome was classified. */
  lemma ResultTells(l: Launch, h: History)
    requires IsHistory(l, h) && At(l, h).pc.Done?
    ensures Tells(At(l, h).evidence, FactsOf(h)) && At(l, h).evidence.start == FactsOf(h).started && Classifies(At(l, h))
  {
    hide IsHistory, At;
    TruthAlways(l, h);
  }

  /** A claim that is not proposed is reported as lost, denied or not proposed, as C1 said. */
  lemma RefusalsAreTold(l: Launch, h: History)
    requires IsHistory(l, h) && |h| == 1 && l.existing.None? && Heard(h).Answer? && Heard(h).raw.Object? && Heard(h).raw.reply.result != Proposed
    ensures !At(l, h).pc.Done? && CallOf(At(l, h)) == Persist(At(l, h).evidence) && At(l, h).evidence.claim == Some(Heard(h).raw)
    ensures At(l, h).evidence.claimOutcome ==
              Some(if Heard(h).raw.reply.result == Lost then ClaimLost else if Heard(h).raw.reply.result == Denied then ClaimDenied else ClaimNotProposed)
  {
    hide StepEffect, StepAftermath, StepVerifier, StepExit, OnClaimConfirmation, IsHistory, At;
    LastStep(l, h);
    AtClaiming(l, Prior(h));
  }

  /** A token whose revocation was answered 204 is probed at once, whoever held it. */
  lemma RevokedTokensAreProbed(l: Launch, h: History, token: Token)
    requires IsHistory(l, h) && EndsWith(h, Revoke(token)) && Heard(h) == Http(204)
    ensures !At(l, h).pc.Done? && CallOf(At(l, h)) == Probe(token)
  {
    hide IsHistory, At, StepClaim, StepEffect, OnEffectProbe, Classify, OnReaderList, OnConclusion;
    LastStep(l, h);
  }
}
