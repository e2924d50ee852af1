/** One broker child process: winner/broker/run.ts as a machine that makes one call at a
    time and moves on whatever the reply is.

    `CallOf` is the call a child is about to make, `Step` is where a reply takes it.  A
    reply of `Threw` stands for every rejected promise.  The machine is what the whole-system
    model interleaves; RunBroker.dfy proves the imperative program to be one. */
module BrokerChild {
  import opened Domain
  import opened C1 = C1Contract
  import opened BrokerLogic

  type Token = nat

  /** The environment of one child and the random nonces it draws. */
  datatype Launch = Launch(
    incident: IncidentId, broker: Did, expectedVersion: nat, existing: Option<Claimed>,
    title: string, owner: string, repo: string, contender: string,
    claimNonce: Nonce, startNonce: Nonce)

  datatype ClaimOutcome = ClaimLost | ClaimDenied | ClaimNotProposed | ClaimProposed | ClaimWon | ExistingClaimRecovery
  datatype Ownership = OwnerConfirmed | NotTheOwner

  /** The part of the evidence object that decides anything. */
  datatype Evidence = Evidence(
    contender: string,
    claim: Option<Raw>,
    claimOutcome: Option<ClaimOutcome>,
    proposal: Option<Claimed>,
    confirmation: Option<Raw>,
    ownership: Option<Ownership>,
    loadedTarget: Option<ClaimTarget>,
    startConfirmed: bool,
    start: Option<StartId>,
    tokenMinted: bool,
    mintCount: nat,
    deleteAttempted: bool,
    destructiveCalls: nat,
    callsAfterLoss: nat,
    classification: Option<Classification>,
    finalized: Option<Raw>,
    reconciled: Option<Raw>)

  function FreshEvidence(contender: string): Evidence {
    Evidence(contender, None, None, None, None, None, None, false, None, false, 0, false, 0, 0, None, None, None)
  }

  datatype ChildCall =
    | Invoke(call: C1.Call)
    | CheckInstallation
    | MintEffect
    | MintReader
    | ListRepositories(token: Token)
    | GetKey(token: Token, owner: string, repo: string, keyId: int)
    | ListKeys(token: Token, owner: string, repo: string)
    | DeleteKey(token: Token, owner: string, repo: string, keyId: int)
    | Revoke(token: Token)
    | Probe(token: Token)
    | Persist(evidence: Evidence)

  datatype ChildReply =
    | Threw
    | Answer(raw: Raw)
    | Http(status: int)
    | Minted(status: int, token: Option<Token>)
    | Repositories(status: int, scoped: bool)
    | KeyBody(status: int, id: Option<int>, title: Option<string>, readOnly: bool)
    | Keys(status: int, listing: KeyListing)
    | Stored

  datatype Exchange = Exchange(call: ChildCall, reply: ChildReply)

  /** Where the program is.  Constructors carry the locals of their own statement. */
  datatype Pc =
    | Claiming
    | StoringProposal
    | ConfirmingClaim
    | StoringMismatch
    | Installing
    | Beginning
    | ConfirmingStart
    | MintingEffect
    | Scoping
    | Inspecting
    | Surveying(exactOk: bool)
    | Deleting
    | Reinspecting(deleted: Option<int>)
    | Resurveying(deleted: Option<int>, exact: int)
    | RevokingEffect
    | ProbingEffect
    | DeclaringUnknown
    | MintingReader
    | ReaderScoping
    | ReaderInspecting
    | ReaderSurveying(exact: int)
    | RevokingReader(absent: Option<bool>)
    | ProbingReader(absent: Option<bool>)
    | Concluding
    | Unwinding
    | UnwindProbing
    | Reporting(left: nat)
    | Done

  datatype Child = Child(
    launch: Launch, pc: Pc, evidence: Evidence,
    claim: Option<Claimed>, target: Option<ClaimTarget>, start: Option<StartId>,
    token: Option<Token>, cleaned: bool, reader: Option<Token>,
    beginSent: bool, deleteSent: bool, classification: Option<Classification>)

  function Launched(launch: Launch): Child {
    var evidence := FreshEvidence(launch.contender);
    match launch.existing {
      case None => Child(launch, Claiming, evidence, None, None, None, None, false, None, false, false, None)
      case Some(claimed) =>
        Child(launch, ConfirmingClaim, evidence.(claimOutcome := Some(ExistingClaimRecovery), proposal := Some(claimed)),
              Some(claimed), None, None, None, false, None, false, false, None)
    }
  }

  datatype Phase = ClaimPhase | EffectPhase | AftermathPhase | VerifierPhase | ExitPhase | Over

  function PhaseOf(pc: Pc): Phase {
    match pc {
      case Claiming | StoringProposal | ConfirmingClaim | StoringMismatch => ClaimPhase
      case Installing | Beginning | ConfirmingStart | MintingEffect | Scoping | Inspecting | Surveying(_) | Deleting => EffectPhase
      case Reinspecting(_) | Resurveying(_, _) | RevokingEffect | ProbingEffect | DeclaringUnknown => AftermathPhase
      case MintingReader | ReaderScoping | ReaderInspecting | ReaderSurveying(_) | RevokingReader(_) | ProbingReader(_) | Concluding => VerifierPhase
      case Unwinding | UnwindProbing | Reporting(_) => ExitPhase
      case Done => Over
    }
  }

  /** The locals a statement reads are set whenever the program is there. */
  predicate Ready(c: Child) {
    match c.pc {
      case Claiming | StoringMismatch | Reporting(_) | Done => true
      case StoringProposal | ConfirmingClaim => c.claim.Some?
      case Installing | Beginning => c.target.Some?
      case ConfirmingStart | MintingEffect | DeclaringUnknown | MintingReader | Concluding => c.target.Some? && c.start.Some?
      case Scoping | Inspecting | Surveying(_) | Deleting | Reinspecting(_) | Resurveying(_, _) | RevokingEffect | ProbingEffect =>
        c.target.Some? && c.start.Some? && c.token.Some?
      case ReaderScoping | ReaderInspecting | ReaderSurveying(_) | RevokingReader(_) | ProbingReader(_) =>
        c.target.Some? && c.start.Some? && c.reader.Some?
      case Unwinding | UnwindProbing => c.token.Some?
    }
  }

  function Ask(c: Child, op: Op): ChildCall { Invoke(C1.Call(c.launch.broker, c.launch.incident, op)) }

  /** The call a child is about to make. */
  function CallOf(c: Child): ChildCall
    requires Ready(c) && !c.pc.Done?
  {
    var l := c.launch;
    match c.pc {
      case Claiming => Ask(c, Claim(l.expectedVersion, l.claimNonce))
      case StoringProposal => Persist(c.evidence)
      case ConfirmingClaim => Ask(c, ConfirmClaim(c.claim.value.id))
      case StoringMismatch => Persist(c.evidence)
      case Installing => CheckInstallation
      case Beginning => Ask(c, Begin(c.target.value.claim.id, l.startNonce))
      case ConfirmingStart => Ask(c, ConfirmStart(c.target.value.claim.id, c.start.value))
      case MintingEffect => MintEffect
      case Scoping => ListRepositories(c.token.value)
      case Inspecting => GetKey(c.token.value, l.owner, l.repo, c.target.value.keyId)
      case Surveying(_) => ListKeys(c.token.value, l.owner, l.repo)
      case Deleting => DeleteKey(c.token.value, l.owner, l.repo, c.target.value.keyId)
      case Reinspecting(_) => GetKey(c.token.value, l.owner, l.repo, c.target.value.keyId)
      case Resurveying(_, _) => ListKeys(c.token.value, l.owner, l.repo)
      case RevokingEffect => Revoke(c.token.value)
      case ProbingEffect => Probe(c.token.value)
      case DeclaringUnknown => Ask(c, Finalize(c.target.value.claim.id, c.start.value, AttemptedOutcomeUnknown))
      case MintingReader => MintReader
      case ReaderScoping => ListRepositories(c.reader.value)
      case ReaderInspecting => GetKey(c.reader.value, l.owner, l.repo, c.target.value.keyId)
      case ReaderSurveying(_) => ListKeys(c.reader.value, l.owner, l.repo)
      case RevokingReader(_) => Revoke(c.reader.value)
      case ProbingReader(_) => Probe(c.reader.value)
      case Concluding =>
        if c.classification == Some(AttemptedOutcomeUnknown)
        then Ask(c, Reconcile(c.target.value.claim.id, c.start.value, VerifiedAbsent))
        else Ask(c, Finalize(c.target.value.claim.id, c.start.value, VerifiedAbsent))
      case Unwinding => Revoke(c.token.value)
      case UnwindProbing => Probe(c.token.value)
      case Reporting(_) => Persist(c.evidence)
    }
  }

  // ---- Where a reply takes the program

  predicate RefusedToken(status: int) { status == 401 || status == 403 }

  /** Leaving the effect block: the evidence gets its start id and is persisted. */
  function Report(c: Child): (c': Child)
    ensures Ready(c') && c'.launch == c.launch
  {
    c.(pc := Reporting(1), evidence := c.evidence.(start := c.start))
  }

  /** The catch and finally blocks of the effect. */
  function Fail(c: Child): (c': Child)
    ensures Ready(c') && c'.launch == c.launch
  {
    var evidence :=
      if !c.beginSent && !c.deleteSent && c.evidence.classification.None?
      then c.evidence.(classification := Some(NotAttempted)) else c.evidence;
    var caught := c.(evidence := evidence);
    if c.token.Some? && !c.cleaned then caught.(pc := Unwinding) else Report(caught)
  }

  function OnClaim(c: Child, r: ChildReply): (c': Child)
    ensures Ready(c') && c'.launch == c.launch
  {
    if !r.Answer? then c.(pc := Reporting(1))
    else
      var e := c.evidence.(claim := Some(r.raw));
      match ParseClaimProposal(r.raw) {
        case Malformed => c.(pc := Reporting(1), evidence := e)
        case Refused =>
          var outcome := match r.raw.reply.result { case Lost => ClaimLost case Denied => ClaimDenied case _ => ClaimNotProposed };
          c.(pc := Reporting(2), evidence := e.(claimOutcome := Some(outcome)))
        case Accepted(claimed) =>
          c.(pc := StoringProposal, claim := Some(claimed), evidence := e.(claimOutcome := Some(ClaimProposed), proposal := Some(claimed)))
      }
  }

  function OnClaimConfirmation(c: Child, r: ChildReply): (c': Child)
    requires c.claim.Some?
    ensures Ready(c') && c'.launch == c.launch
  {
    if !r.Answer? then c.(pc := Reporting(1))
    else
      var e := c.evidence.(confirmation := Some(r.raw));
      match ParseClaimConfirmation(r.raw) {
        case Malformed => c.(pc := Reporting(1), evidence := e)
        case Refused => c.(pc := Reporting(2), evidence := e.(ownership := Some(NotTheOwner), claimOutcome := Some(ClaimLost)))
        case Accepted(target) =>
          if target.claim != c.claim.value then c.(pc := Reporting(1), evidence := e)
          else
            var e' := e.(ownership := Some(OwnerConfirmed), claimOutcome := Some(ClaimWon), loadedTarget := Some(target));
            if !TargetMatchesRepository(target, c.launch.owner, c.launch.repo)
            then c.(pc := StoringMismatch, evidence := e', target := Some(target))
            else c.(pc := Installing, evidence := e', target := Some(target))
      }
  }

  predicate BeginCommitted(raw: Raw) {
    raw.Object? && raw.reply.result == Won && raw.reply.op.Begin? && raw.reply.state == Some(EffectStarted) &&
    raw.reply.attempts == Some(1) && raw.reply.detail.start.Some?
  }

  function OnBegin(c: Child, r: ChildReply): (c': Child)
    requires c.target.Some?
    ensures Ready(c') && c'.launch == c.launch
  {
    if !r.Answer? || r.raw.Garbled? then Fail(c)
    else
      var started := c.(start := r.raw.reply.detail.start);
      if BeginCommitted(r.raw) then started.(pc := ConfirmingStart) else Fail(started)
  }

  predicate StartIsConfirmed(r: ChildReply) {
    r.Answer? && r.raw.Object? && r.raw.reply.result == Confirmed && r.raw.reply.op.ConfirmStart?
  }

  function OnMintEffect(c: Child, r: ChildReply): (c': Child)
    requires c.target.Some? && c.start.Some?
    ensures Ready(c') && c'.launch == c.launch
  {
    if !r.Minted? then Fail(c)
    else
      var e := c.evidence.(tokenMinted := r.token.Some?, mintCount := if r.token.Some? then 1 else 0);
      var c' := c.(token := r.token, evidence := e);
      if r.token.Some? then c'.(pc := Scoping) else Fail(c')
  }

  predicate PresentReadOnly(c: Child, r: ChildReply)
    requires c.target.Some?
  {
    r.KeyBody? && r.status == 200 && r.id == Some(c.target.value.keyId) && r.title == Some(c.launch.title) && r.readOnly
  }

  predicate ListsTarget(c: Child, r: ChildReply)
    requires c.target.Some?
  {
    r.Keys? && r.status == 200 && ListIsWellFormed(r.listing) && ListContains(r.listing, c.target.value.keyId)
  }

  /** The two reads after the DELETE are in hand (or failed): classify, then clean up. */
  function Classify(c: Child, deleted: Option<int>, exact: Option<int>, r: ChildReply): (c': Child)
    requires c.target.Some? && c.start.Some? && c.token.Some?
    ensures Ready(c') && c'.launch == c.launch
  {
    var listed := if r.Keys? then Some(r.status) else None;
    var valid := r.Keys? && ListIsWellFormed(r.listing);
    var contains := r.Keys? && ListContains(r.listing, c.target.value.keyId);
    var outcome := ClassifyProviderOutcome(deleted, exact, contains, listed, valid);
    c.(pc := RevokingEffect, classification := Some(outcome), evidence := c.evidence.(classification := Some(outcome)))
  }

  function OnEffectProbe(c: Child, r: ChildReply): (c': Child)
    requires c.target.Some? && c.start.Some? && c.token.Some?
    ensures Ready(c') && c'.launch == c.launch
  {
    if !r.Http? then Fail(c)
    else
      var c' := c.(cleaned := true);
      if !RefusedToken(r.status) then Fail(c')
      else match c.classification {
        case Some(AttemptedOutcomeUnknown) => c'.(pc := DeclaringUnknown)
        case Some(VerifiedAbsent) => c'.(pc := MintingReader)
        case _ => Fail(c')
      }
  }

  /** The independent verifier: any failure still revokes the reader in its finally block. */
  function OnReaderList(c: Child, exact: int, r: ChildReply): (c': Child)
    requires c.target.Some? && c.start.Some? && c.reader.Some?
    ensures Ready(c') && c'.launch == c.launch
  {
    if !r.Keys? then c.(pc := RevokingReader(None))
    else
      var absent := exact == 404 && r.status == 200 && ListIsWellFormed(r.listing) && !ListContains(r.listing, c.target.value.keyId);
      c.(pc := RevokingReader(Some(absent)))
  }

  function OnConclusion(c: Child, r: ChildReply): (c': Child)
    ensures Ready(c') && c'.launch == c.launch
  {
    if !r.Answer? then Fail(c)
    else if c.classification == Some(AttemptedOutcomeUnknown) then
      Report(c.(evidence := c.evidence.(reconciled := Some(r.raw), classification := Some(VerifiedAbsent))))
    else
      Report(c.(evidence := c.evidence.(finalized := Some(r.raw))))
  }

  /** Claiming and confirming ownership. */
  function StepClaim(c: Child, r: ChildReply): (c': Child)
    requires Ready(c) && PhaseOf(c.pc) == ClaimPhase
    ensures Ready(c') && c'.launch == c.launch
  {
    match c.pc {
      case Claiming => OnClaim(c, r)
      case StoringProposal => if r.Stored? then c.(pc := ConfirmingClaim) else c.(pc := Reporting(1))
      case ConfirmingClaim => OnClaimConfirmation(c, r)
      case StoringMismatch => if r.Stored? then c.(pc := Done) else Fail(c)
    }
  }

  /** From the confirmed claim to the DELETE. */
  function StepEffect(c: Child, r: ChildReply): (c': Child)
    requires Ready(c) && PhaseOf(c.pc) == EffectPhase
    ensures Ready(c') && c'.launch == c.launch
  {
    match c.pc {
      case Installing => if r.Http? && r.status == 200 then c.(pc := Beginning, beginSent := true) else Fail(c)
      case Beginning => OnBegin(c, r)
      case ConfirmingStart =>
        if StartIsConfirmed(r) then c.(pc := MintingEffect, evidence := c.evidence.(startConfirmed := true)) else Fail(c)
      case MintingEffect => OnMintEffect(c, r)
      case Scoping => if r.Repositories? && r.status == 200 && r.scoped then c.(pc := Inspecting) else Fail(c)
      case Inspecting => if r.KeyBody? then c.(pc := Surveying(PresentReadOnly(c, r))) else Fail(c)
      case Surveying(exactOk) =>
        if exactOk && ListsTarget(c, r) then c.(pc := Deleting, deleteSent := true) else Fail(c)
      case Deleting =>
        c.(pc := Reinspecting(if r.Http? then Some(r.status) else None),
           evidence := c.evidence.(deleteAttempted := true, destructiveCalls := 1))
    }
  }

  /** The reads after the DELETE and the end of the effect token. */
  function StepAftermath(c: Child, r: ChildReply): (c': Child)
    requires Ready(c) && PhaseOf(c.pc) == AftermathPhase
    ensures Ready(c') && c'.launch == c.launch
  {
    match c.pc {
      case Reinspecting(deleted) =>
        if r.KeyBody? then c.(pc := Resurveying(deleted, r.status)) else Classify(c, deleted, None, Threw)
      case Resurveying(deleted, exact) => Classify(c, deleted, Some(exact), r)
      case RevokingEffect =>
        if !r.Http? then Fail(c) else if r.status == 204 then c.(pc := ProbingEffect) else Fail(c.(cleaned := true))
      case ProbingEffect => OnEffectProbe(c, r)
      case DeclaringUnknown => if r.Answer? then c.(pc := MintingReader) else Fail(c)
    }
  }

  /** The independent verifier and the terminal call. */
  function StepVerifier(c: Child, r: ChildReply): (c': Child)
    requires Ready(c) && PhaseOf(c.pc) == VerifierPhase
    ensures Ready(c') && c'.launch == c.launch
  {
    match c.pc {
      case MintingReader =>
        if r.Minted? && r.token.Some? then c.(pc := ReaderScoping, reader := r.token) else Fail(c)
      case ReaderScoping =>
        if r.Repositories? && r.status == 200 && r.scoped then c.(pc := ReaderInspecting) else c.(pc := RevokingReader(None))
      case ReaderInspecting => if r.KeyBody? then c.(pc := ReaderSurveying(r.status)) else c.(pc := RevokingReader(None))
      case ReaderSurveying(exact) => OnReaderList(c, exact, r)
      case RevokingReader(absent) => if r.Http? && r.status == 204 then c.(pc := ProbingReader(absent)) else Fail(c)
      case ProbingReader(absent) =>
        if r.Http? && RefusedToken(r.status) && absent == Some(true) then c.(pc := Concluding) else Fail(c)
      case Concluding => OnConclusion(c, r)
    }
  }

  /** The finally block and the result file. */
  function StepExit(c: Child, r: ChildReply): (c': Child)
    requires Ready(c) && PhaseOf(c.pc) == ExitPhase
    ensures Ready(c') && c'.launch == c.launch
  {
    match c.pc {
      case Unwinding => if r.Http? && r.status == 204 then c.(pc := UnwindProbing) else Report(c)
      case UnwindProbing => Report(c)
      case Reporting(left) => if r.Stored? || left == 0 then c.(pc := Done) else c.(pc := Reporting(left - 1))
    }
  }

  function Step(c: Child, r: ChildReply): (c': Child)
    requires Ready(c) && !c.pc.Done?
    ensures Ready(c') && c'.launch == c.launch
  {
    match PhaseOf(c.pc) {
      case ClaimPhase => StepClaim(c, r)
      case EffectPhase => StepEffect(c, r)
      case AftermathPhase => StepAftermath(c, r)
      case VerifierPhase => StepVerifier(c, r)
      case ExitPhase => StepExit(c, r)
    }
  }
}
