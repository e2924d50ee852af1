/** winner/broker/run.ts as the program it is: a claim, a confirmation and one long try block
    with its catch and finally, over the evidence object and a handful of flags.

    Every method is proved to make, call by call, the moves of the machine in BrokerChild, so
    that a finished run is one of the histories that BrokerTrace and the whole-system
    theorems speak about.  Replies come from an arbitrary function of what was said before. */
module RunBroker {
  import opened Domain
  import opened C1 = C1Contract
  import opened BrokerLogic
  import opened BrokerChild
  import T = BrokerTrace
  import V = BrokerConversation

  /** Every reply is the world's. */
  predicate AnsweredBy(log: seq<Exchange>, answer: (seq<Exchange>, ChildCall) -> ChildReply) {
    forall i | 0 <= i < |log| :: log[i].reply == answer(log[..i], log[i].call)
  }

  lemma AnswersOneMore(log: seq<Exchange>, answer: (seq<Exchange>, ChildCall) -> ChildReply, x: Exchange)
    requires AnsweredBy(log, answer) && x.reply == answer(log, x.call)
    ensures AnsweredBy(log + [x], answer)
  {
    var later := log + [x];
    assert later[..|log|] == log;
    assert forall i | 0 <= i < |log| :: later[..i] == log[..i];
  }

  // ---- Single statements

  lemma FailForgetsThePc(c: Child)
    ensures Fail(c) == Fail(c.(pc := Done))
  {
  }

  lemma ClaimingIs(c: Child)
    requires c.pc.Claiming?
    ensures CallOf(c) == Ask(c, Claim(c.launch.expectedVersion, c.launch.claimNonce)) && forall r :: Step(c, r) == OnClaim(c, r)
  {
  }

  lemma ConfirmingIs(c: Child)
    requires Ready(c) && c.pc.ConfirmingClaim?
    ensures CallOf(c) == Ask(c, ConfirmClaim(c.claim.value.id)) && forall r :: Step(c, r) == OnClaimConfirmation(c, r)
  {
  }

  lemma InstallingIs(c: Child)
    requires Ready(c) && c.pc.Installing?
    ensures CallOf(c) == CheckInstallation
    ensures forall r :: Step(c, r) == if r.Http? && r.status == 200 then c.(pc := Beginning, beginSent := true) else Fail(c)
  {
  }

  lemma BeginningIs(c: Child)
    requires Ready(c) && c.pc.Beginning?
    ensures CallOf(c) == Ask(c, Begin(c.target.value.claim.id, c.launch.startNonce)) && forall r :: Step(c, r) == OnBegin(c, r)
  {
  }

  // ---- The two calls that end a token

  predicate TokenRefused(probed: Option<ChildReply>) { probed.Some? && probed.value.Http? && RefusedToken(probed.value.status) }

  /** The probe is made after a 204 only. */
  predicate Paired(revoked: ChildReply, probed: Option<ChildReply>) { probed.Some? <==> revoked == Http(204) }

  function After(c: Child, revoked: ChildReply, probed: Option<ChildReply>): Child
    requires Ready(c) && !c.pc.Done? && (probed.Some? ==> !Step(c, revoked).pc.Done?)
  {
    if probed.None? then Step(c, revoked) else Step(Step(c, revoked), probed.value)
  }

  lemma EffectTokenCalls(c: Child)
    requires Ready(c) && c.pc.RevokingEffect?
    ensures CallOf(c) == Revoke(c.token.value)
    ensures !Step(c, Http(204)).pc.Done? && CallOf(Step(c, Http(204))) == Probe(c.token.value)
  {
    hide StepClaim, StepEffect, StepVerifier, StepExit, OnEffectProbe;
  }

  lemma EffectTokenEnds(c: Child, revoked: ChildReply, probed: Option<ChildReply>)
    requires Ready(c) && c.pc.RevokingEffect? && Paired(revoked, probed)
    ensures !Step(c, Http(204)).pc.Done?
    ensures
      var cleaned := revoked.Http? && (probed.None? || probed.value.Http?);
      var c' := if cleaned then c.(cleaned := true) else c;
      After(c, revoked, probed) ==
        if !TokenRefused(probed) then Fail(c'.(pc := Done))
        else if c.classification == Some(AttemptedOutcomeUnknown) then c'.(pc := DeclaringUnknown)
        else if c.classification == Some(VerifiedAbsent) then c'.(pc := MintingReader)
        else Fail(c'.(pc := Done))
  {
    hide StepClaim, StepEffect, StepVerifier, StepExit;
  }

  lemma ReaderTokenCalls(c: Child, absent: Option<bool>)
    requires Ready(c) && c.pc == RevokingReader(absent)
    ensures CallOf(c) == Revoke(c.reader.value)
    ensures !Step(c, Http(204)).pc.Done? && CallOf(Step(c, Http(204))) == Probe(c.reader.value)
  {
    hide StepClaim, StepEffect, StepAftermath, StepExit;
  }

  lemma ReaderTokenEnds(c: Child, absent: Option<bool>, revoked: ChildReply, probed: Option<ChildReply>)
    requires Ready(c) && c.pc == RevokingReader(absent) && Paired(revoked, probed)
    ensures !Step(c, Http(204)).pc.Done?
    ensures
      After(c, revoked, probed) ==
        if TokenRefused(probed) && absent == Some(true) then c.(pc := Concluding)
        else Fail(c.(pc := Done))
  {
    hide StepClaim, StepEffect, StepAftermath, StepExit;
  }

  /** The states of the machine over some exchanges: each exchange answers the call of the
      state before it and leads to the state after it. */
  ghost predicate Walks(l: Launch, log: seq<Exchange>, walk: seq<Child>) {
    && |walk| == |log| + 1 && walk[0] == Launched(l)
    && forall i {:trigger log[i]} | 0 <= i < |log| ::
         Ready(walk[i]) && !walk[i].pc.Done? && log[i].call == CallOf(walk[i]) && walk[i + 1] == Step(walk[i], log[i].reply)
  }

  lemma WalksOneMore(l: Launch, log: seq<Exchange>, walk: seq<Child>, reply: ChildReply)
    requires Walks(l, log, walk) && Ready(walk[|log|]) && !walk[|log|].pc.Done?
    ensures Walks(l, log + [Exchange(CallOf(walk[|log|]), reply)], walk + [Step(walk[|log|], reply)])
  {
    hide Step, CallOf, Ready;
    var later, longer := log + [Exchange(CallOf(walk[|log|]), reply)], walk + [Step(walk[|log|], reply)];
    forall i | 0 <= i < |later|
      ensures Ready(longer[i]) && !longer[i].pc.Done? && later[i].call == CallOf(longer[i]) && longer[i + 1] == Step(longer[i], later[i].reply)
    {
      assert i < |log| ==> later[i] == log[i] && longer[i] == walk[i] && longer[i + 1] == walk[i + 1];
    }
  }

  lemma WalksOneLess(l: Launch, log: seq<Exchange>, walk: seq<Child>)
    requires Walks(l, log, walk) && log != []
    ensures
      var last := |log| - 1;
      && |walk| == |log| + 1 && Walks(l, log[..last], walk[..|log|])
      && Ready(walk[last]) && !walk[last].pc.Done? && log[last].call == CallOf(walk[last]) && walk[|log|] == Step(walk[last], log[last].reply)
  {
    hide Step, CallOf, Ready;
    var prior, shorter := log[..|log| - 1], walk[..|log|];
    forall i | 0 <= i < |prior|
      ensures Ready(shorter[i]) && !shorter[i].pc.Done? && prior[i].call == CallOf(shorter[i]) && shorter[i + 1] == Step(shorter[i], prior[i].reply)
    {
      assert prior[i] == log[i];
    }
    assert log[|log| - 1].call == CallOf(walk[|log| - 1]);
  }

  lemma WalkIsLonger(l: Launch, log: seq<Exchange>, walk: seq<Child>)
    requires Walks(l, log, walk)
    ensures |walk| == |log| + 1 && walk[0] == Launched(l)
  {
    hide Step, CallOf, Ready;
  }

  lemma {:induction false} WalkIsHistory(l: Launch, log: seq<Exchange>, walk: seq<Child>)
    requires Walks(l, log, walk)
    ensures |walk| == |log| + 1 && T.IsHistory(l, log) && T.At(l, log) == walk[|log|]
    decreases |log|
  {
    hide Step, CallOf, Ready, Walks, T.IsHistory, T.At;
    WalkIsLonger(l, log, walk);
    if log == [] {
      T.NothingSaid(l);
    } else {
      var last := |log| - 1;
      WalksOneLess(l, log, walk);
      WalkIsHistory(l, log[..last], walk[..|log|]);
      T.OneMore(l, log[..last], log[last]);
      assert log == log[..last] + [log[last]];
    }
  }

  class BrokerRun {
    const launch: Launch
    const answer: (seq<Exchange>, ChildCall) -> ChildReply
    var log: seq<Exchange>

    var evidence: Evidence
    var proposal: Option<Claimed>
    var target: Option<ClaimTarget>
    var effectStart: Option<StartId>
    var effectToken: Option<Token>
    var effectTokenCleaned: bool
    var verifierToken: Option<Token>
    var beginEffectSent: bool
    var deleteMayHaveBeenInitiated: bool
    var classification: Option<Classification>

    /** Where the machine is, and where it has been. */
    ghost var at: Child
    ghost var walk: seq<Child>

    constructor (launch: Launch, answer: (seq<Exchange>, ChildCall) -> ChildReply)
      ensures this.launch == launch && this.answer == answer && log == [] && Following() && at == Launched(launch) && Mirrors()
    {
      this.launch := launch;
      this.answer := answer;
      log := [];
      var initial := FreshEvidence(launch.contender);
      evidence := if launch.existing.Some?
                  then initial.(claimOutcome := Some(ExistingClaimRecovery), proposal := launch.existing) else initial;
      proposal := launch.existing;
      target, effectStart, effectToken, verifierToken, classification := None, None, None, None, None;
      effectTokenCleaned, beginEffectSent, deleteMayHaveBeenInitiated := false, false, false;
      at := Launched(launch);
      walk := [Launched(launch)];
    }

    /** The calls made so far are those of the machine. */
    ghost predicate Following()
      reads `log, `at, `walk
    {
      AnsweredBy(log, answer) && Ready(at) && at.launch == launch && Walks(launch, log, walk) && at == walk[|log|]
    }

    /** The machine's locals, as the variables hold them. */
    ghost function Current(pc: Pc): Child
      reads this
    {
      Child(launch, pc, evidence, proposal, target, effectStart, effectToken, effectTokenCleaned, verifierToken,
            beginEffectSent, deleteMayHaveBeenInitiated, classification)
    }

    ghost predicate Mirrors()
      reads this
    {
      at == Current(at.pc)
    }

    /** An exception is on its way to the catch block. */
    ghost predicate Failing()
      reads this
    {
      at == Fail(Current(Done))
    }

    /** The finally block is done. */
    ghost predicate Leaving()
      reads this
    {
      at == Report(Current(Done))
    }

    method Call(call: ChildCall) returns (reply: ChildReply)
      requires Following() && !at.pc.Done? && CallOf(at) == call
      modifies this`log, this`at, this`walk
      ensures Following() && at == Step(old(at), reply)
      ensures log == old(log) + [Exchange(call, reply)]
    {
      assert |walk| == |log| + 1;
      hide Step, CallOf, AnsweredBy, Walks, Ready;
      reply := answer(log, call);
      WalksOneMore(launch, log, walk, reply);
      AnswersOneMore(log, answer, Exchange(call, reply));
      log := log + [Exchange(call, reply)];
      at := Step(at, reply);
      walk := walk + [at];
    }

    /** persist, and where it throws the handlers that persist again. */
    method PersistOrReport(attempts: nat)
      requires Following() && Mirrors() && at.pc == Reporting(attempts)
      modifies this`log, this`at, this`walk
      ensures Following() && Mirrors() && at.pc.Done?
      decreases attempts
    {
      hide StepClaim, StepEffect, StepAftermath, StepVerifier, Walks, AnsweredBy;
      var stored := Call(Persist(evidence));
      if !stored.Stored? && attempts > 0 {
        PersistOrReport(attempts - 1);
      }
    }

    method AskC1(op: Op) returns (reply: ChildReply)
      requires Following() && !at.pc.Done? && CallOf(at) == Ask(at, op)
      modifies this`log, this`at, this`walk
      ensures Following() && at == Step(old(at), reply)
    {
      hide Step, CallOf, Ready;
      reply := Call(Invoke(C1.Call(launch.broker, launch.incident, op)));
    }

    /** After the confirmation: on to the effect, unless the target is another repository. */
    ghost predicate OwnedTarget()
      reads this
    {
      && target.Some?
      && at.pc == (if TargetMatchesRepository(target.value, launch.owner, launch.repo) then Installing else StoringMismatch)
    }

    // ---- Claim and confirmation

    method ClaimEffect() returns (go: bool)
      requires Following() && Mirrors() && at.pc.Claiming?
      modifies this`log, this`at, this`walk, this`evidence, this`proposal
      ensures Following() && Mirrors() && if go then at.pc.StoringProposal? else at.pc.Done?
    {
      hide Step, CallOf, Walks, AnsweredBy;
      ClaimingIs(at);
      var claim := AskC1(Claim(launch.expectedVersion, launch.claimNonce));
      if !claim.Answer? {
        PersistOrReport(1);
        return false;
      }
      evidence := evidence.(claim := Some(claim.raw));
      match ParseClaimProposal(claim.raw) {
        case Malformed =>
          PersistOrReport(1);
          return false;
        case Refused =>
          var outcome := match claim.raw.reply.result { case Lost => ClaimLost case Denied => ClaimDenied case _ => ClaimNotProposed };
          evidence := evidence.(claimOutcome := Some(outcome));
          PersistOrReport(2);
          return false;
        case Accepted(claimed) =>
          proposal := Some(claimed);
          evidence := evidence.(claimOutcome := Some(ClaimProposed), proposal := proposal);
          return true;
      }
    }

    method StoreProposal() returns (go: bool)
      requires Following() && Mirrors() && at.pc.StoringProposal?
      modifies this`log, this`at, this`walk
      ensures Following() && Mirrors() && if go then at.pc.ConfirmingClaim? else at.pc.Done?
    {
      hide StepEffect, StepAftermath, StepVerifier, StepExit, Walks, AnsweredBy;
      var stored := Call(Persist(evidence));
      if !stored.Stored? {
        PersistOrReport(1);
        return false;
      }
      return true;
    }

    /** `go`: the claim is this child's and names the configured repository. */
    method ConfirmOwnership() returns (go: bool)
      requires Following() && Mirrors() && at.pc.ConfirmingClaim?
      modifies this`log, this`at, this`walk, this`evidence, this`target
      ensures Following() && Mirrors()
      ensures if go then OwnedTarget() else at.pc.Done?
    {
      hide Step, CallOf, Walks, AnsweredBy;
      ConfirmingIs(at);
      var confirmation := AskC1(ConfirmClaim(proposal.value.id));
      if !confirmation.Answer? {
        PersistOrReport(1);
        return false;
      }
      evidence := evidence.(confirmation := Some(confirmation.raw));
      match ParseClaimConfirmation(confirmation.raw) {
        case Malformed =>
          PersistOrReport(1);
          return false;
        case Refused =>
          evidence := evidence.(ownership := Some(NotTheOwner), claimOutcome := Some(ClaimLost));
          PersistOrReport(2);
          return false;
        case Accepted(confirmed) =>
          if confirmed.claim != proposal.value {
            PersistOrReport(1);
            return false;
          }
          target := Some(confirmed);
          evidence := evidence.(ownership := Some(OwnerConfirmed), claimOutcome := Some(ClaimWon), loadedTarget := target);
          return true;
      }
    }

    // ---- The effect

    /** Installation check and begin-effect. */
    method BeginEffect() returns (thrown: bool)
      requires Following() && Mirrors() && at.pc.Installing? && target.Some?
      modifies this`log, this`at, this`walk, this`beginEffectSent, this`effectStart
      ensures Following() && if thrown then Failing() else Mirrors() && at.pc.ConfirmingStart?
    {
      hide Step, CallOf, Walks, AnsweredBy, BeginCommitted, Fail;
      thrown := ValidateInstallation();
      if thrown { return; }
      BeginningIs(at);
      var begun := AskC1(Begin(target.value.claim.id, launch.startNonce));
      FailForgetsThePc(Current(Beginning));
      if !begun.Answer? || begun.raw.Garbled? {
        return true;
      }
      effectStart := begun.raw.reply.detail.start;
      FailForgetsThePc(Current(Beginning));
      return !BeginCommitted(begun.raw);
    }

    method ValidateInstallation() returns (thrown: bool)
      requires Following() && Mirrors() && at.pc.Installing? && target.Some?
      modifies this`log, this`at, this`walk, this`beginEffectSent
      ensures Following() && if thrown then Failing() else Mirrors() && at.pc.Beginning?
    {
      hide Step, CallOf, Walks, AnsweredBy, Fail;
      InstallingIs(at);
      var installation := Call(CheckInstallation);
      FailForgetsThePc(Current(Installing));
      if !(installation.Http? && installation.status == 200) {
        return true;
      }
      beginEffectSent := true;
      return false;
    }

    method ConfirmEffectStart() returns (thrown: bool)
      requires Following() && Mirrors() && at.pc.ConfirmingStart? && Ready(at)
      modifies this`log, this`at, this`walk, this`evidence
      ensures Following() && if thrown then Failing() else Mirrors() && at.pc.MintingEffect?
    {
      hide StepClaim, StepAftermath, StepVerifier, StepExit, Walks, AnsweredBy;
      var confirmed := AskC1(ConfirmStart(target.value.claim.id, effectStart.value));
      if !StartIsConfirmed(confirmed) {
        return true;
      }
      evidence := evidence.(startConfirmed := true);
      return false;
    }

    /** The effect token and its scope. */
    method MintEffectToken() returns (thrown: bool)
      requires Following() && Mirrors() && at.pc.MintingEffect? && Ready(at)
      modifies this`log, this`at, this`walk, this`evidence, this`effectToken
      ensures Following() && if thrown then Failing() else Mirrors() && at.pc.Inspecting?
    {
      hide StepClaim, StepAftermath, StepVerifier, StepExit, Walks, AnsweredBy;
      var minted := Call(MintEffect);
      if !minted.Minted? {
        return true;
      }
      effectToken := minted.token;
      evidence := evidence.(tokenMinted := effectToken.Some?, mintCount := if effectToken.Some? then 1 else 0);
      if effectToken.None? {
        return true;
      }
      thrown := CheckScope();
    }

    /** Exactly the one repository, or the effect ends here. */
    method CheckScope() returns (thrown: bool)
      requires Following() && Mirrors() && at.pc.Scoping? && Ready(at)
      modifies this`log, this`at, this`walk
      ensures Following() && if thrown then Failing() else Mirrors() && at.pc.Inspecting?
    {
      hide StepClaim, StepAftermath, StepVerifier, StepExit, Walks, AnsweredBy;
      var repositories := Call(ListRepositories(effectToken.value));
      return !(repositories.Repositories? && repositories.status == 200 && repositories.scoped);
    }

    /** The target must be there, read-only and under its frozen title. */
    method CheckTarget() returns (thrown: bool)
      requires Following() && Mirrors() && at.pc.Inspecting? && Ready(at)
      modifies this`log, this`at, this`walk, this`deleteMayHaveBeenInitiated
      ensures Following() && if thrown then Failing() else Mirrors() && at.pc.Deleting?
    {
      hide StepClaim, StepAftermath, StepVerifier, StepExit, Walks, AnsweredBy, ListIsWellFormed, ListContains;
      var keyId := target.value.keyId;
      var beforeGet := Call(GetKey(effectToken.value, launch.owner, launch.repo, keyId));
      if !beforeGet.KeyBody? {
        return true;
      }
      var beforeList := Call(ListKeys(effectToken.value, launch.owner, launch.repo));
      var present :=
        && beforeGet.status == 200 && beforeGet.id == Some(keyId) && beforeGet.title == Some(launch.title) && beforeGet.readOnly
        && beforeList.Keys? && beforeList.status == 200 && ListIsWellFormed(beforeList.listing) && ListContains(beforeList.listing, keyId);
      if !present {
        return true;
      }
      deleteMayHaveBeenInitiated := true;
      return false;
    }

    /** None when the DELETE failed in transport; it does not throw. */
    method DeleteKeyOnce() returns (deleted: Option<int>)
      requires Following() && Mirrors() && at.pc.Deleting? && Ready(at)
      modifies this`log, this`at, this`walk, this`evidence
      ensures Following() && Mirrors() && at.pc == Reinspecting(deleted)
    {
      hide StepClaim, StepAftermath, StepVerifier, StepExit, Walks, AnsweredBy;
      var response := Call(DeleteKey(effectToken.value, launch.owner, launch.repo, target.value.keyId));
      deleted := if response.Http? then Some(response.status) else None;
      evidence := evidence.(deleteAttempted := true, destructiveCalls := 1);
    }

    /** The reads after the DELETE and the classification; nothing here throws either. */
    method ClassifyOutcome(deleted: Option<int>)
      requires Following() && Mirrors() && at.pc == Reinspecting(deleted) && Ready(at)
      modifies this`log, this`at, this`walk, this`evidence, this`classification
      ensures Following() && Mirrors() && at.pc.RevokingEffect?
      ensures classification.Some?
    {
      hide StepClaim, StepEffect, StepVerifier, StepExit, Walks, AnsweredBy, ListIsWellFormed, ListContains, ClassifyProviderOutcome;
      var keyId := target.value.keyId;
      var afterGet := Call(GetKey(effectToken.value, launch.owner, launch.repo, keyId));
      if afterGet.KeyBody? {
        ClassifyListed(deleted, afterGet.status);
        return;
      }
      classification := Some(ClassifyProviderOutcome(deleted, None, false, None, false));
      evidence := evidence.(classification := classification);
    }

    method ClassifyListed(deleted: Option<int>, exact: int)
      requires Following() && Mirrors() && at.pc == Resurveying(deleted, exact) && Ready(at)
      modifies this`log, this`at, this`walk, this`evidence, this`classification
      ensures Following() && Mirrors() && at.pc.RevokingEffect?
      ensures classification.Some?
    {
      hide StepClaim, StepEffect, StepVerifier, StepExit, Walks, AnsweredBy, ListIsWellFormed, ListContains, ClassifyProviderOutcome;
      var keyId := target.value.keyId;
      var afterList := Call(ListKeys(effectToken.value, launch.owner, launch.repo));
      var listed := if afterList.Keys? then Some(afterList.status) else None;
      var contains := afterList.Keys? && ListContains(afterList.listing, keyId);
      var valid := afterList.Keys? && ListIsWellFormed(afterList.listing);
      classification := Some(ClassifyProviderOutcome(deleted, Some(exact), contains, listed, valid));
      evidence := evidence.(classification := classification);
    }

    /** Revoke a token and probe that it is refused; the two replies, as far as they came. */
    method RevokeAndRefuse(token: Token) returns (revoked: ChildReply, probed: Option<ChildReply>)
      requires Following() && !at.pc.Done? && CallOf(at) == Revoke(token)
      requires !Step(at, Http(204)).pc.Done? && CallOf(Step(at, Http(204))) == Probe(token)
      modifies this`log, this`at, this`walk
      ensures Following()
      ensures probed.None? ==> revoked != Http(204) && at == Step(old(at), revoked)
      ensures probed.Some? ==> revoked == Http(204) && at == Step(Step(old(at), revoked), probed.value)
    {
      hide Step, CallOf, Ready;
      probed := None;
      revoked := Call(Revoke(token));
      if revoked == Http(204) {
        var reply := Call(Probe(token));
        probed := Some(reply);
      }
    }

    /** The end of the effect token; what comes next depends on the classification. */
    method CloseEffectToken() returns (thrown: bool)
      requires Following() && Mirrors() && at.pc.RevokingEffect? && Ready(at)
      modifies this`log, this`at, this`walk, this`effectTokenCleaned
      ensures Following()
      ensures if thrown then Failing()
              else Mirrors() && if classification == Some(AttemptedOutcomeUnknown) then at.pc.DeclaringUnknown? else at.pc.MintingReader?
    {
      hide Step, CallOf, Fail, Walks, AnsweredBy;
      EffectTokenCalls(at);
      ghost var before := at;
      var revoked, probed := RevokeAndRefuse(effectToken.value);
      EffectTokenEnds(before, revoked, probed);
      if revoked.Http? && (probed.None? || probed.value.Http?) {
        effectTokenCleaned := true;
      }
      if !TokenRefused(probed) {
        return true;
      }
      return classification != Some(AttemptedOutcomeUnknown) && classification != Some(VerifiedAbsent);
    }

    /** A transport failure is declared before anything else. */
    method DeclareUnknown() returns (thrown: bool)
      requires Following() && Mirrors() && at.pc.DeclaringUnknown? && Ready(at)
      modifies this`log, this`at, this`walk
      ensures Following() && if thrown then Failing() else Mirrors() && at.pc.MintingReader?
    {
      hide StepClaim, StepEffect, StepVerifier, StepExit, Walks, AnsweredBy, Classify;
      var declared := AskC1(Finalize(target.value.claim.id, effectStart.value, AttemptedOutcomeUnknown));
      return !declared.Answer?;
    }

    /** independentVerifier: false or an exception both end the effect. */
    method IndependentVerifier() returns (thrown: bool)
      requires Following() && Mirrors() && at.pc.MintingReader? && Ready(at)
      modifies this`log, this`at, this`walk, this`verifierToken
      ensures Following() && if thrown then Failing() else Mirrors() && at.pc.Concluding?
    {
      hide Step, CallOf, Fail, Walks, AnsweredBy;
      thrown := MintVerifierToken();
      if thrown { return; }
      var absent := ReadAbsence();
      var refused := CloseVerifierToken(absent);
      return !(refused && absent == Some(true));
    }

    /** Its finally block. */
    method CloseVerifierToken(absent: Option<bool>) returns (refused: bool)
      requires Following() && Mirrors() && at.pc == RevokingReader(absent) && Ready(at)
      modifies this`log, this`at, this`walk
      ensures Following() && if refused && absent == Some(true) then Mirrors() && at.pc.Concluding? else Failing()
    {
      hide Step, CallOf, Fail, Walks, AnsweredBy;
      ReaderTokenCalls(at, absent);
      ghost var before := at;
      var revoked, probed := RevokeAndRefuse(verifierToken.value);
      ReaderTokenEnds(before, absent, revoked, probed);
      return TokenRefused(probed);
    }

    method MintVerifierToken() returns (thrown: bool)
      requires Following() && Mirrors() && at.pc.MintingReader? && Ready(at)
      modifies this`log, this`at, this`walk, this`verifierToken
      ensures Following() && if thrown then Failing() else Mirrors() && at.pc.ReaderScoping?
    {
      hide StepClaim, StepEffect, StepAftermath, StepExit, Walks, AnsweredBy;
      var minted := Call(MintReader);
      if !minted.Minted? || minted.token.None? {
        return true;
      }
      verifierToken := minted.token;
      return false;
    }

    /** The body of its try block: None when something threw. */
    method ReadAbsence() returns (absent: Option<bool>)
      requires Following() && Mirrors() && at.pc.ReaderScoping? && Ready(at)
      modifies this`log, this`at, this`walk
      ensures Following() && Mirrors() && at.pc == RevokingReader(absent)
    {
      hide StepClaim, StepEffect, StepAftermath, StepExit, Walks, AnsweredBy, ListIsWellFormed, ListContains;
      var repositories := Call(ListRepositories(verifierToken.value));
      if !(repositories.Repositories? && repositories.status == 200 && repositories.scoped) {
        return None;
      }
      var keyId := target.value.keyId;
      var exact := Call(GetKey(verifierToken.value, launch.owner, launch.repo, keyId));
      if !exact.KeyBody? {
        return None;
      }
      var listed := Call(ListKeys(verifierToken.value, launch.owner, launch.repo));
      if !listed.Keys? {
        return None;
      }
      return Some(exact.status == 404 && listed.status == 200 && ListIsWellFormed(listed.listing) && !ListContains(listed.listing, keyId));
    }

    /** The terminal call. */
    method Conclude() returns (thrown: bool)
      requires Following() && Mirrors() && at.pc.Concluding? && Ready(at)
      modifies this`log, this`at, this`walk, this`evidence
      ensures Following() && if thrown then Failing() else Leaving()
    {
      hide StepClaim, StepEffect, StepAftermath, StepExit, Walks, AnsweredBy;
      if classification == Some(AttemptedOutcomeUnknown) {
        var reconciled := AskC1(Reconcile(target.value.claim.id, effectStart.value, VerifiedAbsent));
        if !reconciled.Answer? {
          return true;
        }
        evidence := evidence.(reconciled := Some(reconciled.raw), classification := Some(VerifiedAbsent));
      } else {
        var finalized := AskC1(Finalize(target.value.claim.id, effectStart.value, VerifiedAbsent));
        if !finalized.Answer? {
          return true;
        }
        evidence := evidence.(finalized := Some(finalized.raw));
      }
      return false;
    }

    // ---- The whole program

    /** The try block. */
    method Effect() returns (thrown: bool)
      requires Following() && Mirrors() && at.pc.Installing?
      modifies this
      ensures Following() && if thrown then Failing() else Leaving()
    {
      hide Step, CallOf, Walks;
      thrown := BeginEffect();
      if thrown { return; }
      thrown := ConfirmEffectStart();
      if thrown { return; }
      thrown := MintEffectToken();
      if thrown { return; }
      thrown := CheckTarget();
      if thrown { return; }
      var deleted := DeleteKeyOnce();
      ClassifyOutcome(deleted);
      thrown := CloseEffectToken();
      if thrown { return; }
      if classification == Some(AttemptedOutcomeUnknown) {
        thrown := DeclareUnknown();
        if thrown { return; }
      }
      thrown := IndependentVerifier();
      if thrown { return; }
      thrown := Conclude();
    }

    /** The catch block. */
    method Catch()
      requires Following() && Failing()
      modifies this`evidence
      ensures Following()
      ensures if effectToken.Some? && !effectTokenCleaned then at == Current(Unwinding) else Leaving()
    {
      hide Step, CallOf, Walks;
      if !beginEffectSent && !deleteMayHaveBeenInitiated && evidence.classification.None? {
        evidence := evidence.(classification := Some(NotAttempted));
      }
    }

    /** The finally block: an effect token that was not cleaned up is revoked whatever threw. */
    method Finally()
      requires Following() && at == Current(Unwinding) && effectToken.Some?
      modifies this`log, this`at, this`walk
      ensures Following() && Leaving()
    {
      hide StepClaim, StepEffect, StepAftermath, StepVerifier, Walks, AnsweredBy;
      var revoked, probed := RevokeAndRefuse(effectToken.value);
    }

    /** From the first line to the last: the calls made are a finished history of the child. */
    method Run()
      requires Following() && Mirrors() && at == Launched(launch)
      modifies this
      ensures Following() && at.pc.Done?
    {
      hide Following, Fail, Step, CallOf;
      if launch.existing.None? {
        var claimed := ClaimEffect();
        if !claimed { return; }
        var stored := StoreProposal();
        if !stored { return; }
      }
      var owned := ConfirmOwnership();
      if !owned { return; }
      var thrown, mismatch := StoreMismatch();
      if mismatch && !thrown { return; }
      if !mismatch {
        thrown := Effect();
      }
      if thrown {
        Catch();
        if effectToken.Some? && !effectTokenCleaned {
          Finally();
        }
      }
      evidence := evidence.(start := effectStart);
      PersistOrReport(1);
    }

    /** A target that is not the configured repository is reported and nothing else happens. */
    method StoreMismatch() returns (thrown: bool, mismatch: bool)
      requires Following() && Mirrors() && OwnedTarget()
      modifies this`log, this`at, this`walk
      ensures Following() && mismatch == old(at.pc.StoringMismatch?)
      ensures if !mismatch then !thrown && Mirrors() && at.pc.Installing? else if thrown then Failing() else at.pc.Done?
    {
      hide StepEffect, StepAftermath, StepVerifier, StepExit, Walks, AnsweredBy;
      mismatch := !TargetMatchesRepository(target.value, launch.owner, launch.repo);
      thrown := false;
      if mismatch {
        var stored := Call(Persist(evidence));
        thrown := !stored.Stored?;
      }
    }
  }

  /** One broker child, whatever C1 and GitHub answer: its calls are a finished history of
      the machine, with at most one DELETE, and every effect token it was given was handed
      to a revoke call afterwards.  The DELETE stands behind the whole conversation it needs,
      and the result tells what was done. */
  method RunBroker(launch: Launch, answer: (seq<Exchange>, ChildCall) -> ChildReply) returns (log: seq<Exchange>)
    ensures T.IsHistory(launch, log) && T.At(launch, log).pc.Done?
    ensures T.DeletesAtMostOnce(log) && T.TokensReturned(log) && AnsweredBy(log, answer)
    ensures V.DeletesAreDue(launch, log) && V.Tells(T.At(launch, log).evidence, V.FactsOf(log))
  {
    hide T.IsHistory, T.At, T.DeletesAtMostOnce, T.TokensReturned, V.DeletesAreDue, V.Tells, AnsweredBy, CallOf, Step;
    var run := new BrokerRun(launch, answer);
    run.Run();
    log := run.log;
    assert run.Following() && run.answer == answer && run.launch == launch;
    WalkIsHistory(launch, log, run.walk);
    T.FinishedChildIsClean(launch, log);
    V.EveryDeleteIsDue(launch, log);
    V.ResultTells(launch, log);
  }
}
