/** What every run of one broker child does, whatever the contract and GitHub answer.

    Each property is stated by a small monitor that reads the exchanges of a run and knows
    nothing of the program; the lemmas say that the program and the monitor agree. */
module BrokerTrace {
  import opened Domain
  import opened C1 = C1Contract
  import opened BrokerLogic
  import opened BrokerChild

  type History = seq<Exchange>

  /** Where a child is after the replies of `h`. */
  function At(l: Launch, h: History): (c: Child)
    ensures Ready(c) && c.launch == l
    decreases |h|
  {
    if h == [] then Launched(l)
    else
      var c := At(l, h[..|h| - 1]);
      if c.pc.Done? then c else Step(c, h[|h| - 1].reply)
  }

  /** `h` is what some child launched with `l` said and heard, from its start. */
  ghost predicate IsHistory(l: Launch, h: History)
    decreases |h|
  {
    h == [] ||
    (&& IsHistory(l, h[..|h| - 1])
     && !At(l, h[..|h| - 1]).pc.Done?
     && h[|h| - 1].call == CallOf(At(l, h[..|h| - 1])))
  }

  lemma {:induction false} PrefixIsHistory(l: Launch, h: History, n: nat)
    requires IsHistory(l, h) && n <= |h|
    ensures IsHistory(l, h[..n])
    ensures n < |h| ==> !At(l, h[..n]).pc.Done? && h[n].call == CallOf(At(l, h[..n]))
    decreases |h|
  {
    hide Step, CallOf;
    if n == |h| {
      assert h[..n] == h;
    } else {
      assert h[..|h| - 1][..n] == h[..n];
      PrefixIsHistory(l, h[..|h| - 1], n);
    }
  }

  /** The call number `n` of a child, answered or still under way. */
  ghost predicate Issues(l: Launch, h: History, n: nat, call: ChildCall) {
    n <= |h| && !At(l, h[..n]).pc.Done? && CallOf(At(l, h[..n])) == call
  }

  /** One more exchange. */
  lemma OneMore(l: Launch, h: History, x: Exchange)
    requires IsHistory(l, h) && !At(l, h).pc.Done? && x.call == CallOf(At(l, h))
    ensures IsHistory(l, h + [x]) && At(l, h + [x]) == Step(At(l, h), x.reply)
  {
    hide Step, CallOf;
    assert (h + [x])[..|h + [x]| - 1] == h;
  }

  // ---- The monitors

  predicate DeclaresAbsent(call: ChildCall) {
    call.Invoke? && (call.call.op.Finalize? || call.call.op.Reconcile?) && call.call.op.verdict == VerifiedAbsent
  }

  predicate DeclaresUnknown(call: ChildCall) {
    call.Invoke? && call.call.op.Finalize? && call.call.op.verdict == AttemptedOutcomeUnknown
  }

  predicate Refusal(r: ChildReply) { r.Http? && RefusedToken(r.status) }

  /** A deploy key of a repository. */
  datatype Key = Key(owner: string, repo: string, id: int)

  function TargetKey(target: ClaimTarget): Key { Key(target.owner, target.repo, target.keyId) }

  /** How far the proof that the key is gone has come. */
  datatype Proof =
    | Nothing
    | EffectHeld(token: Token)
    | EffectRevoked(token: Token)
    | EffectRefused
    | ReaderHeld(reader: Token)
    | Missing(reader: Token, key: Key)
    | Unlisted(reader: Token, key: Key)
    | ReaderRevoked(reader: Token, key: Key)
    | Proved(key: Key)

  predicate GetsMissing(x: Exchange, reader: Token) {
    x.call.GetKey? && x.call.token == reader && x.reply.KeyBody? && x.reply.status == 404
  }

  predicate ListsWithout(x: Exchange, reader: Token, key: Key) {
    && x.call == ListKeys(reader, key.owner, key.repo)
    && x.reply.Keys? && x.reply.status == 200 && ListIsWellFormed(x.reply.listing) && !ListContains(x.reply.listing, key.id)
  }

  function Advance(p: Proof, x: Exchange): Proof {
    if MintsSome(x) then EffectHeld(x.reply.token.value)
    else match p {
      case Nothing => p
      case EffectHeld(t) => if x == Exchange(Revoke(t), Http(204)) then EffectRevoked(t) else p
      case EffectRevoked(t) => if x.call == Probe(t) && Refusal(x.reply) then EffectRefused else p
      case EffectRefused => if x.call.MintReader? && x.reply.Minted? && x.reply.token.Some? then ReaderHeld(x.reply.token.value) else p
      case ReaderHeld(t) => if GetsMissing(x, t) then Missing(t, Key(x.call.owner, x.call.repo, x.call.keyId)) else p
      case Missing(t, k) => if ListsWithout(x, t, k) then Unlisted(t, k) else p
      case Unlisted(t, k) => if x == Exchange(Revoke(t), Http(204)) then ReaderRevoked(t, k) else p
      case ReaderRevoked(t, k) => if x.call == Probe(t) && Refusal(x.reply) then Proved(k) else p
      case Proved(_) => p
    }
  }

  /** What is known of the one DELETE; `Repeated` is a second one. */
  datatype Attempt = NotMade | Answered | InDoubt | Declared | Repeated

  function Follow(d: Attempt, x: Exchange): Attempt {
    if x.call.DeleteKey? then (if d != NotMade then Repeated else if x.reply.Http? then Answered else InDoubt)
    else if d == InDoubt && DeclaresUnknown(x.call) && x.reply.Answer? then Declared
    else d
  }

  predicate ConfirmsTarget(x: Exchange, target: ClaimTarget) {
    && x.call.Invoke? && x.call.call.op.ConfirmClaim? && x.reply.Answer?
    && ParseClaimConfirmation(x.reply.raw) == Accepted(target)
  }

  predicate BeginsWith(x: Exchange, start: StartId) {
    && x.call.Invoke? && x.call.call.op.Begin? && x.reply.Answer?
    && BeginCommitted(x.reply.raw) && x.reply.raw.reply.detail.start == Some(start)
  }

  predicate ConfirmsStart(x: Exchange, start: StartId) {
    x.call.Invoke? && x.call.call.op.ConfirmStart? && x.call.call.op.start == start && StartIsConfirmed(x.reply)
  }

  predicate Deletes(x: Exchange) { x.call.DeleteKey? }

  predicate AnsweredDelete(x: Exchange) { x.call.DeleteKey? && x.reply.Http? }

  predicate FailedDelete(x: Exchange) { x.call.DeleteKey? && !x.reply.Http? }

  predicate DeclaredUnknown(x: Exchange) { DeclaresUnknown(x.call) && x.reply.Answer? }

  predicate MintsSome(x: Exchange) { x.call.MintEffect? && x.reply.Minted? && x.reply.token.Some? }

  predicate Mints(x: Exchange, token: Token) {
    x.call.MintEffect? && x.reply.Minted? && x.reply.token == Some(token)
  }

  /** `owed`: effect tokens issued whose revocation was not attempted; `target`, `begun`,
      `confirmed`: what the contract last answered to the three questions a DELETE needs. */
  datatype Watch = Watch(
    proof: Proof, attempt: Attempt, owed: set<Token>,
    target: Option<ClaimTarget>, begun: Option<StartId>, confirmed: Option<StartId>)

  function Observe(w: Watch, x: Exchange): Watch {
    var owed :=
      if MintsSome(x) then w.owed + {x.reply.token.value}
      else if x.call.Revoke? then w.owed - {x.call.token}
      else w.owed;
    var target :=
      if x.call.Invoke? && x.call.call.op.ConfirmClaim? && x.reply.Answer? && ParseClaimConfirmation(x.reply.raw).Accepted?
      then Some(ParseClaimConfirmation(x.reply.raw).value) else w.target;
    var begun :=
      if x.call.Invoke? && x.call.call.op.Begin? && x.reply.Answer? && BeginCommitted(x.reply.raw)
      then x.reply.raw.reply.detail.start else w.begun;
    var confirmed :=
      if x.call.Invoke? && x.call.call.op.ConfirmStart? && StartIsConfirmed(x.reply) then Some(x.call.call.op.start)
      else w.confirmed;
    Watch(Advance(w.proof, x), Follow(w.attempt, x), owed, target, begun, confirmed)
  }

  function Watching(h: History): Watch {
    if h == [] then Watch(Nothing, NotMade, {}, None, None, None)
    else Observe(Watching(h[..|h| - 1]), h[|h| - 1])
  }

  // ---- The program agrees with the monitors

  predicate Untouched(c: Child, w: Watch) {
    c.token.None? && !c.cleaned && w.owed == {} && w.attempt == NotMade && w.proof == Nothing
  }

  predicate Targeted(c: Child, w: Watch)
    requires c.target.Some?
  {
    w.target == c.target && TargetMatchesRepository(c.target.value, c.launch.owner, c.launch.repo)
  }

  predicate Started(c: Child, w: Watch)
    requires c.target.Some?
  {
    Targeted(c, w) && w.begun == c.start && w.confirmed == c.start
  }

  predicate Holding(c: Child, w: Watch)
    requires c.target.Some? && c.token.Some?
  {
    Started(c, w) && !c.cleaned && w.owed <= {c.token.value} && w.proof == EffectHeld(c.token.value)
  }

  function AttemptAfter(deleted: Option<int>): Attempt { if deleted.None? then InDoubt else Answered }

  predicate Doubtful(c: Child) { c.classification == Some(AttemptedOutcomeUnknown) }

  predicate Settled(c: Child, w: Watch)
    requires c.target.Some?
  {
    Started(c, w) && c.cleaned && w.owed == {} && w.attempt == if Doubtful(c) then Declared else Answered
  }

  /** What the monitors have seen when the program is at each statement. */
  predicate Agrees(c: Child, w: Watch)
    requires Ready(c)
  {
    match c.pc {
      case Claiming | StoringProposal | ConfirmingClaim | StoringMismatch => Untouched(c, w)
      case Installing | Beginning => Untouched(c, w) && Targeted(c, w)
      case ConfirmingStart => Untouched(c, w) && Targeted(c, w) && w.begun == c.start
      case MintingEffect => Untouched(c, w) && Started(c, w)
      case Scoping | Inspecting | Surveying(_) | Deleting => Holding(c, w) && w.attempt == NotMade
      case Reinspecting(deleted) => Holding(c, w) && w.attempt == AttemptAfter(deleted)
      case Resurveying(deleted, _) => Holding(c, w) && w.attempt == AttemptAfter(deleted)
      case RevokingEffect => Holding(c, w) && w.attempt == if Doubtful(c) then InDoubt else Answered
      case ProbingEffect =>
        && Started(c, w) && !c.cleaned && w.owed == {} && w.proof == EffectRevoked(c.token.value)
        && w.attempt == if Doubtful(c) then InDoubt else Answered
      case DeclaringUnknown =>
        Started(c, w) && c.cleaned && w.owed == {} && w.proof == EffectRefused && w.attempt == InDoubt && Doubtful(c)
      case MintingReader => Settled(c, w) && w.proof == EffectRefused
      case ReaderScoping | ReaderInspecting => Settled(c, w) && w.proof == ReaderHeld(c.reader.value)
      case ReaderSurveying(exact) =>
        Settled(c, w) && (exact == 404 ==> w.proof == Missing(c.reader.value, TargetKey(c.target.value)))
      case RevokingReader(absent) =>
        Settled(c, w) && (absent == Some(true) ==> w.proof == Unlisted(c.reader.value, TargetKey(c.target.value)))
      case ProbingReader(absent) =>
        Settled(c, w) && (absent == Some(true) ==> w.proof == ReaderRevoked(c.reader.value, TargetKey(c.target.value)))
      case Concluding => Settled(c, w) && w.proof == Proved(TargetKey(c.target.value))
      case Unwinding => w.owed <= {c.token.value} && w.attempt != Repeated
      case UnwindProbing | Reporting(_) | Done => w.owed == {} && w.attempt != Repeated
    }
  }

  lemma AgreesInClaiming(c: Child, w: Watch, r: ChildReply)
    requires Ready(c) && (c.pc.Claiming? || c.pc.StoringProposal?) && Agrees(c, w)
    ensures Agrees(Step(c, r), Observe(w, Exchange(CallOf(c), r)))
  {
    hide StepEffect, StepAftermath, StepVerifier, StepExit;
  }

  lemma AgreesInConfirming(c: Child, w: Watch, r: ChildReply)
    requires Ready(c) && (c.pc.ConfirmingClaim? || c.pc.StoringMismatch?) && Agrees(c, w)
    ensures Agrees(Step(c, r), Observe(w, Exchange(CallOf(c), r)))
  {
    hide StepEffect, StepAftermath, StepVerifier, StepExit;
  }

  lemma AgreesInStarting(c: Child, w: Watch, r: ChildReply)
    requires Ready(c) && (c.pc.Installing? || c.pc.Beginning?) && Agrees(c, w)
    ensures Agrees(Step(c, r), Observe(w, Exchange(CallOf(c), r)))
  {
    hide StepClaim, StepAftermath, StepVerifier, StepExit;
  }

  lemma AgreesInMinting(c: Child, w: Watch, r: ChildReply)
    requires Ready(c) && (c.pc.ConfirmingStart? || c.pc.MintingEffect?) && Agrees(c, w)
    ensures Agrees(Step(c, r), Observe(w, Exchange(CallOf(c), r)))
  {
    hide StepClaim, StepAftermath, StepVerifier, StepExit;
  }

  lemma AgreesInPrechecks(c: Child, w: Watch, r: ChildReply)
    requires Ready(c) && (c.pc.Scoping? || c.pc.Inspecting?) && Agrees(c, w)
    ensures Agrees(Step(c, r), Observe(w, Exchange(CallOf(c), r)))
  {
    hide StepClaim, StepAftermath, StepVerifier, StepExit;
  }

  lemma AgreesInDelete(c: Child, w: Watch, r: ChildReply)
    requires Ready(c) && (c.pc.Surveying? || c.pc.Deleting?) && Agrees(c, w)
    ensures Agrees(Step(c, r), Observe(w, Exchange(CallOf(c), r)))
  {
    hide StepClaim, StepAftermath, StepVerifier, StepExit;
  }

  lemma AgreesInReread(c: Child, w: Watch, r: ChildReply)
    requires Ready(c) && (c.pc.Reinspecting? || c.pc.Resurveying?) && Agrees(c, w)
    ensures Agrees(Step(c, r), Observe(w, Exchange(CallOf(c), r)))
  {
    hide StepClaim, StepEffect, StepVerifier, StepExit;
  }

  lemma AgreesInRevoking(c: Child, w: Watch, r: ChildReply)
    requires Ready(c) && c.pc.RevokingEffect? && Agrees(c, w)
    ensures Agrees(Step(c, r), Observe(w, Exchange(CallOf(c), r)))
  {
    hide StepClaim, StepEffect, StepVerifier, StepExit;
  }

  lemma AgreesInProbing(c: Child, w: Watch, r: ChildReply)
    requires Ready(c) && c.pc.ProbingEffect? && Agrees(c, w)
    ensures Agrees(Step(c, r), Observe(w, Exchange(CallOf(c), r)))
  {
    hide StepClaim, StepEffect, StepVerifier, StepExit;
  }

  lemma AgreesInDeclaring(c: Child, w: Watch, r: ChildReply)
    requires Ready(c) && (c.pc.DeclaringUnknown? || c.pc.MintingReader?) && Agrees(c, w)
    ensures Agrees(Step(c, r), Observe(w, Exchange(CallOf(c), r)))
  {
    hide StepClaim, StepEffect, StepExit;
  }

  lemma AgreesInReader(c: Child, w: Watch, r: ChildReply)
    requires Ready(c) && (c.pc.ReaderScoping? || c.pc.ReaderInspecting?) && Agrees(c, w)
    ensures Agrees(Step(c, r), Observe(w, Exchange(CallOf(c), r)))
  {
    hide StepClaim, StepEffect, StepAftermath, StepExit;
  }

  lemma AgreesInReaderList(c: Child, w: Watch, r: ChildReply)
    requires Ready(c) && c.pc.ReaderSurveying? && Agrees(c, w)
    ensures Agrees(Step(c, r), Observe(w, Exchange(CallOf(c), r)))
  {
    hide StepClaim, StepEffect, StepAftermath, StepExit;
  }

  lemma AgreesInReaderExit(c: Child, w: Watch, r: ChildReply)
    requires Ready(c) && (c.pc.RevokingReader? || c.pc.ProbingReader?) && Agrees(c, w)
    ensures Agrees(Step(c, r), Observe(w, Exchange(CallOf(c), r)))
  {
    hide StepClaim, StepEffect, StepAftermath, StepExit;
  }

  lemma AgreesInConclusion(c: Child, w: Watch, r: ChildReply)
    requires Ready(c) && c.pc.Concluding? && Agrees(c, w)
    ensures Agrees(Step(c, r), Observe(w, Exchange(CallOf(c), r)))
  {
    hide StepClaim, StepEffect, StepAftermath, StepExit;
  }

  lemma AgreesInUnwinding(c: Child, w: Watch, r: ChildReply)
    requires Ready(c) && (c.pc.Unwinding? || c.pc.UnwindProbing?) && Agrees(c, w)
    ensures Agrees(Step(c, r), Observe(w, Exchange(CallOf(c), r)))
  {
    hide StepClaim, StepEffect, StepAftermath, StepVerifier;
  }

  lemma AgreesInReporting(c: Child, w: Watch, r: ChildReply)
    requires Ready(c) && c.pc.Reporting? && Agrees(c, w)
    ensures Agrees(Step(c, r), Observe(w, Exchange(CallOf(c), r)))
  {
    hide StepClaim, StepEffect, StepAftermath, StepVerifier;
  }

  lemma AgreesStep(c: Child, w: Watch, r: ChildReply)
    requires Ready(c) && !c.pc.Done? && Agrees(c, w)
    ensures Agrees(Step(c, r), Observe(w, Exchange(CallOf(c), r)))
  {
    hide Agrees, Step, Observe, CallOf;
    match c.pc {
      case Claiming | StoringProposal => AgreesInClaiming(c, w, r);
      case ConfirmingClaim | StoringMismatch => AgreesInConfirming(c, w, r);
      case Installing | Beginning => AgreesInStarting(c, w, r);
      case ConfirmingStart | MintingEffect => AgreesInMinting(c, w, r);
      case Scoping | Inspecting => AgreesInPrechecks(c, w, r);
      case Surveying(_) | Deleting => AgreesInDelete(c, w, r);
      case Reinspecting(_) | Resurveying(_, _) => AgreesInReread(c, w, r);
      case RevokingEffect => AgreesInRevoking(c, w, r);
      case ProbingEffect => AgreesInProbing(c, w, r);
      case DeclaringUnknown | MintingReader => AgreesInDeclaring(c, w, r);
      case ReaderScoping | ReaderInspecting => AgreesInReader(c, w, r);
      case ReaderSurveying(_) => AgreesInReaderList(c, w, r);
      case RevokingReader(_) | ProbingReader(_) => AgreesInReaderExit(c, w, r);
      case Concluding => AgreesInConclusion(c, w, r);
      case Unwinding | UnwindProbing => AgreesInUnwinding(c, w, r);
      case Reporting(_) => AgreesInReporting(c, w, r);
    }
  }

  lemma {:induction false} AgreesAlways(l: Launch, h: History)
    requires IsHistory(l, h)
    ensures Agrees(At(l, h), Watching(h))
    decreases |h|
  {
    if h != [] {
      AgreesAlways(l, h[..|h| - 1]);
      AgreesStep(At(l, h[..|h| - 1]), Watching(h[..|h| - 1]), h[|h| - 1].reply);
    }
  }

  // ---- What the monitors say, in terms of the exchanges themselves

  ghost predicate Seen(h: History, p: Exchange -> bool) { exists i | 0 <= i < |h| :: p(h[i]) }

  lemma {:induction false} WatchedReplies(h: History)
    ensures Watching(h).target.Some? ==> Seen(h, x => ConfirmsTarget(x, Watching(h).target.value))
    ensures Watching(h).begun.Some? ==> Seen(h, x => BeginsWith(x, Watching(h).begun.value))
    ensures Watching(h).confirmed.Some? ==> Seen(h, x => ConfirmsStart(x, Watching(h).confirmed.value))
    decreases |h|
  {
    if h != [] {
      var prior := h[..|h| - 1];
      WatchedReplies(prior);
      assert forall p: Exchange -> bool :: Seen(prior, p) || p(h[|h| - 1]) ==> Seen(h, p);
    }
  }

  lemma {:induction false} TwoDeletesAreSeen(h: History, i: nat, j: nat)
    requires i < j < |h| && h[i].call.DeleteKey? && h[j].call.DeleteKey?
    ensures Watching(h).attempt == Repeated
    decreases |h|
  {
    var prior := h[..|h| - 1];
    if j < |h| - 1 {
      TwoDeletesAreSeen(prior, i, j);
    } else {
      OneDeleteIsSeen(prior, i);
    }
  }

  lemma {:induction false} OneDeleteIsSeen(h: History, i: nat)
    requires i < |h| && h[i].call.DeleteKey?
    ensures Watching(h).attempt != NotMade
    decreases |h|
  {
    if i < |h| - 1 {
      OneDeleteIsSeen(h[..|h| - 1], i);
    }
  }

  /** A token that is no longer owed was handed to a revoke call after it was issued. */
  lemma {:induction false} SettledTokenWasRevoked(h: History, i: nat, token: Token)
    requires i < |h| && Mints(h[i], token) && token !in Watching(h).owed
    ensures exists j | i < j < |h| :: h[j].call == Revoke(token)
    decreases |h|
  {
    var prior := h[..|h| - 1];
    if i < |h| - 1 {
      if token !in Watching(prior).owed {
        SettledTokenWasRevoked(prior, i, token);
        var j :| i < j < |prior| && prior[j].call == Revoke(token);
        assert h[j].call == Revoke(token);
      } else {
        assert h[|h| - 1].call == Revoke(token);
      }
    }
  }

  lemma {:induction false} DoubtComesFromTheDelete(h: History)
    ensures Watching(h).attempt in {InDoubt, Declared} ==> Seen(h, FailedDelete)
    ensures Watching(h).attempt == Answered ==> Seen(h, AnsweredDelete)
    ensures Watching(h).attempt == Declared ==> Seen(h, DeclaredUnknown)
    decreases |h|
  {
    if h != [] {
      var prior := h[..|h| - 1];
      DoubtComesFromTheDelete(prior);
      assert forall p: Exchange -> bool :: Seen(prior, p) || p(h[|h| - 1]) ==> Seen(h, p);
    }
  }

  // ---- The four promises of run.ts

  /** A DELETE goes to the configured repository and the key the contract named for the
      confirmed claim, under a start id that this child's own begin-effect returned and the
      contract then confirmed; and it is the first DELETE of this child. */
  lemma DeleteIsGrounded(l: Launch, h: History)
    requires IsHistory(l, h) && !At(l, h).pc.Done? && CallOf(At(l, h)).DeleteKey?
    ensures
      var w := Watching(h);
      var call := CallOf(At(l, h));
      && w.target.Some? && w.begun.Some? && w.confirmed == w.begun
      && call == DeleteKey(call.token, l.owner, l.repo, w.target.value.keyId)
      && w.target.value.owner == l.owner && w.target.value.repo == l.repo
      && Seen(h, x => ConfirmsTarget(x, w.target.value))
      && Seen(h, x => BeginsWith(x, w.begun.value))
      && Seen(h, x => ConfirmsStart(x, w.begun.value))
      && !Seen(h, Deletes)
  {
    AgreesAlways(l, h);
    WatchedReplies(h);
    if i :| 0 <= i < |h| && Deletes(h[i]) {
      OneDeleteIsSeen(h, i);
    }
  }

  /** No run of a child contains two DELETEs. */
  lemma DeletesOnce(l: Launch, h: History, i: nat, j: nat)
    requires IsHistory(l, h) && i < |h| && j < |h| && h[i].call.DeleteKey? && h[j].call.DeleteKey?
    ensures i == j
  {
    AgreesAlways(l, h);
    if i < j {
      TwoDeletesAreSeen(h, i, j);
    } else if j < i {
      TwoDeletesAreSeen(h, j, i);
    }
  }

  /** VERIFIED_ABSENT is declared only once the effect token is revoked and refused and a
      read-only token, itself revoked and refused, saw the target gone from its repository: a
      404 for the key and a list without it.  If the DELETE failed
      in transport, UNKNOWN was declared and answered before, and only reconcile is used. */
  lemma AbsenceIsProved(l: Launch, h: History)
    requires IsHistory(l, h) && !At(l, h).pc.Done? && DeclaresAbsent(CallOf(At(l, h)))
    ensures Watching(h).target.Some? && Watching(h).proof == Proved(TargetKey(Watching(h).target.value))
    ensures CallOf(At(l, h)).call.op.Finalize? <==> Watching(h).attempt == Answered
    ensures CallOf(At(l, h)).call.op.Reconcile? <==> Watching(h).attempt == Declared
    ensures Seen(h, FailedDelete) ==>
              CallOf(At(l, h)).call.op.Reconcile? && Seen(h, DeclaredUnknown)
  {
    AgreesAlways(l, h);
    DoubtComesFromTheDelete(h);
    if i :| 0 <= i < |h| && FailedDelete(h[i]) {
      if Watching(h).attempt == Answered {
        var j :| 0 <= j < |h| && AnsweredDelete(h[j]);
        DeletesOnce(l, h, i, j);
      }
    }
  }

  /** An effect token is requested only after the contract confirmed this child's start. */
  lemma MintIsJustInTime(l: Launch, h: History)
    requires IsHistory(l, h) && !At(l, h).pc.Done? && CallOf(At(l, h)).MintEffect?
    ensures Watching(h).begun.Some? && Seen(h, x => ConfirmsStart(x, Watching(h).begun.value))
    ensures !Seen(h, MintsSome)
  {
    AgreesAlways(l, h);
    WatchedReplies(h);
    if i :| 0 <= i < |h| && MintsSome(h[i]) {
      MintIsSeen(h, i);
    }
  }

  lemma {:induction false} MintIsSeen(h: History, i: nat)
    requires i < |h| && MintsSome(h[i])
    ensures Watching(h).proof != Nothing
    decreases |h|
  {
    if i < |h| - 1 {
      MintIsSeen(h[..|h| - 1], i);
    }
  }

  predicate PastMint(pc: Pc) {
    PhaseOf(pc) != ClaimPhase && !pc.Installing? && !pc.Beginning? && !pc.ConfirmingStart? && !pc.MintingEffect?
  }

  lemma FailIsPastMint(c: Child)
    ensures PastMint(Fail(c).pc) && PastMint(Report(c).pc)
  {
  }

  lemma EffectIsPastMint(c: Child, r: ChildReply)
    requires Ready(c) && PhaseOf(c.pc) == EffectPhase && (PastMint(c.pc) || c.pc.MintingEffect?)
    ensures PastMint(StepEffect(c, r).pc)
  {
    hide Fail, Report, PresentReadOnly, ListsTarget, BeginCommitted, StartIsConfirmed;
    FailIsPastMint(c);
    if r.Minted? {
      FailIsPastMint(c.(token := r.token, evidence := c.evidence.(tokenMinted := r.token.Some?, mintCount := if r.token.Some? then 1 else 0)));
    }
  }

  lemma AftermathIsPastMint(c: Child, r: ChildReply)
    requires Ready(c) && PhaseOf(c.pc) == AftermathPhase
    ensures PastMint(StepAftermath(c, r).pc)
  {
    hide Fail, Report, Classify, OnEffectProbe;
    FailIsPastMint(c);
    FailIsPastMint(c.(cleaned := true));
    match c.pc {
      case Reinspecting(deleted) => ClassifiedIsPastMint(c, deleted, None, Threw);
      case Resurveying(deleted, exact) => ClassifiedIsPastMint(c, deleted, Some(exact), r);
      case ProbingEffect => ProbedIsPastMint(c, r);
      case _ =>
    }
  }

  lemma ClassifiedIsPastMint(c: Child, deleted: Option<int>, exact: Option<int>, r: ChildReply)
    requires c.target.Some? && c.start.Some? && c.token.Some?
    ensures PastMint(Classify(c, deleted, exact, r).pc)
  {
  }

  lemma ProbedIsPastMint(c: Child, r: ChildReply)
    requires c.target.Some? && c.start.Some? && c.token.Some?
    ensures PastMint(OnEffectProbe(c, r).pc)
  {
    hide Fail, Report;
    FailIsPastMint(c);
    FailIsPastMint(c.(cleaned := true));
  }

  lemma VerifierIsPastMint(c: Child, r: ChildReply)
    requires Ready(c) && PhaseOf(c.pc) == VerifierPhase
    ensures PastMint(StepVerifier(c, r).pc)
  {
    hide Fail, Report, OnConclusion, OnReaderList;
    FailIsPastMint(c);
    match c.pc {
      case ReaderSurveying(exact) => ReaderListIsPastMint(c, exact, r);
      case Concluding => ConclusionIsPastMint(c, r);
      case _ =>
    }
  }

  lemma ReaderListIsPastMint(c: Child, exact: int, r: ChildReply)
    requires c.target.Some? && c.start.Some? && c.reader.Some?
    ensures PastMint(OnReaderList(c, exact, r).pc)
  {
  }

  lemma ConclusionIsPastMint(c: Child, r: ChildReply)
    ensures PastMint(OnConclusion(c, r).pc)
  {
    hide Fail, Report;
    FailIsPastMint(c);
    if r.Answer? {
      FailIsPastMint(c.(evidence := c.evidence.(reconciled := Some(r.raw), classification := Some(VerifiedAbsent))));
      FailIsPastMint(c.(evidence := c.evidence.(finalized := Some(r.raw))));
    }
  }

  /** Nothing leads back to the mint. */
  lemma StepIsPastMint(c: Child, r: ChildReply)
    requires Ready(c) && !c.pc.Done? && (PastMint(c.pc) || c.pc.MintingEffect?)
    ensures PastMint(Step(c, r).pc)
  {
    hide StepClaim, StepEffect, StepAftermath, StepVerifier;
    match PhaseOf(c.pc) {
      case EffectPhase => EffectIsPastMint(c, r);
      case AftermathPhase => AftermathIsPastMint(c, r);
      case VerifierPhase => VerifierIsPastMint(c, r);
      case _ => FailIsPastMint(c);
    }
  }

  lemma {:induction false} MintIsBehind(l: Launch, h: History, m: nat)
    requires IsHistory(l, h) && m < |h| && At(l, h[..m]).pc.MintingEffect?
    ensures PastMint(At(l, h).pc)
    decreases |h|
  {
    hide Step, CallOf, PastMint;
    var prior := h[..|h| - 1];
    if m < |prior| {
      assert prior[..m] == h[..m];
      MintIsBehind(l, prior, m);
    } else {
      assert prior == h[..m];
    }
    StepIsPastMint(At(l, prior), h[|h| - 1].reply);
  }

  /** No run of a child asks for an effect token twice, whatever became of the first. */
  lemma MintsOnce(l: Launch, h: History, m: nat, n: nat)
    requires IsHistory(l, h) && m <= n && Issues(l, h, m, MintEffect) && Issues(l, h, n, MintEffect)
    ensures m == n
  {
    hide Step, IsHistory;
    if m < n {
      PrefixIsHistory(l, h, n);
      assert h[..n][..m] == h[..m];
      MintIsBehind(l, h[..n], m);
    }
  }

  /** Every effect token a finished child was given was handed to a revoke call. */
  lemma TokensAreReturned(l: Launch, h: History, i: nat, token: Token)
    requires IsHistory(l, h) && At(l, h).pc.Done?
    requires i < |h| && Mints(h[i], token)
    ensures exists j | i < j < |h| :: h[j].call == Revoke(token)
  {
    AgreesAlways(l, h);
    SettledTokenWasRevoked(h, i, token);
  }

  /** A child speaks to the contract about its own incident only, starts effects under its own
      nonce only, and never creates incidents. */
  lemma SpeaksForItself(l: Launch, h: History, n: nat, call: ChildCall)
    requires Issues(l, h, n, call) && call.Invoke?
    ensures call.call.incident == l.incident && call.call.caller == l.broker && !call.call.op.Create?
    ensures call.call.op.Begin? ==> call.call.op.startNonce == l.startNonce
    ensures call.call.op.Finalize? || call.call.op.Reconcile? ==> DeclaresAbsent(call) || DeclaresUnknown(call)
  {
  }

  ghost predicate TokensReturned(h: History) {
    forall i, token | 0 <= i < |h| && Mints(h[i], token) :: exists j | i < j < |h| :: h[j].call == Revoke(token)
  }

  predicate DeletesAtMostOnce(h: History) {
    forall i, j | 0 <= i < |h| && 0 <= j < |h| :: Deletes(h[i]) && Deletes(h[j]) ==> i == j
  }

  /** The two together, for a child that ran to its end. */
  lemma FinishedChildIsClean(l: Launch, h: History)
    requires IsHistory(l, h) && At(l, h).pc.Done?
    ensures TokensReturned(h) && DeletesAtMostOnce(h)
  {
    forall i, token | 0 <= i < |h| && Mints(h[i], token) ensures exists j | i < j < |h| :: h[j].call == Revoke(token) {
      TokensAreReturned(l, h, i, token);
    }
    forall i, j | 0 <= i < |h| && 0 <= j < |h| && Deletes(h[i]) && Deletes(h[j]) ensures i == j {
      DeletesOnce(l, h, i, j);
    }
  }

  /** What the contract answers when it starts the effect is what the child takes for a
      committed start, under the child's own nonce. */
  lemma WonBeginIsRecognized(a: Authority, call: C1.Call, operator: Did, now: nat)
    requires ValidShape(a) && call.op.Begin?
    ensures
      var reply := ReplyFrom(Some(a), call, operator, now);
      && (BeginCommitted(Object(reply)) <==> reply.result == Won)
      && (reply.result == Won ==> reply.detail.start == Some(StartId(a.claimVersion, call.op.startNonce)))
  {
  }

  // ---- The promises are not empty

  lemma Extends(l: Launch, h: History, r: ChildReply) returns (h': History)
    requires IsHistory(l, h) && !At(l, h).pc.Done?
    ensures h' == h + [Exchange(CallOf(At(l, h)), r)]
    ensures IsHistory(l, h') && At(l, h') == Step(At(l, h), r)
  {
    hide Step, CallOf;
    h' := h + [Exchange(CallOf(At(l, h)), r)];
    OneMore(l, h, h'[|h|]);
  }

  lemma NothingSaid(l: Launch)
    ensures IsHistory(l, []) && At(l, []) == Launched(l)
  {
  }

  /** Any child that is launched without a claim and answered well comes to its DELETE. */
  lemma ClaimIsReachable(l: Launch, keyId: int) returns (h: History)
    requires l.existing.None? && l.owner != "" && l.repo != "" && 0 < keyId <= MAX_SAFE_INTEGER
    ensures IsHistory(l, h) && At(l, h).pc.Installing?
    ensures At(l, h).target == Some(ClaimTarget(l.owner, l.repo, keyId, Claimed(ClaimId(1, l.claimNonce), 1)))
  {
    hide StepEffect, StepAftermath, StepVerifier, StepExit, IsHistory, At;
    NothingSaid(l);
    var claim := ClaimId(1, l.claimNonce);
    var identity := NO_DETAIL.(claim := Some(claim), claimVersion := Some(1));
    h := Extends(l, [], Answer(Object(Reply(Proposed, Claim(0, l.claimNonce), Some(EffectClaimed), Some(0), identity, false))));
    h := Extends(l, h, Stored);
    var named := identity.(revokesDeployKey := true, owner := Some(l.owner), repo := Some(l.repo), keyId := Some(keyId));
    h := Extends(l, h, Answer(Object(Reply(Confirmed, ConfirmClaim(claim), Some(EffectClaimed), Some(0), named, false))));
  }

  lemma MintIsReachable(l: Launch, keyId: int) returns (h: History)
    requires l.existing.None? && l.owner != "" && l.repo != "" && 0 < keyId <= MAX_SAFE_INTEGER
    ensures IsHistory(l, h) && At(l, h).pc.MintingEffect?
    ensures At(l, h).target.Some? && At(l, h).target.value.keyId == keyId
  {
    hide StepClaim, StepAftermath, StepVerifier, StepExit, Fail, IsHistory;
    h := ClaimIsReachable(l, keyId);
    var claim := ClaimId(1, l.claimNonce);
    var start := StartId(1, l.startNonce);
    h := Extends(l, h, Http(200));
    h := Extends(l, h, Answer(Object(Reply(Won, Begin(claim, l.startNonce), Some(EffectStarted), Some(1), NO_DETAIL.(start := Some(start)), false))));
    h := Extends(l, h, Answer(Object(Reply(Confirmed, ConfirmStart(claim, start), Some(EffectStarted), Some(1), NO_DETAIL, false))));
  }

  lemma CheckIsReachable(l: Launch, keyId: int, token: Token) returns (h: History)
    requires l.existing.None? && l.owner != "" && l.repo != "" && 0 < keyId <= MAX_SAFE_INTEGER
    ensures IsHistory(l, h) && At(l, h).pc.Inspecting? && At(l, h).token == Some(token)
    ensures At(l, h).target.Some? && At(l, h).target.value.keyId == keyId
  {
    hide StepClaim, StepAftermath, StepVerifier, StepExit, Fail, IsHistory;
    h := MintIsReachable(l, keyId);
    h := Extends(l, h, Minted(201, Some(token)));
    h := Extends(l, h, Repositories(200, true));
  }

  lemma SurveyIsReachable(l: Launch, keyId: int, token: Token) returns (h: History)
    requires l.existing.None? && l.owner != "" && l.repo != "" && 0 < keyId <= MAX_SAFE_INTEGER
    ensures IsHistory(l, h) && At(l, h).pc == Surveying(true) && At(l, h).token == Some(token)
    ensures At(l, h).target.Some? && At(l, h).target.value.keyId == keyId
  {
    hide StepClaim, StepAftermath, StepVerifier, StepExit, Fail, IsHistory;
    h := CheckIsReachable(l, keyId, token);
    h := Extends(l, h, KeyBody(200, Some(keyId), Some(l.title), true));
  }

  lemma DeleteIsReachable(l: Launch, keyId: int, token: Token) returns (h: History)
    requires l.existing.None? && l.owner != "" && l.repo != "" && 0 < keyId <= MAX_SAFE_INTEGER
    ensures IsHistory(l, h) && !At(l, h).pc.Done? && CallOf(At(l, h)) == DeleteKey(token, l.owner, l.repo, keyId)
  {
    hide StepClaim, StepAftermath, StepVerifier, StepExit, Fail, IsHistory;
    h := SurveyIsReachable(l, keyId, token);
    assert Some(keyId) in [Some(keyId)];
    h := Extends(l, h, Keys(200, Some([Some(keyId)])));
  }
}
