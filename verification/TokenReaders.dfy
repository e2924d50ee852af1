/** The two read-only GitHub readers that must hand their token back: the provider verifier
    (winner/broker/provider-verifier.ts) and the immutable source reader
    (winner/c2/push-source-reader.ts).

    Replies come from an arbitrary function of what was said before; `Threw` is a rejected
    promise.  Neither reader has a call that changes anything at GitHub but its own token. */
module TokenReaders {
  import opened Domain
  import opened BrokerLogic
  import E = PushEvidence

  type Token = nat

  datatype Call =
    | Mint
    | Repositories(token: Token)
    | Exact(token: Token, owner: string, repo: string, keyId: int)
    | Keys(token: Token, owner: string, repo: string)
    | Read(token: Token, operation: E.ReadOperation)
    | Revoke(token: Token)
    | Probe(token: Token)

  datatype Reply =
    | Threw
    | Minted(token: Option<Token>)
    | Scope(status: int, private: bool)
    | Http(status: int)
    | Listed(status: int, listing: KeyListing)
    | Observed(observation: E.Observation)

  datatype Exchange = Exchange(call: Call, reply: Reply)

  type Log = seq<Exchange>
  type World = (Log, Call) -> Reply

  /** Every reply is the world's. */
  predicate AnsweredBy(log: Log, world: World) {
    forall i | 0 <= i < |log| :: log[i].reply == world(log[..i], log[i].call)
  }

  predicate Mints(x: Exchange, token: Token) { x.call == Mint && x.reply == Minted(Some(token)) }

  /** Every token that was issued was handed to a revoke call later. */
  ghost predicate TokensReturned(log: Log) {
    forall i, token | 0 <= i < |log| && Mints(log[i], token) :: exists j | i < j < |log| :: log[j].call == Revoke(token)
  }

  predicate Refused(reply: Reply) { reply.Http? && (reply.status == 401 || reply.status == 403) }

  /** The last two exchanges ended the token: revoked with 204, then refused. */
  predicate TokenEnded(log: Log, token: Token) {
    |log| >= 2 && log[|log| - 2] == Exchange(Revoke(token), Http(204)) && log[|log| - 1].call == Probe(token) && Refused(log[|log| - 1].reply)
  }

  method Say(world: World, log: Log, call: Call) returns (later: Log, reply: Reply)
    requires AnsweredBy(log, world)
    ensures later == log + [Exchange(call, reply)] && AnsweredBy(later, world)
  {
    reply := world(log, call);
    later := log + [Exchange(call, reply)];
    assert forall i | 0 <= i < |log| :: later[..i] == log[..i];
    assert later[..|log|] == log;
  }

  /** The finally blocks: false where they throw. */
  method EndToken(world: World, log: Log, token: Token) returns (later: Log, ok: bool)
    requires AnsweredBy(log, world)
    ensures AnsweredBy(later, world) && log < later && later[|log|].call == Revoke(token)
    ensures forall i | |log| <= i < |later| :: later[i].call == Revoke(token) || later[i].call == Probe(token)
    ensures ok <==> TokenEnded(later, token) && |later| == |log| + 2
    ensures |later| <= |log| + 2
  {
    var revoked, probed;
    later, revoked := Say(world, log, Revoke(token));
    if revoked != Http(204) {
      return later, false;
    }
    later, probed := Say(world, later, Probe(token));
    return later, Refused(probed);
  }

  /** An observation answers a read exactly when it names the repository, the path and the commit
      that were asked for and is a 404, or a 200 with a well-formed digest. */
  lemma ObservesExactly(o: E.Observation, op: E.ReadOperation)
    ensures E.Observes(o, op) <==>
            && o.repository == op.repository && o.path == op.path && o.commit == op.commit
            && (o.status == 404 || (o.status == 200 && o.digest.Some? && |o.digest.value| == 64
                                    && forall c <- o.digest.value :: '0' <= c <= '9' || 'a' <= c <= 'f'))
  {
  }

  // ---- verifyProviderTarget

  /** The exchanges of a verification that found its answer. */
  predicate Looked(log: Log, token: Token, owner: string, repo: string, keyId: int) {
    && |log| == 4
    && Mints(log[0], token)
    && log[1].call == Repositories(token) && log[1].reply == Scope(200, true)
    && log[2].call == Exact(token, owner, repo, keyId) && log[2].reply.Http?
    && log[3].call == Keys(token, owner, repo) && log[3].reply.Listed?
  }

  predicate FoundAbsent(log: Log, keyId: int)
    requires |log| >= 4 && log[2].reply.Http? && log[3].reply.Listed?
  {
    log[2].reply.status == 404 && log[3].reply.status == 200 && ListIsWellFormed(log[3].reply.listing) && !ListContains(log[3].reply.listing, keyId)
  }

  /** The try block, with a token: the reads as far as they came. */
  method LookUp(world: World, start: Log, token: Token, owner: string, repo: string, targetId: int) returns (log: Log, found: Option<bool>)
    requires AnsweredBy(start, world) && |start| == 1 && Mints(start[0], token)
    ensures AnsweredBy(log, world) && start <= log && |log| <= 4
    ensures found.Some? <==> Looked(log, token, owner, repo, targetId)
    ensures found.Some? ==> found.value == FoundAbsent(log, targetId)
    ensures forall i | 1 <= i < |log| :: !log[i].call.Mint?
  {
    var repositories, exact, listed;
    log, repositories := Say(world, start, Repositories(token));
    if repositories != Scope(200, true) {
      return log, None;
    }
    log, exact := Say(world, log, Exact(token, owner, repo, targetId));
    if !exact.Http? {
      return log, None;
    }
    log, listed := Say(world, log, Keys(token, owner, repo));
    if !listed.Listed? {
      return log, None;
    }
    found := Some(exact.status == 404 && listed.status == 200 && ListIsWellFormed(listed.listing) && !ListContains(listed.listing, targetId));
  }

  /** What a verification that answers has behind it: the reads, then the end of its token. */
  ghost predicate Verified(log: Log, owner: string, repo: string, targetId: int) {
    |log| == 6 && exists token :: Looked(log[..4], token, owner, repo, targetId) && TokenEnded(log, token)
  }

  /** The six exchanges of a verification that answers, in full: a token, the private repository
      in scope, the key, the list, the revocation with 204 and the refused probe. */
  lemma VerifiedExactly(log: Log, owner: string, repo: string, targetId: int)
    ensures Verified(log, owner, repo, targetId) <==>
            && |log| == 6
            && log[0].call == Mint && log[0].reply.Minted? && log[0].reply.token.Some?
            && var token := log[0].reply.token.value;
               && log[1] == Exchange(Repositories(token), Scope(200, true))
               && log[2].call == Exact(token, owner, repo, targetId) && log[2].reply.Http?
               && log[3].call == Keys(token, owner, repo) && log[3].reply.Listed?
               && log[4] == Exchange(Revoke(token), Http(204))
               && log[5].call == Probe(token) && log[5].reply.Http? && (log[5].reply.status == 401 || log[5].reply.status == 403)
  {
    if |log| == 6 && log[0].reply.Minted? && log[0].reply.token.Some? {
      var token := log[0].reply.token.value;
      assert log[..4][0] == log[0] && log[..4][1] == log[1] && log[..4][2] == log[2] && log[..4][3] == log[3];
      assert Looked(log[..4], token, owner, repo, targetId) && TokenEnded(log, token) ==> Verified(log, owner, repo, targetId);
    }
  }

  /** Absent means a 404 for the key and a 200 with a well-formed list that lacks it. */
  lemma AbsentExactly(log: Log, keyId: int)
    requires |log| >= 4 && log[2].reply.Http? && log[3].reply.Listed?
    ensures FoundAbsent(log, keyId) <==>
            && log[2].reply.status == 404 && log[3].reply.status == 200 && log[3].reply.listing.Some?
            && Some(keyId) !in log[3].reply.listing.value && forall row <- log[3].reply.listing.value :: row.Some? && row.value > 0
  {
  }

  /** `absent` is None where the source throws; Some(true) is VERIFIED_ABSENT. */
  method VerifyProviderTarget(owner: string, repo: string, targetId: int, world: World) returns (log: Log, absent: Option<bool>)
    ensures AnsweredBy(log, world) && TokensReturned(log)
    ensures !(0 < targetId <= MAX_SAFE_INTEGER) ==> log == [] && absent.None?
    ensures absent.Some? <==> Verified(log, owner, repo, targetId)
    ensures absent.Some? ==> absent.value == FoundAbsent(log[..4], targetId)
  {
    hide Looked, TokenEnded, TokensReturned, FoundAbsent, ListIsWellFormed, ListContains;
    log, absent := [], None;
    NothingToReturn(log);
    if !(0 < targetId <= MAX_SAFE_INTEGER) {
      return;
    }
    var minted, found, ended;
    log, minted := Say(world, log, Mint);
    if !minted.Minted? || minted.token.None? {
      NothingToReturn(log);
      return;
    }
    var token := minted.token.value;
    log, found := LookUp(world, log, token, owner, repo, targetId);
    ghost var looked := log;
    log, ended := EndToken(world, log, token);
    OneTokenReturned(looked, log, token);
    if ended && found.Some? {
      AnswerIsVerified(looked, log, token, owner, repo, targetId);
      return log, found;
    }
    NothingVerified(looked, log, token, owner, repo, targetId, found.Some?, ended);
  }

  lemma NothingToReturn(log: Log)
    requires |log| <= 1 && forall x <- log :: x.reply.Minted? ==> x.reply.token.None?
    ensures TokensReturned(log)
  {
    forall i, t | 0 <= i < |log| ensures !Mints(log[i], t) {
      assert log[i] in log;
    }
  }

  lemma AnswerIsVerified(looked: Log, log: Log, token: Token, owner: string, repo: string, targetId: int)
    requires Looked(looked, token, owner, repo, targetId) && looked < log && |log| == |looked| + 2 && TokenEnded(log, token)
    ensures Verified(log, owner, repo, targetId) && log[..4] == looked
  {
    assert log[..4] == looked;
  }

  lemma OneTokenReturned(looked: Log, log: Log, token: Token)
    requires looked != [] && looked < log && Mints(looked[0], token) && log[|looked|].call == Revoke(token)
    requires forall i | 1 <= i < |looked| :: !looked[i].call.Mint?
    requires forall i | |looked| <= i < |log| :: log[i].call == Revoke(token) || log[i].call == Probe(token)
    ensures TokensReturned(log)
  {
    forall i, t | 0 <= i < |log| && Mints(log[i], t) ensures exists j | i < j < |log| :: log[j].call == Revoke(t) {
      assert i < |looked| ==> log[i] == looked[i];
      assert i == 0 && t == token;
    }
  }

  lemma NothingVerified(looked: Log, log: Log, token: Token, owner: string, repo: string, targetId: int, found: bool, ended: bool)
    requires looked != [] && looked < log && |looked| <= 4 && Mints(looked[0], token)
    requires found <==> Looked(looked, token, owner, repo, targetId)
    requires ended <==> TokenEnded(log, token) && |log| == |looked| + 2
    requires !(ended && found)
    requires |log| <= |looked| + 2
    ensures !Verified(log, owner, repo, targetId)
  {
    if |log| == 6 {
      assert log[..4] == looked;
    }
  }

  // ---- readPlan

  datatype Observations = Observations(before: E.Observation, after: E.Observation)

  predicate InScope(plan: E.ReadPlan, owner: string, repo: string) {
    owner + "/" + repo == PUSH_REPOSITORY && plan.repository == PUSH_REPOSITORY && plan.path == SECRET_PATH
  }

  /** Exactly the two immutable reads of the plan, each observed as asked. */
  predicate ReadBoth(log: Log, token: Token, plan: E.ReadPlan, o: Observations) {
    && |log| == 3
    && Mints(log[0], token)
    && log[1] == Exchange(Read(token, E.BeforeRead(plan)), Observed(o.before))
    && log[2] == Exchange(Read(token, E.AfterRead(plan)), Observed(o.after))
    && E.Observes(o.before, E.BeforeRead(plan)) && E.Observes(o.after, E.AfterRead(plan))
  }

  /** Nothing but the plan's two commits is ever read. */
  predicate ReadsOnly(log: Log, plan: E.ReadPlan) {
    forall x <- log :: x.call.Read? ==> x.call.operation == E.BeforeRead(plan) || x.call.operation == E.AfterRead(plan)
  }

  method ReadCommits(world: World, start: Log, token: Token, plan: E.ReadPlan) returns (log: Log, found: Option<Observations>)
    requires AnsweredBy(start, world) && |start| == 1 && Mints(start[0], token)
    ensures AnsweredBy(log, world) && start <= log && |log| <= 3 && ReadsOnly(log, plan)
    ensures found.Some? ==> ReadBoth(log, token, plan, found.value)
    ensures found.None? ==> forall o :: !ReadBoth(log, token, plan, o)
    ensures forall i | 1 <= i < |log| :: !log[i].call.Mint?
  {
    var first, second;
    log, first := Say(world, start, Read(token, E.BeforeRead(plan)));
    if !first.Observed? {
      return log, None;
    }
    log, second := Say(world, log, Read(token, E.AfterRead(plan)));
    if !second.Observed? {
      return log, None;
    }
    if !E.Observes(first.observation, E.BeforeRead(plan)) || !E.Observes(second.observation, E.AfterRead(plan)) {
      return log, None;
    }
    found := Some(Observations(first.observation, second.observation));
  }

  /** What an answer of the source reader has behind it. */
  ghost predicate ReadAndEnded(log: Log, plan: E.ReadPlan, o: Observations) {
    |log| == 5 && exists token :: ReadBoth(log[..3], token, plan, o) && TokenEnded(log, token)
  }

  /** The five exchanges of a reading that answers, in full, for a plan of the one repository and
      the one path. */
  lemma ReadsExactly(log: Log, plan: E.ReadPlan, o: Observations)
    ensures ReadAndEnded(log, plan, o) <==>
            && |log| == 5
            && log[0].call == Mint && log[0].reply.Minted? && log[0].reply.token.Some?
            && var token := log[0].reply.token.value;
               && log[1] == Exchange(Read(token, E.ReadOperation(plan.repository, plan.path, plan.before)), Observed(o.before))
               && log[2] == Exchange(Read(token, E.ReadOperation(plan.repository, plan.path, plan.after)), Observed(o.after))
               && E.Observes(o.before, log[1].call.operation) && E.Observes(o.after, log[2].call.operation)
               && log[3] == Exchange(Revoke(token), Http(204))
               && log[4].call == Probe(token) && log[4].reply.Http? && (log[4].reply.status == 401 || log[4].reply.status == 403)
  {
    if |log| == 5 && log[0].reply.Minted? && log[0].reply.token.Some? {
      var token := log[0].reply.token.value;
      assert log[..3][0] == log[0] && log[..3][1] == log[1] && log[..3][2] == log[2];
      assert ReadBoth(log[..3], token, plan, o) && TokenEnded(log, token) ==> ReadAndEnded(log, plan, o);
    }
  }

  lemma ScopeIsExact(plan: E.ReadPlan, owner: string, repo: string)
    ensures InScope(plan, owner, repo) <==>
            && owner + "/" + repo == "Ticoworld/t3n-breakglass-sandbox"
            && plan.repository == "Ticoworld/t3n-breakglass-sandbox" && plan.path == ".breakglass-c2/exposed-deploy-key"
  {
  }

  /** None where the source throws.  An answer is only given once both reads were observed as
      asked and the token is revoked and refused. */
  method ReadPlan(plan: E.ReadPlan, owner: string, repo: string, world: World) returns (log: Log, r: Option<Observations>)
    ensures AnsweredBy(log, world) && TokensReturned(log) && ReadsOnly(log, plan)
    ensures !InScope(plan, owner, repo) ==> log == [] && r.None?
    ensures r.Some? ==> ReadAndEnded(log, plan, r.value)
    ensures r.None? ==> forall o :: !ReadAndEnded(log, plan, o)
  {
    hide TokenEnded, TokensReturned, ReadBoth;
    log, r := [], None;
    NothingToReturn(log);
    if !InScope(plan, owner, repo) {
      return;
    }
    var minted, found, ended;
    log, minted := Say(world, log, Mint);
    if !minted.Minted? || minted.token.None? {
      NothingToReturn(log);
      return;
    }
    var token := minted.token.value;
    log, found := ReadCommits(world, log, token, plan);
    ghost var looked := log;
    log, ended := EndToken(world, log, token);
    OneTokenReturned(looked, log, token);
    StillReadsOnly(looked, log, token, plan);
    if ended && found.Some? {
      assert log[..3] == looked;
      return log, found;
    }
    NothingRead(looked, log, token, plan, ended);
  }

  lemma StillReadsOnly(looked: Log, log: Log, token: Token, plan: E.ReadPlan)
    requires looked <= log && ReadsOnly(looked, plan)
    requires forall i | |looked| <= i < |log| :: log[i].call == Revoke(token) || log[i].call == Probe(token)
    ensures ReadsOnly(log, plan)
  {
    forall x <- log ensures x.call.Read? ==> x.call.operation == E.BeforeRead(plan) || x.call.operation == E.AfterRead(plan) {
      var i :| 0 <= i < |log| && log[i] == x;
      assert i < |looked| ==> looked[i] in looked;
    }
  }

  lemma NothingRead(looked: Log, log: Log, token: Token, plan: E.ReadPlan, ended: bool)
    requires looked != [] && looked < log && |looked| <= 3 && Mints(looked[0], token) && |log| <= |looked| + 2
    requires ended <==> TokenEnded(log, token) && |log| == |looked| + 2
    requires ended ==> forall o :: !ReadBoth(looked, token, plan, o)
    ensures forall o :: !ReadAndEnded(log, plan, o)
  {
    if |log| == 5 {
      assert log[..3] == looked;
    }
  }
}
