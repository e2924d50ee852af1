/** What BreakGlass promises of every run, over every interleaving, crash and lost reply. */
module Safety {
  import opened Domain
  import opened C1 = C1Contract
  import opened BrokerLogic
  import opened System
  import opened Custody
  import opened Effects
  import opened Handoffs
  import opened Invariant
  import E = PushEvidence
  import R = PolicyRegistry
  import P = PushPolicy
  import D = Dedupe
  import J = JobStore
  import PI = PushIngress
  import Co = Coordinator
  import W = BrokerWorker
  import Ch = BrokerChild
  import TR = TokenReaders
  import PIT = PushIngressTrace
  import CoT = CoordinatorTrace
  import WT = BrokerWorkerTrace
  import ChT = BrokerTrace

  // ---- What one child's own history says about C1

  lemma ChildAsksAboutItself(c1: Ledger, nonce: Nonce, run: ChildRun, i: nat)
    requires ChildOk(c1, nonce, run) && i < |run.log| && run.log[i].call.Invoke?
    ensures ChildFact(c1, run.log[i]) && run.log[i].call.call.incident == run.launch.incident
    ensures run.log[i].call.call.op.Begin? ==> run.log[i].call.call.op.startNonce == nonce
  {
    ChT.PrefixIsHistory(run.launch, run.log, i);
    ChT.SpeaksForItself(run.launch, run.log, i, run.log[i].call);
    assert run.log[i] in run.log;
  }

  /** The start this child began and had confirmed is the one C1 holds, and carries its nonce. */
  lemma ConfirmedStartIsHeld(c1: Ledger, nonce: Nonce, run: ChildRun, n: nat, start: StartId)
    requires ChildOk(c1, nonce, run) && n <= |run.log|
    requires ChT.Seen(run.log[..n], x => ChT.BeginsWith(x, start)) && ChT.Seen(run.log[..n], x => ChT.ConfirmsStart(x, start))
    ensures StartHeld(c1, run.launch.incident, start) && start.nonce == nonce
  {
    var i :| 0 <= i < n && ChT.BeginsWith(run.log[..n][i], start);
    var j :| 0 <= j < n && ChT.ConfirmsStart(run.log[..n][j], start);
    ChildAsksAboutItself(c1, nonce, run, i);
    ChildAsksAboutItself(c1, nonce, run, j);
  }

  lemma ConfirmedTargetIsHeld(c1: Ledger, nonce: Nonce, run: ChildRun, n: nat, target: ClaimTarget)
    requires ChildOk(c1, nonce, run) && n <= |run.log|
    requires ChT.Seen(run.log[..n], x => ChT.ConfirmsTarget(x, target))
    ensures TargetHeld(c1, run.launch.incident, target)
  {
    var i :| 0 <= i < n && ChT.ConfirmsTarget(run.log[..n][i], target);
    ChildAsksAboutItself(c1, nonce, run, i);
  }

  /** C1 names this child, by its own start id, as the one that may act. */
  ghost predicate Chosen(c1: Ledger, nonce: Nonce, run: ChildRun) {
    && run.launch.incident in c1 && c1[run.launch.incident].start.Some?
    && c1[run.launch.incident].start.value.nonce == nonce
  }

  lemma DeleteIsChosen(c1: Ledger, nonce: Nonce, run: ChildRun, n: nat, call: Ch.ChildCall)
    requires ChildOk(c1, nonce, run) && ChT.Issues(run.launch, run.log, n, call) && call.DeleteKey?
    ensures Chosen(c1, nonce, run)
    ensures
      var a := c1[run.launch.incident];
      call == Ch.DeleteKey(call.token, a.owner, a.repo, a.request.keyId)
    ensures !ChT.Seen(run.log[..n], ChT.Deletes)
  {
    ChT.PrefixIsHistory(run.launch, run.log, n);
    ChT.DeleteIsGrounded(run.launch, run.log[..n]);
    var w := ChT.Watching(run.log[..n]);
    ConfirmedStartIsHeld(c1, nonce, run, n, w.begun.value);
    ConfirmedTargetIsHeld(c1, nonce, run, n, w.target.value);
  }

  lemma MintIsChosen(c1: Ledger, nonce: Nonce, run: ChildRun, n: nat)
    requires ChildOk(c1, nonce, run) && ChT.Issues(run.launch, run.log, n, Ch.MintEffect)
    ensures Chosen(c1, nonce, run)
  {
    var h := run.log[..n];
    ChT.PrefixIsHistory(run.launch, run.log, n);
    ChT.MintIsJustInTime(run.launch, h);
    ChT.WatchedReplies(h);
    ConfirmedStartIsHeld(c1, nonce, run, n, ChT.Watching(h).begun.value);
  }

  lemma OneIsChosen(c1: Ledger, n1: Nonce, run1: ChildRun, n2: Nonce, run2: ChildRun)
    requires Chosen(c1, n1, run1) && Chosen(c1, n2, run2) && run1.launch.incident == run2.launch.incident
    ensures n1 == n2
  {
  }

  /** Call number `n` of this child, answered or under way, is a DELETE. */
  ghost predicate IssuesDelete(s: Sys, child: Nonce, n: nat) {
    child in s.children && exists call: Ch.ChildCall :: call.DeleteKey? && ChT.Issues(s.children[child].launch, s.children[child].log, n, call)
  }

  /** Some child has issued the DELETE of this key. */
  ghost predicate IssuesDeleteOf(s: Sys, owner: string, repo: string, keyId: int) {
    exists child, n: nat, token ::
      child in s.children && ChT.Issues(s.children[child].launch, s.children[child].log, n, Ch.DeleteKey(token, owner, repo, keyId))
  }

  ghost predicate IssuesMint(s: Sys, child: Nonce, n: nat) {
    child in s.children && ChT.Issues(s.children[child].launch, s.children[child].log, n, Ch.MintEffect)
  }

  // ---- At most one DELETE

  lemma OneDeletePerChild(c1: Ledger, nonce: Nonce, run: ChildRun, m: nat, n: nat, first: Ch.ChildCall, second: Ch.ChildCall)
    requires ChildOk(c1, nonce, run) && m <= n
    requires ChT.Issues(run.launch, run.log, m, first) && first.DeleteKey?
    requires ChT.Issues(run.launch, run.log, n, second) && second.DeleteKey?
    ensures m == n
  {
    if m < n {
      ChT.PrefixIsHistory(run.launch, run.log, m);
      assert ChT.Deletes(run.log[..n][m]);
      DeleteIsChosen(c1, nonce, run, n, second);
    }
  }

  /** In every run, whatever the children are told: all DELETEs ever issued for an incident
      are one call of one child, and C1 holds the start id of that child. */
  lemma AtMostOneDelete(cfg: Config, run: seq<Sys>, actions: seq<Action>, i: nat, a: Nonce, m: nat, b: Nonce, n: nat)
    requires IsRun(cfg, run, actions) && i < |run|
    requires IssuesDelete(run[i], a, m) && IssuesDelete(run[i], b, n)
    requires run[i].children[a].launch.incident == run[i].children[b].launch.incident
    ensures a == b && m == n && Chosen(run[i].c1, a, run[i].children[a])
  {
    hide IsRun, ChT.Issues, ChildOk;
    ChildrenAreOk(cfg, run, actions, i);
    var s := run[i];
    var first: Ch.ChildCall :| first.DeleteKey? && ChT.Issues(s.children[a].launch, s.children[a].log, m, first);
    var second: Ch.ChildCall :| second.DeleteKey? && ChT.Issues(s.children[b].launch, s.children[b].log, n, second);
    DeleteIsChosen(s.c1, a, s.children[a], m, first);
    DeleteIsChosen(s.c1, b, s.children[b], n, second);
    OneIsChosen(s.c1, a, s.children[a], b, s.children[b]);
    if m <= n {
      OneDeletePerChild(s.c1, a, s.children[a], m, n, first, second);
    } else {
      OneDeletePerChild(s.c1, a, s.children[a], n, m, second, first);
    }
  }

  lemma ChildrenAreOk(cfg: Config, run: seq<Sys>, actions: seq<Action>, i: nat)
    requires IsRun(cfg, run, actions) && i < |run|
    ensures ChildrenOk(run[i].c1, run[i].children)
  {
    InvariantHolds(cfg, run, actions, i);
  }

  /** And all effect tokens ever asked for an incident are asked for in one call, of the one
      child that C1 holds and that may DELETE. */
  lemma OneChildMints(cfg: Config, run: seq<Sys>, actions: seq<Action>, i: nat, a: Nonce, m: nat, b: Nonce, n: nat)
    requires IsRun(cfg, run, actions) && i < |run|
    requires IssuesMint(run[i], a, m) && (IssuesMint(run[i], b, n) || IssuesDelete(run[i], b, n))
    requires run[i].children[a].launch.incident == run[i].children[b].launch.incident
    ensures a == b && Chosen(run[i].c1, a, run[i].children[a])
    ensures IssuesMint(run[i], b, n) ==> m == n
  {
    hide IsRun, ChT.Issues, ChildOk;
    ChildrenAreOk(cfg, run, actions, i);
    var s := run[i];
    MintIsChosen(s.c1, a, s.children[a], m);
    if IssuesMint(s, b, n) {
      MintIsChosen(s.c1, b, s.children[b], n);
    } else {
      var call: Ch.ChildCall :| call.DeleteKey? && ChT.Issues(s.children[b].launch, s.children[b].log, n, call);
      DeleteIsChosen(s.c1, b, s.children[b], n, call);
    }
    OneIsChosen(s.c1, a, s.children[a], b, s.children[b]);
    if IssuesMint(s, b, n) {
      OneMintPerChild(s.c1, a, s.children[a], m, n);
    }
  }

  lemma OneMintPerChild(c1: Ledger, nonce: Nonce, run: ChildRun, m: nat, n: nat)
    requires ChildOk(c1, nonce, run) && ChT.Issues(run.launch, run.log, m, Ch.MintEffect) && ChT.Issues(run.launch, run.log, n, Ch.MintEffect)
    ensures m == n
  {
    hide ChT.Issues, ChT.IsHistory;
    if m <= n {
      ChT.MintsOnce(run.launch, run.log, m, n);
    } else {
      ChT.MintsOnce(run.launch, run.log, n, m);
    }
  }

  // ---- Custody

  /** The two reads this processing made show the policy's secret introduced by this push. */
  ghost predicate ReadsShowIntroduction(run: IngressRun, k: nat, event: Event, policy: P.Policy) {
    && k <= |run.log| && run.launch.event == event
    && exists before, after ::
         && PIT.Seen(run.log[..k], (x: PI.Exchange) =>
              x == PI.Exchange(PI.ReadSource(E.ReadPlan(PUSH_REPOSITORY, event.body.before, event.body.after, SECRET_PATH)), PI.Observed(before, after)))
         && E.SecretIntroduced(before, after, policy, E.ReadPlan(PUSH_REPOSITORY, event.body.before, event.body.after, SECRET_PATH))
  }

  lemma WitnessReadTheSource(st: Stores, nonce: Nonce, run: IngressRun, k: nat, input: R.BindInput)
    requires IngressOk(st, nonce, run) && PIT.Issues(run.launch, run.log, k, PI.Bind(input))
    ensures ReadsShowIntroduction(run, k, input.event, input.policy)
  {
    PIT.PrefixIsHistory(run.launch, run.log, k);
    PIT.BindIsGrounded(run.launch, run.log[..k]);
    var w := PIT.Watching(run.log[..k]).reading.value;
    var i :| 0 <= i < k && run.log[..k][i].call == PI.ReadSource(w.plan) && run.log[..k][i].reply == PI.Observed(w.before, w.after);
    assert run.log[..k][i] == PI.Exchange(PI.ReadSource(w.plan), PI.Observed(w.before, w.after));
  }

  /** The incident rests on a binding of its own policy version to its own event, and that
      binding on reads that showed the secret introduced. */
  ghost predicate Founded(s: Sys, incident: IncidentId) {
    var p := incident.policy;
    && p in s.stores.files.policies && p in s.stores.files.bindings
    && var policy := s.stores.files.policies[p].policy;
       var b := s.stores.files.bindings[p];
       && b.incident == incident && incident == E.IncidentOf(b.event, policy)
       && b.key in s.stores.receipts && s.stores.receipts[b.key].state.Accepted?
       && AcceptedUnder(b, s.stores.receipts[b.key])
       && exists n, k: nat :: n in s.ingresses && ReadsShowIntroduction(s.ingresses[n], k, b.event, policy)
  }

  lemma JobIsFounded(st: Stores, incident: IncidentId)
    requires StoresOk(st) && incident in st.jobs
    ensures
      var p := incident.policy;
      && p in st.files.policies && p in st.files.bindings
      && var b := st.files.bindings[p];
         && b.policy == p && b.incident == incident && incident == E.IncidentOf(b.event, st.files.policies[p].policy)
         && b.content == st.files.policies[p].policy
         && b.key in st.receipts && st.receipts[b.key].state.Accepted? && AcceptedUnder(b, st.receipts[b.key])
         && st.jobs[incident].frozen == PI.FrozenOf(b.key, st.receipts[b.key].state.acceptance)
         && st.jobs[incident].frozen.request == E.CreateRequestOf(b.event, b.content)
  {
    assert FrozenBacked(st.receipts, st.jobs[incident].frozen);
    var k := st.jobs[incident].frozen.receiptKey;
    assert ReceiptBacked(st.files, k, st.receipts[k]);
    var p := st.receipts[k].state.acceptance.policy;
    assert BindingBacked(st.files.policies[p], st.files.bindings[p]);
  }

  lemma BindingIsFounded(st: Stores, ingresses: map<Nonce, IngressRun>, p: PolicyRef)
    requires StoresOk(st) && IngressesOk(st, ingresses) && BindingsWitnessed(st.files, ingresses) && p in st.files.bindings
    ensures exists n, k: nat :: n in ingresses && ReadsShowIntroduction(ingresses[n], k, st.files.bindings[p].event, st.files.bindings[p].content)
  {
    var b := st.files.bindings[p];
    assert Witnessed(ingresses, b);
    var n, k: nat, input :| n in ingresses && PIT.Issues(ingresses[n].launch, ingresses[n].log, k, PI.Bind(input)) && R.BindingOf(input) == b && input.policy == b.content;
    WitnessReadTheSource(st, n, ingresses[n], k, input);
  }

  lemma IncidentIsFounded(cfg: Config, s: Sys, incident: IncidentId)
    requires Inv(cfg, s) && incident in s.c1
    ensures Founded(s, incident)
    ensures s.c1[incident].request == E.CreateRequestOf(s.stores.files.bindings[incident.policy].event, s.stores.files.policies[incident.policy].policy)
    ensures s.c1[incident].owner == GITHUB_OWNER && s.c1[incident].repo == GITHUB_REPOSITORY
  {
    hide IngressesOk, CoordsOk, WorkersOk, ChildrenOk, RetirementsClosed, AbsencesDeclared, HandoffsOk, BindingsWitnessed, StoresOk, ReadsShowIntroduction;
    JobIsFounded(s.stores, incident);
    BindingIsFounded(s.stores, s.ingresses, incident.policy);
  }

  lemma PolicyNamesTheRepository(st: Stores, p: PolicyRef)
    requires StoresOk(st) && p in st.files.policies
    ensures st.files.policies[p].policy.source.repository == PUSH_REPOSITORY && P.Valid(st.files.policies[p].policy)
  {
    assert R.ValidRecord(st.files.policies[p]);
  }

  lemma IncidentNamesItsTarget(cfg: Config, s: Sys, incident: IncidentId)
    requires Inv(cfg, s) && incident in s.c1
    ensures Founded(s, incident) && incident.policy in s.stores.files.policies
    ensures
      var policy := s.stores.files.policies[incident.policy].policy;
      s.c1[incident].owner + "/" + s.c1[incident].repo == policy.source.repository && s.c1[incident].request.keyId == policy.keyId
  {
    hide Inv, StoresOk, ReadsShowIntroduction, P.Valid;
    IncidentIsFounded(cfg, s, incident);
    StoresAreOk(cfg, s);
    PolicyNamesTheRepository(s.stores, incident.policy);
    RepositoryNamesAgree();
  }

  lemma RepositoryNamesAgree()
    ensures GITHUB_OWNER + "/" + GITHUB_REPOSITORY == PUSH_REPOSITORY
  {
  }

  lemma StoresAreOk(cfg: Config, s: Sys)
    requires Inv(cfg, s)
    ensures StoresOk(s.stores) && ChildrenOk(s.c1, s.children)
  {
  }

  /** End to end: whatever DELETE is ever issued for an incident goes to the repository and
      the key that the policy version named in the incident id says, that policy version is
      bound to this incident and no other, and it was bound because the BEFORE and AFTER
      reads at exactly the bound event's commits showed its secret introduced. */
  lemma DeleteCustody(cfg: Config, run: seq<Sys>, actions: seq<Action>, i: nat, child: Nonce, n: nat, call: Ch.ChildCall)
    requires IsRun(cfg, run, actions) && i < |run| && child in run[i].children
    requires ChT.Issues(run[i].children[child].launch, run[i].children[child].log, n, call) && call.DeleteKey?
    ensures
      var incident := run[i].children[child].launch.incident;
      && Founded(run[i], incident) && incident.policy in run[i].stores.files.policies
      && var policy := run[i].stores.files.policies[incident.policy].policy;
         call.owner + "/" + call.repo == policy.source.repository && call.keyId == policy.keyId
  {
    hide IsRun, ChT.Issues, ChildOk, Founded, Inv;
    InvariantHolds(cfg, run, actions, i);
    var s := run[i];
    StoresAreOk(cfg, s);
    DeleteIsChosen(s.c1, child, s.children[child], n, call);
    IncidentNamesItsTarget(cfg, s, s.children[child].launch.incident);
  }

  // ---- One-shot authority

  lemma AcceptedIsBound(st: Stores, k: DedupeKey)
    requires StoresOk(st) && k in st.receipts && st.receipts[k].state.Accepted?
    ensures
      var a := st.receipts[k].state.acceptance;
      && a.policy in st.files.policies && a.policy in st.files.bindings
      && var b := st.files.bindings[a.policy];
         && AcceptedUnder(b, st.receipts[k]) && b.key == k && b.policy == a.policy
         && b.content == st.files.policies[a.policy].policy && b.incident == E.IncidentOf(b.event, b.content)
  {
    assert ReceiptBacked(st.files, k, st.receipts[k]);
    var p := st.receipts[k].state.acceptance.policy;
    assert BindingBacked(st.files.policies[p], st.files.bindings[p]);
  }

  predicate AcceptedFor(receipts: D.Receipts, k: DedupeKey, p: PolicyRef) {
    k in receipts && receipts[k].state.Accepted? && receipts[k].state.acceptance.policy == p
  }

  /** The one receipt behind a C1 incident. */
  predicate CreatedFrom(st: Stores, a: Authority, incident: IncidentId) {
    incident in st.jobs &&
    var k := st.jobs[incident].frozen.receiptKey;
    && AcceptedFor(st.receipts, k, incident.policy)
    && st.receipts[k].state.acceptance.incident == incident && a.request == st.receipts[k].state.acceptance.request
  }

  /** Each policy version stands behind at most one accepted receipt, one job and one C1
      incident, over all deliveries, redeliveries and crashes; and what C1 was asked to
      create is exactly what that receipt froze. */
  lemma AuthorityIsOneShot(cfg: Config, run: seq<Sys>, actions: seq<Action>, i: nat, p: PolicyRef)
    requires IsRun(cfg, run, actions) && i < |run|
    ensures forall k, l :: AcceptedFor(run[i].stores.receipts, k, p) && AcceptedFor(run[i].stores.receipts, l, p) ==> k == l
    ensures forall x <- run[i].stores.jobs, y <- run[i].stores.jobs :: x.policy == p && y.policy == p ==> x == y
    ensures forall x <- run[i].c1, y <- run[i].c1 :: x.policy == p && y.policy == p ==> x == y
    ensures forall x <- run[i].c1 :: CreatedFrom(run[i].stores, run[i].c1[x], x)
  {
    hide IsRun, StoresOk, BindingsWitnessed, IngressesOk, CoordsOk, WorkersOk, ChildrenOk, RetirementsClosed, AbsencesDeclared, HandoffsOk;
    InvariantHolds(cfg, run, actions, i);
    OneShotStores(run[i].stores, p);
    forall x <- run[i].c1 ensures CreatedFrom(run[i].stores, run[i].c1[x], x) {
      JobIsFounded(run[i].stores, x);
    }
  }

  lemma OneShotStores(st: Stores, p: PolicyRef)
    requires StoresOk(st)
    ensures forall k, l :: AcceptedFor(st.receipts, k, p) && AcceptedFor(st.receipts, l, p) ==> k == l
    ensures forall x <- st.jobs, y <- st.jobs :: x.policy == p && y.policy == p ==> x == y
  {
    hide StoresOk;
    forall x <- st.jobs ensures x.policy in st.files.bindings && st.files.bindings[x.policy].incident == x {
      JobIsFounded(st, x);
    }
    forall k | AcceptedFor(st.receipts, k, p) ensures p in st.files.bindings && st.files.bindings[p].key == k {
      AcceptedIsBound(st, k);
    }
  }

  // ---- Crash resumption and replay

  /** However often processings of a delivery crash between reserving, binding and
      finalizing: if its receipt is accepted in the end, it carries exactly the incident and
      the identity under which its policy was durably bound, at any moment since. */
  lemma ResumptionKeepsTheBinding(cfg: Config, run: seq<Sys>, actions: seq<Action>, i: nat, j: nat, k: DedupeKey)
    requires IsRun(cfg, run, actions) && i <= j < |run|
    requires k in run[j].stores.receipts && run[j].stores.receipts[k].state.Accepted?
    ensures
      var a := run[j].stores.receipts[k].state.acceptance;
      a.policy in run[i].stores.files.bindings ==>
        var b := run[i].stores.files.bindings[a.policy];
        && b.key == k && a.incident == b.incident && a.identity == b.identity
        && a.request == E.CreateRequestOf(b.event, b.content)
  {
    hide IsRun, StoresOk, BindingsWitnessed, IngressesOk, CoordsOk, WorkersOk, ChildrenOk, LedgerOk, RetirementsClosed, AbsencesDeclared, HandoffsOk, Grows, Longer;
    InvariantHolds(cfg, run, actions, j);
    NothingIsTakenBack(cfg, run, actions, i, j);
    AcceptedIsBound(run[j].stores, k);
  }

  /** A settled receipt is never rewritten; and receipt validation accepts every receipt this
      ingress accepted, for every later delivery of the same authenticated request. */
  lemma AcceptedReceiptsReplay(cfg: Config, run: seq<Sys>, actions: seq<Action>, i: nat, j: nat, k: DedupeKey, event: Event)
    requires IsRun(cfg, run, actions) && i <= j < |run|
    requires k in run[i].stores.receipts && !run[i].stores.receipts[k].state.Reserved?
    ensures k in run[j].stores.receipts && run[j].stores.receipts[k] == run[i].stores.receipts[k]
    ensures (run[i].stores.receipts[k].state.Accepted? && event.source == PUSH_SOURCE && KeyOf(event) == k
             && event.body == run[i].stores.receipts[k].event.body) ==> PI.ReceiptReplays(run[j].stores.receipts[k], event)
  {
    hide IsRun, StoresOk, BindingsWitnessed, IngressesOk, CoordsOk, WorkersOk, ChildrenOk, LedgerOk, RetirementsClosed, AbsencesDeclared, HandoffsOk, Grows, Longer, PI.ReceiptReplays;
    InvariantHolds(cfg, run, actions, j);
    NothingIsTakenBack(cfg, run, actions, i, j);
    if run[j].stores.receipts[k].state.Accepted? && event.source == PUSH_SOURCE && KeyOf(event) == k && event.body == run[j].stores.receipts[k].event.body {
      AcceptedReceiptIsComplete(run[j].stores, k, event);
    }
  }

  lemma AcceptedReceiptIsComplete(st: Stores, k: DedupeKey, event: Event)
    requires StoresOk(st) && k in st.receipts && st.receipts[k].state.Accepted?
    requires event.source == PUSH_SOURCE && KeyOf(event) == k && event.body == st.receipts[k].event.body
    ensures PI.ReceiptReplays(st.receipts[k], event)
  {
    AcceptedIsBound(st, k);
    assert ReceiptBacked(st.files, k, st.receipts[k]);
    PolicyNamesTheRepository(st, st.receipts[k].state.acceptance.policy);
  }

  // ---- The life of a policy version

  /** A policy version only moves ACTIVE, BOUND, RETIRED; what it is bound to never changes;
      and it is retired only for that incident, once C1 holds it CLOSED. */
  lemma PoliciesOnlyAdvance(cfg: Config, run: seq<Sys>, actions: seq<Action>, i: nat, j: nat, p: PolicyRef)
    requires IsRun(cfg, run, actions) && i <= j < |run|
    ensures
      var now := run[i].stores.files;
      var later := run[j].stores.files;
      && R.Order(R.LifecycleOf(now, p)) <= R.Order(R.LifecycleOf(later, p))
      && (p in now.bindings ==> p in later.bindings && later.bindings[p] == now.bindings[p])
      && (p in later.retirements ==>
            && p in later.bindings && later.retirements[p].incident == later.bindings[p].incident
            && later.retirements[p].incident in run[j].c1 && run[j].c1[later.retirements[p].incident].status == Closed)
  {
    hide IsRun, BindingsWitnessed, IngressesOk, CoordsOk, WorkersOk, ChildrenOk, LedgerOk, AbsencesDeclared, HandoffsOk, Grows, Longer;
    InvariantHolds(cfg, run, actions, i);
    InvariantHolds(cfg, run, actions, j);
    NothingIsTakenBack(cfg, run, actions, i, j);
    R.LifecycleOnlyAdvances(run[i].stores.files, run[j].stores.files, p);
  }

  /** Jobs keep what they were created with and never move back, and C1 takes nothing back. */
  lemma JobsAndAuthorityOnlyAdvance(cfg: Config, run: seq<Sys>, actions: seq<Action>, i: nat, j: nat, incident: IncidentId)
    requires IsRun(cfg, run, actions) && i <= j < |run|
    ensures incident in run[i].stores.jobs ==>
              && incident in run[j].stores.jobs
              && run[j].stores.jobs[incident].frozen == run[i].stores.jobs[incident].frozen
              && J.Rank(run[i].stores.jobs[incident].state) <= J.Rank(run[j].stores.jobs[incident].state)
    ensures incident in run[i].c1 ==> incident in run[j].c1 && Keeps(run[i].c1[incident], run[j].c1[incident])
  {
    hide IsRun, Longer;
    NothingIsTakenBack(cfg, run, actions, i, j);
  }

  // ---- Leases and handoffs

  /** No two live workers are inside withLease for the same incident. */
  lemma LeasesAreExclusive(cfg: Config, run: seq<Sys>, actions: seq<Action>, i: nat, p: Pid, q: Pid)
    requires IsRun(cfg, run, actions) && i < |run|
    requires p in run[i].workers && q in run[i].workers && p !in run[i].dead && q !in run[i].dead
    requires Seen(run[i].workers[p]).held && Seen(run[i].workers[q]).held
    requires run[i].workers[p].launch.incident == run[i].workers[q].launch.incident
    ensures p == q
  {
    hide IsRun, StoresOk, BindingsWitnessed, IngressesOk, CoordsOk, WorkersOk, ChildrenOk, LedgerOk, RetirementsClosed, AbsencesDeclared, LeasesNamed;
    InvariantHolds(cfg, run, actions, i);
    LeasesExclude(run[i].leases, run[i].dead, run[i].workers, p, q);
  }

  /** Worker `p` has started a child or a reconciliation for this id. */
  ghost predicate AttemptsFor(workers: Workers, p: Pid, h: HandoffId) {
    && p in workers
    && exists n: nat, call: W.WorkerCall ::
         WT.Issues(workers[p].launch, workers[p].log, n, call) && WT.Attempts(call) && WT.AttemptedHandoff(call) == h
  }

  lemma AttemptMeansConsumed(jobs: J.Jobs, coords: Coords, workers: Workers, leases: map<IncidentId, Pid>, dead: set<Pid>, p: Pid, h: HandoffId)
    requires HandoffsOk(jobs, coords, workers, leases, dead) && AttemptsFor(workers, p, h)
    ensures p in workers && Seen(workers[p]).consumed == Some(h) && Issued(coords, h, workers[p].launch.incident)
  {
    var run := workers[p];
    var n: nat, call: W.WorkerCall :| WT.Issues(run.launch, run.log, n, call) && WT.Attempts(call) && WT.AttemptedHandoff(call) == h;
    WT.AttemptsUseTheConsumed(run.launch, run.log, n, call);
    WT.AgreesAlways(run.launch, run.log);
  }

  /** Handoffs are linear: every attempt is for an id that a coordinator pass wrote into the
      job of that incident, no id serves two workers, and no worker serves two ids. */
  lemma HandoffsAreLinear(cfg: Config, run: seq<Sys>, actions: seq<Action>, i: nat, p: Pid, q: Pid, g: HandoffId, h: HandoffId)
    requires IsRun(cfg, run, actions) && i < |run|
    requires AttemptsFor(run[i].workers, p, g) && AttemptsFor(run[i].workers, q, h)
    ensures p == q <==> g == h
    ensures Issued(run[i].coords, g, run[i].workers[p].launch.incident)
  {
    hide IsRun, StoresOk, BindingsWitnessed, IngressesOk, CoordsOk, WorkersOk, ChildrenOk, LedgerOk, RetirementsClosed, AbsencesDeclared, AttemptsFor, Issued;
    InvariantHolds(cfg, run, actions, i);
    var s := run[i];
    AttemptMeansConsumed(s.stores.jobs, s.coords, s.workers, s.leases, s.dead, p, g);
    AttemptMeansConsumed(s.stores.jobs, s.coords, s.workers, s.leases, s.dead, q, h);
    assert ConsumedOnce(s.workers);
  }

  lemma {:induction false} InjectionBounds<A, B>(xs: set<A>, ys: set<B>, f: map<A, B>)
    requires forall x <- xs :: x in f && f[x] in ys
    requires forall x <- xs, y <- xs :: f[x] == f[y] ==> x == y
    ensures |xs| <= |ys|
    decreases |xs|
  {
    if xs != {} {
      var x :| x in xs;
      InjectionBounds(xs - {x}, ys - {f[x]}, f);
    }
  }

  /** Call number `n` of worker `p`, answered or under way, starts a child or a reconciliation. */
  ghost predicate IssuesAttempt(workers: Workers, p: Pid, n: nat) {
    p in workers && exists call: W.WorkerCall :: WT.Issues(workers[p].launch, workers[p].log, n, call) && WT.Attempts(call)
  }

  lemma OneAttemptPerWorker(run: WorkerRun, m: nat, n: nat, first: W.WorkerCall, second: W.WorkerCall)
    requires WT.IsHistory(run.launch, run.log) && m <= n
    requires WT.Issues(run.launch, run.log, m, first) && WT.Attempts(first)
    requires WT.Issues(run.launch, run.log, n, second) && WT.Attempts(second)
    ensures m == n
  {
    hide WT.IsHistory, W.Step, W.CallOf;
    if m < n {
      WT.PrefixIsHistory(run.launch, run.log, m);
      WT.PrefixIsHistory(run.launch, run.log, n);
      assert run.log[..n][m].call == first;
      WT.AttemptsAreAuthorized(run.launch, run.log[..n]);
    }
  }

  /** Every attempt is for an id of its own. */
  lemma AttemptsAreOnce(jobs: J.Jobs, coords: Coords, workers: Workers, leases: map<IncidentId, Pid>, dead: set<Pid>, p: Pid, m: nat, q: Pid, n: nat)
      returns (g: HandoffId, h: HandoffId)
    requires HandoffsOk(jobs, coords, workers, leases, dead) && IssuesAttempt(workers, p, m) && IssuesAttempt(workers, q, n)
    ensures p in workers && q in workers
    ensures Seen(workers[p]).consumed == Some(g) && g in IssuedIds(coords) && Seen(workers[q]).consumed == Some(h) && h in IssuedIds(coords)
    ensures g == h ==> p == q && m == n
  {
    hide WT.Issues, Issued;
    var first: W.WorkerCall :| WT.Issues(workers[p].launch, workers[p].log, m, first) && WT.Attempts(first);
    var second: W.WorkerCall :| WT.Issues(workers[q].launch, workers[q].log, n, second) && WT.Attempts(second);
    g, h := WT.AttemptedHandoff(first), WT.AttemptedHandoff(second);
    assert AttemptsFor(workers, p, g) && AttemptsFor(workers, q, h);
    AttemptMeansConsumed(jobs, coords, workers, leases, dead, p, g);
    AttemptMeansConsumed(jobs, coords, workers, leases, dead, q, h);
    IssuedIsKnown(coords, g, workers[p].launch.incident);
    IssuedIsKnown(coords, h, workers[q].launch.incident);
    assert ConsumedOnce(workers);
    if p == q {
      if m <= n {
        OneAttemptPerWorker(workers[p], m, n, first, second);
      } else {
        OneAttemptPerWorker(workers[p], n, m, second, first);
      }
    }
  }

  lemma IssuedIsKnown(coords: Coords, h: HandoffId, incident: IncidentId)
    requires Issued(coords, h, incident)
    ensures h in IssuedIds(coords)
  {
  }

  /** The id worker `p` consumed. */
  function ConsumedId(workers: Workers, p: Pid): HandoffId {
    if p in workers && Seen(workers[p]).consumed.Some? then Seen(workers[p]).consumed.value else 0
  }

  /** So attempts, of one worker or of several, never exceed the handoffs that passes issued. */
  lemma AttemptsNeverExceedHandoffs(cfg: Config, run: seq<Sys>, actions: seq<Action>, i: nat, attempts: set<(Pid, nat)>)
    requires IsRun(cfg, run, actions) && i < |run|
    requires forall x <- attempts :: IssuesAttempt(run[i].workers, x.0, x.1)
    ensures |attempts| <= |IssuedIds(run[i].coords)|
  {
    hide IsRun, IssuesAttempt, StoresOk, BindingsWitnessed, IngressesOk, CoordsOk, WorkersOk, ChildrenOk, LedgerOk, RetirementsClosed, AbsencesDeclared, HandoffsOk;
    InvariantHolds(cfg, run, actions, i);
    var s := run[i];
    var ids := map x <- attempts :: ConsumedId(s.workers, x.0);
    forall x <- attempts, y <- attempts ensures ids[x] in IssuedIds(s.coords) && (ids[x] == ids[y] ==> x == y) {
      var g, h := AttemptsAreOnce(s.stores.jobs, s.coords, s.workers, s.leases, s.dead, x.0, x.1, y.0, y.1);
    }
    InjectionBounds(attempts, IssuedIds(s.coords), ids);
  }

  // ---- CLOSED means gone

  /** The key an incident is about, as C1 holds it. */
  function IncidentKey(a: Authority): ChT.Key { ChT.Key(a.owner, a.repo, a.request.keyId) }

  /** A child of this incident completed the proof that this key is gone. */
  ghost predicate ChildProvedAbsent(s: Sys, incident: IncidentId, key: ChT.Key) {
    exists child, n: nat :: child in s.children && n <= |s.children[child].log| && s.children[child].launch.incident == incident
                       && ChT.Watching(s.children[child].log[..n]).proof == ChT.Proved(key)
  }

  /** What a provider verification said and heard: under one token, revoked and refused in
      the end, a 404 for the key and a well-formed list of its repository without it. */
  ghost predicate SawAbsent(log: TR.Log, key: ChT.Key) {
    TR.Verified(log, key.owner, key.repo, key.id) && TR.FoundAbsent(log[..4], key.id)
  }

  /** A worker's own provider verification of this incident's key found it gone. */
  ghost predicate WorkerSawAbsent(s: Sys, incident: IncidentId, key: ChT.Key) {
    exists p, n: nat ::
      && p in s.workers && n < |s.workers[p].log| && s.workers[p].launch.incident == incident
      && s.workers[p].log[n].call.VerifyTarget? && s.workers[p].log[n].reply.Verified? && SawAbsent(s.workers[p].log[n].reply.log, key)
  }

  lemma DeclaringChildProved(s: Sys, child: Nonce, n: nat, call: C1.Call, incident: IncidentId)
    requires ChildrenOk(s.c1, s.children) && child in s.children && DeclaresAbsence(call, incident) && incident in s.c1
    requires ChT.Issues(s.children[child].launch, s.children[child].log, n, Ch.Invoke(call))
    ensures ChildProvedAbsent(s, incident, IncidentKey(s.c1[incident]))
  {
    var run := s.children[child];
    ChT.SpeaksForItself(run.launch, run.log, n, Ch.Invoke(call));
    ChT.PrefixIsHistory(run.launch, run.log, n);
    ChT.AbsenceIsProved(run.launch, run.log[..n]);
    ChT.WatchedReplies(run.log[..n]);
    ConfirmedTargetIsHeld(s.c1, child, run, n, ChT.Watching(run.log[..n]).target.value);
  }

  /** A pass that issued a handoff read C1's record as one of the configured repository. */
  lemma IssuedIsConfigured(cfg: Config, jobs: J.Jobs, c1: Ledger, coords: Coords, h: HandoffId, incident: IncidentId)
    requires CoordsOk(cfg, jobs, c1, coords) && Issued(coords, h, incident)
    ensures incident in c1 && c1[incident].owner == cfg.owner && c1[incident].repo == cfg.repo
  {
    hide CoT.IsHistory, CoT.Observe;
    var run := coords[h];
    assert CoordOk(cfg, jobs, c1, h, run);
    CoT.WatchedReads(run.launch, run.log);
    var k :| 0 <= k < |run.log| && CoT.ReadsMatch(run.launch, run.log[k]);
    assert run.log[k] in run.log;
    assert CoordFact(c1, run.log[k]);
  }

  lemma DeclaringWorkerSaw(cfg: Config, s: Sys, p: Pid, n: nat, call: C1.Call, incident: IncidentId)
    requires WorkersOk(cfg, s.stores.jobs, s.workers) && p in s.workers && DeclaresAbsence(call, incident) && incident in s.stores.jobs
    requires WT.Issues(s.workers[p].launch, s.workers[p].log, n, W.Ask(call))
    ensures WorkerSawAbsent(s, incident, ChT.Key(cfg.owner, cfg.repo, s.stores.jobs[incident].frozen.keyId))
    ensures exists m: nat, check: W.WorkerCall :: WT.Issues(s.workers[p].launch, s.workers[p].log, m, check) && WT.Attempts(check)
    ensures s.workers[p].launch.incident == incident
  {
    hide WT.IsHistory, WT.Issues, WorkerFact, TR.Verified, TR.FoundAbsent;
    var run := s.workers[p];
    WT.AbsenceWasSeen(run.launch, run.log, n, call);
    var i, j :| 0 <= i < n && 0 <= j < n && WT.SawKeyGone(run.log[i], run.log[j]);
    WorkerReadItsOwnJob(cfg, s.stores.jobs, run, i);
    CheckIsReal(cfg, s.stores.jobs, run, j);
    AnsweredIsIssued(run, j);
    assert WT.Attempts(run.log[j].call);
  }

  lemma AnsweredIsIssued(run: WorkerRun, i: nat)
    requires WT.IsHistory(run.launch, run.log) && i < |run.log|
    ensures WT.Issues(run.launch, run.log, i, run.log[i].call)
  {
    hide W.Step, W.CallOf;
    WT.PrefixIsHistory(run.launch, run.log, i);
  }

  lemma CheckIsReal(cfg: Config, jobs: J.Jobs, run: WorkerRun, i: nat)
    requires WorkerOk(cfg, jobs, run) && i < |run.log| && run.log[i].call.VerifyTarget? && run.log[i].reply.Verified? && run.log[i].reply.absent
    ensures SawAbsent(run.log[i].reply.log, ChT.Key(cfg.owner, cfg.repo, run.log[i].call.keyId))
  {
    hide WT.IsHistory, TR.Verified, TR.FoundAbsent;
    assert run.log[i] in run.log;
    assert WorkerFact(cfg, jobs, run.log[i]);
  }

  lemma WorkerReadItsOwnJob(cfg: Config, jobs: J.Jobs, run: WorkerRun, i: nat)
    requires WorkerOk(cfg, jobs, run) && i < |run.log| && run.log[i].call.ReadJob? && run.log[i].reply.Fetched?
    ensures run.launch.incident in jobs && run.log[i].reply.job.frozen == jobs[run.launch.incident].frozen
  {
    hide TR.Verified, TR.FoundAbsent;
    WT.PrefixIsHistory(run.launch, run.log, i);
    WT.ReadsItsOwnJob(run.launch, run.log[..i]);
    assert run.log[i] in run.log;
  }

  /** The repository a worker verifies is the one C1 names: its handoff was issued on that. */
  lemma WorkerChecksTheTarget(cfg: Config, s: Sys, p: Pid, incident: IncidentId)
    requires CoordsOk(cfg, s.stores.jobs, s.c1, s.coords) && HandoffsOk(s.stores.jobs, s.coords, s.workers, s.leases, s.dead)
    requires p in s.workers && s.workers[p].launch.incident == incident
    requires exists m: nat, check: W.WorkerCall :: WT.Issues(s.workers[p].launch, s.workers[p].log, m, check) && WT.Attempts(check)
    ensures incident in s.c1 && s.c1[incident].owner == cfg.owner && s.c1[incident].repo == cfg.repo
  {
    hide WT.Issues, CoordsOk, HandoffsOk, Issued;
    var m: nat, check: W.WorkerCall :| WT.Issues(s.workers[p].launch, s.workers[p].log, m, check) && WT.Attempts(check);
    var h := WT.AttemptedHandoff(check);
    assert AttemptsFor(s.workers, p, h);
    AttemptMeansConsumed(s.stores.jobs, s.coords, s.workers, s.leases, s.dead, p, h);
    IssuedIsConfigured(cfg, s.stores.jobs, s.c1, s.coords, h, incident);
  }

  /** In every run: C1 holds an incident CLOSED only after a child completed the proof that
      the key is gone from the repository C1 names, or a worker's read-only verification of
      that repository saw it gone. */
  lemma ClosedMeansGone(cfg: Config, run: seq<Sys>, actions: seq<Action>, i: nat, incident: IncidentId)
    requires IsRun(cfg, run, actions) && i < |run| && incident in run[i].c1 && run[i].c1[incident].status == Closed
    ensures
      var key := IncidentKey(run[i].c1[incident]);
      ChildProvedAbsent(run[i], incident, key) || WorkerSawAbsent(run[i], incident, key)
  {
    hide IsRun, StoresOk, BindingsWitnessed, IngressesOk, CoordsOk, WorkersOk, ChildrenOk, RetirementsClosed, HandoffsOk, ChildProvedAbsent, WorkerSawAbsent;
    InvariantHolds(cfg, run, actions, i);
    var s := run[i];
    JobIsFounded(s.stores, incident);
    var call :| DeclaresAbsence(call, incident) && (SentByWorker(s.workers, call) || SentByChild(s.children, call));
    if SentByWorker(s.workers, call) {
      var p, n: nat :| p in s.workers && WT.Issues(s.workers[p].launch, s.workers[p].log, n, W.Ask(call));
      DeclaringWorkerSaw(cfg, s, p, n, call, incident);
      WorkerChecksTheTarget(cfg, s, p, incident);
    } else {
      var p, n: nat :| p in s.children && ChT.Issues(s.children[p].launch, s.children[p].log, n, Ch.Invoke(call));
      DeclaringChildProved(s, p, n, call, incident);
    }
  }
}
