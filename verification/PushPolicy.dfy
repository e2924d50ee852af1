/** winner/c2/push-policy.ts: one-shot push policies and how one is selected for an event. */
module PushPolicy {
  import opened Domain

  const MAX_SAFE_INTEGER := 0x1F_FFFF_FFFF_FFFF

  datatype Provenance = Provenance(live: bool, evidence: string, enabledBeforeEvent: bool)

  /** `createdAt` is None when the timestamp does not parse. */
  datatype Policy = Policy(
    id: string, version: int, source: Source, path: string, revokesDeployKey: bool,
    keyId: int, title: string, readOnly: bool, fingerprint: string, privateSha: string,
    remediation: Did, broker: Did, ttlSecs: int, enabled: bool,
    createdAt: Option<int>, registryIdentity: string, provenance: Option<Provenance>)

  function RefOf(policy: Policy): PolicyRef { PolicyRef(policy.id, policy.version) }

  predicate IsLowerHex(c: char) { '0' <= c <= '9' || 'a' <= c <= 'f' }

  predicate IsSha256(s: string) { |s| == 64 && forall c <- s :: IsLowerHex(c) }

  predicate IsBase64(c: char) { 'A' <= c <= 'Z' || 'a' <= c <= 'z' || '0' <= c <= '9' || c == '+' || c == '/' }

  /** `SHA256`, a slash or a colon, base64, at most two `=`. */
  predicate IsFingerprint(s: string) {
    |s| >= 8 && s[..6] == "SHA256" && (s[6] == '/' || s[6] == ':') &&
    (IsPaddedBase64(s[7..], 0) || IsPaddedBase64(s[7..], 1) || IsPaddedBase64(s[7..], 2))
  }

  predicate IsPaddedBase64(s: string, padding: nat) {
    |s| > padding && (forall i | 0 <= i < |s| - padding :: IsBase64(s[i])) && (forall i | |s| - padding <= i < |s| :: s[i] == '=')
  }

  /** validateC2PushPolicyV2 returned no reason. */
  predicate Valid(p: Policy) {
    && p.id != "" && 0 < p.version <= MAX_SAFE_INTEGER
    && p.source == PUSH_SOURCE && p.path == SECRET_PATH && p.revokesDeployKey
    && 0 < p.keyId <= MAX_SAFE_INTEGER && p.title != "" && p.readOnly
    && IsFingerprint(p.fingerprint) && IsSha256(p.privateSha)
    && 0 < p.ttlSecs <= 86_400
    && p.createdAt.Some? && p.registryIdentity != ""
    && p.provenance.Some? && p.provenance.value.evidence != "" && p.provenance.value.enabledBeforeEvent
  }

  predicate IsLive(p: Policy) { Valid(p) && p.provenance.value.live }

  predicate AllBase64(s: string) { s != "" && forall c <- s :: 'A' <= c <= 'Z' || 'a' <= c <= 'z' || '0' <= c <= '9' || c == '+' || c == '/' }

  predicate IsPadding(s: string) { |s| <= 2 && forall c <- s :: c == '=' }

  lemma PaddedIsBase64(body: string, padding: string)
    requires AllBase64(body) && IsPadding(padding)
    ensures IsPaddedBase64(body + padding, |padding|)
  {
    assert forall i | 0 <= i < |body| :: (body + padding)[i] in body;
    assert forall i | |body| <= i < |body + padding| :: (body + padding)[i] in padding;
  }

  lemma UnpaddedIsBase64(s: string, n: nat)
    requires n <= 2 && IsPaddedBase64(s, n)
    ensures n < |s|
    ensures AllBase64(s[..|s| - n]) && IsPadding(s[|s| - n..])
  {
  }

  /** Exactly the prefix, a separator, some base64 and at most two `=`. */
  predicate MadeOf(s: string, separator: char, body: string, padding: string) {
    s == "SHA256" + ([separator] + (body + padding)) && separator in {'/', ':'} && AllBase64(body) && IsPadding(padding)
  }

  lemma FingerprintsAreExact(s: string)
    ensures IsFingerprint(s) <==> exists separator, body, padding :: MadeOf(s, separator, body, padding)
  {
    hide IsPaddedBase64, AllBase64, IsPadding;
    if IsFingerprint(s) {
      var n: nat :| n <= 2 && IsPaddedBase64(s[7..], n);
      var rest := s[7..];
      UnpaddedIsBase64(rest, n);
      assert rest == rest[..|rest| - n] + rest[|rest| - n..];
      assert s == s[..6] + ([s[6]] + rest);
      assert MadeOf(s, s[6], rest[..|rest| - n], rest[|rest| - n..]);
    }
    if separator, body, padding :| MadeOf(s, separator, body, padding) {
      PaddedIsBase64(body, padding);
      MadeIsFingerprint(s, separator, body, padding);
    }
  }

  lemma MadeIsFingerprint(s: string, separator: char, body: string, padding: string)
    requires MadeOf(s, separator, body, padding) && IsPaddedBase64(body + padding, |padding|)
    ensures IsFingerprint(s)
  {
    hide IsPaddedBase64;
    var rest := body + padding;
    assert rest != "";
    assert s[..6] == "SHA256" && s[6] == separator && s[7..] == rest;
    assert |padding| == 0 || |padding| == 1 || |padding| == 2;
  }

  /** A policy is valid exactly for the one source, the one path and the one action, with a
      positive key, a title, a read-only key, well-formed digests and at most a day to live; and
      live when its provenance says so as well. */
  lemma ValidityIsExact(p: Policy)
    ensures Valid(p) <==>
      && p.id != "" && 0 < p.version <= 9007199254740991
      && p.source == Source("github", "push", 1350596128, "Ticoworld/t3n-breakglass-sandbox", "refs/heads/c2-breakglass-demo")
      && p.path == ".breakglass-c2/exposed-deploy-key" && p.revokesDeployKey
      && 0 < p.keyId <= 9007199254740991 && p.title != "" && p.readOnly && IsFingerprint(p.fingerprint)
      && |p.privateSha| == 64 && (forall c <- p.privateSha :: '0' <= c <= '9' || 'a' <= c <= 'f')
      && 0 < p.ttlSecs <= 86400 && p.createdAt != None && p.registryIdentity != ""
      && p.provenance != None && p.provenance.value.evidence != "" && p.provenance.value.enabledBeforeEvent
    ensures IsLive(p) <==> Valid(p) && p.provenance != None && p.provenance.value.live
  {
  }

  // ---- Selection

  datatype Lookup = Match(policy: Policy) | NoMatch | Disabled(policy: Policy) | Ambiguous

  function Filter<T>(s: seq<T>, keep: T -> bool): seq<T> {
    if s == [] then [] else (if keep(s[0]) then [s[0]] else []) + Filter(s[1..], keep)
  }

  function About(source: Source): Policy -> bool { (p: Policy) => p.source == source }
  function RetiredIn(retired: set<string>): Policy -> bool { (p: Policy) => p.id in retired }
  function CurrentIn(retired: set<string>): Policy -> bool { (p: Policy) => p.id !in retired }
  function IsEnabled(): Policy -> bool { (p: Policy) => p.enabled }
  function IsDisabled(): Policy -> bool { (p: Policy) => !p.enabled }
  function PassesValidation(): Policy -> bool { (p: Policy) => IsLive(p) }

  predicate RepeatsId(policies: seq<Policy>) {
    exists i, j | 0 <= i < j < |policies| :: policies[i].id == policies[j].id
  }

  function Current(event: Event, policies: seq<Policy>, retired: set<string>): seq<Policy> {
    Filter(Filter(policies, About(event.source)), CurrentIn(retired))
  }

  function UsableIn(event: Event, policies: seq<Policy>, retired: set<string>): seq<Policy> {
    Filter(Filter(Current(event, policies, retired), IsEnabled()), PassesValidation())
  }

  function Select(event: Event, policies: seq<Policy>, retired: set<string>): Lookup {
    var gone := Filter(Filter(policies, About(event.source)), RetiredIn(retired));
    var disabled := Filter(Current(event, policies, retired), IsDisabled());
    var usable := UsableIn(event, policies, retired);
    if RepeatsId(Current(event, policies, retired)) then Ambiguous
    else if |usable| > 1 then Ambiguous
    else if |usable| == 1 then Match(usable[0])
    else if disabled != [] then Disabled(disabled[0])
    else if gone != [] then Disabled(gone[0])
    else NoMatch
  }

  /** A policy an event may be bound to. */
  predicate Usable(p: Policy, event: Event, retired: set<string>) {
    p.source == event.source && p.id !in retired && p.enabled && IsLive(p)
  }

  predicate Distinct<T(==)>(s: seq<T>) { forall i, j | 0 <= i < j < |s| :: s[i] != s[j] }

  lemma {:induction false} FilterKeeps<T>(s: seq<T>, keep: T -> bool)
    ensures forall x :: x in Filter(s, keep) <==> x in s && keep(x)
    ensures Distinct(s) ==> Distinct(Filter(s, keep))
  {
    if s != [] {
      FilterKeeps(s[1..], keep);
    }
  }

  lemma FilterTwice<T>(s: seq<T>, first: T -> bool, second: T -> bool)
    ensures forall x :: x in Filter(Filter(s, first), second) <==> x in s && first(x) && second(x)
    ensures Distinct(s) ==> Distinct(Filter(Filter(s, first), second))
  {
    FilterKeeps(s, first);
    FilterKeeps(Filter(s, first), second);
  }

  lemma CurrentMeans(event: Event, policies: seq<Policy>, retired: set<string>)
    ensures forall p :: p in Current(event, policies, retired) <==> p in policies && p.source == event.source && p.id !in retired
  {
    hide Filter, Distinct;
    FilterTwice(policies, About(event.source), CurrentIn(retired));
  }

  lemma UsableMeans(event: Event, policies: seq<Policy>, retired: set<string>)
    ensures forall p :: p in UsableIn(event, policies, retired) <==> p in policies && Usable(p, event, retired)
    ensures Distinct(Current(event, policies, retired)) ==> Distinct(UsableIn(event, policies, retired))
  {
    hide Filter, Distinct, IsLive, Current;
    CurrentMeans(event, policies, retired);
    FilterTwice(Current(event, policies, retired), IsEnabled(), PassesValidation());
  }

  function Both<T>(f: T -> bool, g: T -> bool): T -> bool { (x: T) => f(x) && g(x) }

  /** Two places of the list hold policies of this kind with one id. */
  predicate SharesId(s: seq<Policy>, keep: Policy -> bool) {
    exists i, j | 0 <= i < j < |s| :: keep(s[i]) && keep(s[j]) && s[i].id == s[j].id
  }

  lemma ConsShares(p: Policy, s: seq<Policy>, keep: Policy -> bool)
    ensures SharesId([p] + s, keep) <==> SharesId(s, keep) || (keep(p) && exists q <- s :: keep(q) && q.id == p.id)
  {
    var t := [p] + s;
    if i, j :| 0 <= i < j < |t| && keep(t[i]) && keep(t[j]) && t[i].id == t[j].id {
      assert t[j] == s[j - 1] && s[j - 1] in s;
      assert i > 0 ==> t[i] == s[i - 1];
    }
    if i, j :| 0 <= i < j < |s| && keep(s[i]) && keep(s[j]) && s[i].id == s[j].id {
      assert t[i + 1] == s[i] && t[j + 1] == s[j];
    }
    if keep(p) && exists q <- s :: keep(q) && q.id == p.id {
      var j :| 0 <= j < |s| && keep(s[j]) && s[j].id == p.id;
      assert t[0] == p && t[j + 1] == s[j];
    }
  }

  lemma {:induction false} FilterShares(s: seq<Policy>, keep: Policy -> bool, also: Policy -> bool)
    ensures SharesId(Filter(s, keep), also) <==> SharesId(s, Both(keep, also))
  {
    hide SharesId;
    if s == [] {
      NothingShares(also);
      NothingShares(Both(keep, also));
    } else {
      FilterShares(s[1..], keep, also);
      FilterKeeps(s[1..], keep);
      assert [s[0]] + s[1..] == s;
      ConsShares(s[0], s[1..], Both(keep, also));
      ConsShares(s[0], Filter(s[1..], keep), also);
      assert [] + Filter(s[1..], keep) == Filter(s[1..], keep);
    }
  }

  lemma NothingShares(keep: Policy -> bool)
    ensures !SharesId([], keep)
  {
  }

  /** Matches the event and is not retired. */
  predicate InForce(p: Policy, event: Event, retired: set<string>) { p.source == event.source && p.id !in retired }

  lemma CurrentShares(event: Event, policies: seq<Policy>, retired: set<string>)
    ensures RepeatsId(Current(event, policies, retired)) <==>
            exists i, j | 0 <= i < j < |policies| ::
              InForce(policies[i], event, retired) && InForce(policies[j], event, retired) && policies[i].id == policies[j].id
  {
    hide Filter;
    var any := (p: Policy) => true;
    var matching := Filter(policies, About(event.source));
    FilterShares(matching, CurrentIn(retired), any);
    FilterShares(policies, About(event.source), Both(CurrentIn(retired), any));
    assert RepeatsId(Filter(matching, CurrentIn(retired))) <==> SharesId(Filter(matching, CurrentIn(retired)), any);
  }

  /** A policy is selected exactly when it is the only usable one and no two places of the
      list hold policies in force with one id: a second version of an id is enough to refuse,
      and so is the same record listed twice. */
  lemma SelectionIsUnique(event: Event, policies: seq<Policy>, retired: set<string>, p: Policy)
    ensures Select(event, policies, retired) == Match(p) <==>
              && p in policies && Usable(p, event, retired)
              && (forall q <- policies :: Usable(q, event, retired) ==> q == p)
              && (forall i, j | 0 <= i < j < |policies| ::
                    InForce(policies[i], event, retired) && InForce(policies[j], event, retired) ==> policies[i].id != policies[j].id)
  {
    hide IsLive, Filter, Current, UsableIn, InForce, Usable;
    UsableMeans(event, policies, retired);
    CurrentShares(event, policies, retired);
    assert !RepeatsId(Current(event, policies, retired)) ==> Distinct(Current(event, policies, retired));
    var usable := UsableIn(event, policies, retired);
    if |usable| > 1 {
      assert usable[0] in usable && usable[1] in usable;
    } else if |usable| == 1 {
      assert usable[0] in usable;
    }
  }

  /** Whatever list it is given, selection returns a live, enabled policy of that list for
      exactly the event's source. */
  lemma SelectionIsUsable(event: Event, policies: seq<Policy>, retired: set<string>)
    requires Select(event, policies, retired).Match?
    ensures var p := Select(event, policies, retired).policy; p in policies && Usable(p, event, retired)
  {
    UsableMeans(event, policies, retired);
    var usable := UsableIn(event, policies, retired);
    assert usable[0] in usable;
  }

  // ---- Every other outcome

  lemma FilterCons<T>(x: T, s: seq<T>, keep: T -> bool)
    ensures Filter([x] + s, keep) == (if keep(x) then [x] else []) + Filter(s, keep)
  {
    assert ([x] + s)[1..] == s;
  }

  lemma {:induction false} FilterFilter<T>(s: seq<T>, first: T -> bool, second: T -> bool)
    ensures Filter(Filter(s, first), second) == Filter(s, Both(first, second))
  {
    if s != [] {
      FilterFilter(s[1..], first, second);
      FilterCons(s[0], Filter(s[1..], first), second);
      assert [] + Filter(s[1..], first) == Filter(s[1..], first);
    }
  }

  lemma {:induction false} KeptSome<T>(s: seq<T>, keep: T -> bool)
    ensures Filter(s, keep) != [] <==> exists i | 0 <= i < |s| :: keep(s[i])
  {
    if s != [] {
      KeptSome(s[1..], keep);
      assert forall i | 0 <= i < |s[1..]| :: s[1..][i] == s[i + 1];
      if i :| 0 < i < |s| && keep(s[i]) {
        assert s[1..][i - 1] == s[i];
      }
    }
  }

  predicate KeepsTwo<T>(s: seq<T>, keep: T -> bool) { exists i, j | 0 <= i < j < |s| :: keep(s[i]) && keep(s[j]) }

  lemma ConsKeepsTwo<T>(x: T, s: seq<T>, keep: T -> bool)
    ensures KeepsTwo([x] + s, keep) <==> KeepsTwo(s, keep) || (keep(x) && exists i | 0 <= i < |s| :: keep(s[i]))
  {
    var t := [x] + s;
    if i, j :| 0 <= i < j < |t| && keep(t[i]) && keep(t[j]) {
      assert t[j] == s[j - 1] && (i > 0 ==> t[i] == s[i - 1]);
    }
    if i, j :| 0 <= i < j < |s| && keep(s[i]) && keep(s[j]) {
      assert t[i + 1] == s[i] && t[j + 1] == s[j];
    }
    if i :| 0 <= i < |s| && keep(s[i]) {
      assert t[0] == x && t[i + 1] == s[i];
    }
  }

  lemma {:induction false} TwoKept<T>(s: seq<T>, keep: T -> bool)
    ensures |Filter(s, keep)| > 1 <==> KeepsTwo(s, keep)
  {
    hide KeepsTwo;
    if s == [] {
      NoneKept(keep);
    } else {
      TwoKept(s[1..], keep);
      KeptSome(s[1..], keep);
      ConsKeepsTwo(s[0], s[1..], keep);
      assert [s[0]] + s[1..] == s;
    }
  }

  lemma NoneKept<T>(keep: T -> bool)
    ensures !KeepsTwo([], keep)
  {
  }

  /** The first of its kind in the list. */
  predicate First<T(==)>(s: seq<T>, keep: T -> bool, x: T) {
    exists i | 0 <= i < |s| :: s[i] == x && keep(x) && forall j | 0 <= j < i :: !keep(s[j])
  }

  lemma {:induction false} FirstKept<T>(s: seq<T>, keep: T -> bool)
    requires Filter(s, keep) != []
    ensures First(s, keep, Filter(s, keep)[0])
  {
    if !keep(s[0]) {
      assert Filter(s, keep) == Filter(s[1..], keep);
      FirstKept(s[1..], keep);
      var x := Filter(s, keep)[0];
      var i :| 0 <= i < |s[1..]| && s[1..][i] == x && keep(x) && forall j | 0 <= j < i :: !keep(s[1..][j]);
      assert s[i + 1] == x && forall j | 0 < j < i + 1 :: s[j] == s[1..][j - 1];
    }
  }

  function IsUsableFor(event: Event, retired: set<string>): Policy -> bool { (p: Policy) => Usable(p, event, retired) }
  function SwitchedOff(event: Event, retired: set<string>): Policy -> bool { (p: Policy) => InForce(p, event, retired) && !p.enabled }
  function Withdrawn(event: Event, retired: set<string>): Policy -> bool { (p: Policy) => p.source == event.source && p.id in retired }

  lemma {:induction false} SameFilter<T>(s: seq<T>, f: T -> bool, g: T -> bool)
    requires forall x <- s :: f(x) == g(x)
    ensures Filter(s, f) == Filter(s, g)
  {
    if s != [] {
      SameFilter(s[1..], f, g);
    }
  }

  lemma FiltersOf(event: Event, policies: seq<Policy>, retired: set<string>)
    ensures UsableIn(event, policies, retired) == Filter(policies, IsUsableFor(event, retired))
    ensures Filter(Current(event, policies, retired), IsDisabled()) == Filter(policies, SwitchedOff(event, retired))
    ensures Filter(Filter(policies, About(event.source)), RetiredIn(retired)) == Filter(policies, Withdrawn(event, retired))
  {
    hide Filter, IsLive;
    var about, current := About(event.source), CurrentIn(retired);
    FilterFilter(policies, about, current);
    FilterFilter(policies, Both(about, current), IsEnabled());
    FilterFilter(policies, Both(Both(about, current), IsEnabled()), PassesValidation());
    SameFilter(policies, Both(Both(Both(about, current), IsEnabled()), PassesValidation()), IsUsableFor(event, retired));
    FilterFilter(policies, Both(about, current), IsDisabled());
    SameFilter(policies, Both(Both(about, current), IsDisabled()), SwitchedOff(event, retired));
    FilterFilter(policies, about, RetiredIn(retired));
    SameFilter(policies, Both(about, RetiredIn(retired)), Withdrawn(event, retired));
  }

  /** Two places hold policies in force with one id, or usable policies. */
  predicate IsAmbiguous(event: Event, policies: seq<Policy>, retired: set<string>) {
    exists i, j | 0 <= i < j < |policies| ::
      || (InForce(policies[i], event, retired) && InForce(policies[j], event, retired) && policies[i].id == policies[j].id)
      || (Usable(policies[i], event, retired) && Usable(policies[j], event, retired))
  }

  /** What the lookup says where it selects nothing: AMBIGUOUS, or the first disabled policy in
      force, or the first retired one, or NO_MATCH, in this order. */
  lemma RefusalsAreExact(event: Event, policies: seq<Policy>, retired: set<string>)
    ensures
      var r := Select(event, policies, retired);
      var unusable := forall p <- policies :: !Usable(p, event, retired);
      var ambiguous := IsAmbiguous(event, policies, retired);
      && (r == Ambiguous <==> ambiguous)
      && (r == NoMatch <==>
            !ambiguous && unusable && forall p <- policies :: p.source == event.source ==> p.id !in retired && p.enabled)
      && (r.Disabled? <==>
            !ambiguous && unusable && exists p <- policies :: p.source == event.source && (p.id in retired || !p.enabled))
      && (r.Disabled? ==>
            || First(policies, SwitchedOff(event, retired), r.policy)
            || (First(policies, Withdrawn(event, retired), r.policy) && forall p <- policies :: !SwitchedOff(event, retired)(p)))
  {
    hide Filter, Current, UsableIn, RepeatsId, IsLive, First;
    FiltersOf(event, policies, retired);
    CurrentShares(event, policies, retired);
    TwoKept(policies, IsUsableFor(event, retired));
    FilterKeeps(policies, IsUsableFor(event, retired));
    FilterKeeps(policies, SwitchedOff(event, retired));
    FilterKeeps(policies, Withdrawn(event, retired));
    var usable := Filter(policies, IsUsableFor(event, retired));
    var off := Filter(policies, SwitchedOff(event, retired));
    var gone := Filter(policies, Withdrawn(event, retired));
    assert usable != [] ==> usable[0] in usable;
    assert off != [] ==> off[0] in off;
    assert gone != [] ==> gone[0] in gone;
    if off != [] {
      FirstKept(policies, SwitchedOff(event, retired));
    }
    if gone != [] {
      FirstKept(policies, Withdrawn(event, retired));
    }
  }

  /** The loops of lookupPreExistingPushPolicy. */
  method LookupPreExistingPushPolicy(event: Event, policies: seq<Policy>, retired: set<string>) returns (r: Lookup)
    ensures r == Select(event, policies, retired)
  {
    var matching := FilterBy(policies, About(event.source));
    if matching == [] {
      return NoMatch;
    }
    var gone := FilterBy(matching, RetiredIn(retired));
    var current := FilterBy(matching, CurrentIn(retired));
    var repeated := HasRepeatedId(current);
    if repeated {
      return Ambiguous;
    }
    var active := FilterBy(current, IsEnabled());
    var disabled := FilterBy(current, IsDisabled());
    var usable := FilterBy(active, PassesValidation());
    if |usable| > 1 {
      return Ambiguous;
    }
    if |usable| == 1 {
      return Match(usable[0]);
    }
    if disabled != [] {
      return Disabled(disabled[0]);
    }
    if gone != [] {
      return Disabled(gone[0]);
    }
    return NoMatch;
  }

  /** The identity counts: some policy id occurs more than once. */
  method HasRepeatedId(policies: seq<Policy>) returns (repeated: bool)
    ensures repeated <==> RepeatsId(policies)
  {
    var counts: map<string, nat> := map[];
    for i := 0 to |policies|
      invariant forall id :: id in counts <==> exists j | 0 <= j < i :: policies[j].id == id
      invariant !RepeatsId(policies[..i])
    {
      if policies[i].id in counts {
        return true;
      }
      counts := counts[policies[i].id := 1];
    }
    assert policies[..|policies|] == policies;
    return false;
  }

  lemma {:induction false} FilterAppends<T>(s: seq<T>, x: T, keep: T -> bool)
    ensures Filter(s + [x], keep) == Filter(s, keep) + (if keep(x) then [x] else [])
  {
    if s == [] {
      assert s + [x] == [x] && [x][1..] == [];
    } else {
      var first := if keep(s[0]) then [s[0]] else [];
      var last := if keep(x) then [x] else [];
      assert (s + [x])[1..] == s[1..] + [x];
      FilterAppends(s[1..], x, keep);
      assert first + (Filter(s[1..], keep) + last) == (first + Filter(s[1..], keep)) + last;
    }
  }

  method FilterBy<T>(s: seq<T>, keep: T -> bool) returns (kept: seq<T>)
    ensures kept == Filter(s, keep)
  {
    kept := [];
    for i := 0 to |s|
      invariant kept == Filter(s[..i], keep)
    {
      assert s[..i + 1] == s[..i] + [s[i]];
      FilterAppends(s[..i], s[i], keep);
      if keep(s[i]) {
        kept := kept + [s[i]];
      }
    }
    assert s[..|s|] == s;
  }
}
