/** Signed envelopes of winner/runtime/integrity.ts: key rings, MAC preimages, signing and
    verification. */
module Integrity {
  import opened Domain
  import opened JsonText
  import opened Canonical
  import opened Utf8

  type Bytes = seq<Byte>

  const RECEIPT_DOMAIN: Text := Ascii("breakglass.receipt.v3")
  const POLICY_BINDING_DOMAIN: Text := Ascii("breakglass.policy-binding.v1")
  const POLICY_RETIREMENT_DOMAIN: Text := Ascii("breakglass.policy-retirement.v1")
  const JOB_DOMAIN: Text := Ascii("breakglass.runtime-job.v1")

  const NEWLINE: Unit := 10

  function Ascii(s: string): Text { seq(|s|, i requires 0 <= i < |s| => s[i] as int % 128) }

  // ---- HMAC

  const DIGEST_BYTES := 32
  const BLOCK_BYTES := 64

  function Zeros(n: nat): Bytes { seq(n, _ => 0) }

  type Digest = b: Bytes | |b| == DIGEST_BYTES witness Zeros(DIGEST_BYTES)

  /** SHA-256, of which only the length of its output is used. */
  type Hash = Bytes -> Digest

  /** HMAC hashes a key longer than its block, and fills the block up with zero bytes
      (section 2 of RFC 2104). */
  function Fitted(sha: Hash, key: Bytes): (k: Bytes)
    ensures |k| <= BLOCK_BYTES
  {
    if |key| > BLOCK_BYTES then sha(key) else key
  }

  function KeyBlock(sha: Hash, key: Bytes): (block: Bytes)
    ensures |block| == BLOCK_BYTES
  {
    Fitted(sha, key) + Zeros(BLOCK_BYTES - |Fitted(sha, key)|)
  }

  /** A MAC stands for the key block and the message it was computed from. */
  datatype Mac = Mac(block: Bytes, message: Bytes)

  function Hmac(sha: Hash, key: Bytes, message: Bytes): Mac { Mac(KeyBlock(sha, key), message) }

  /** Two keys share a block exactly when, once fitted, one is the other with zero bytes
      appended. */
  lemma SharedBlocks(sha: Hash, a: Bytes, b: Bytes)
    requires |Fitted(sha, a)| <= |Fitted(sha, b)|
    ensures KeyBlock(sha, a) == KeyBlock(sha, b) <==>
            Fitted(sha, b) == Fitted(sha, a) + Zeros(|Fitted(sha, b)| - |Fitted(sha, a)|)
  {
    hide Fitted;
    var x, y := Fitted(sha, a), Fitted(sha, b);
    var p, q := Zeros(BLOCK_BYTES - |x|), Zeros(BLOCK_BYTES - |y|);
    var more := Zeros(|y| - |x|);
    assert more + q == p;
    assert (x + more) + q == x + p;
    if x + p == y + q {
      assert x == (y + q)[..|x|] == y[..|x|];
      assert y == (x + p)[..|y|] == x + more;
    }
  }

  // ---- Key rings

  const MINIMUM_KEY_BYTES := 32

  datatype Key = Key(id: Text, value: Bytes)

  /** `keys` is everything that verifies, the current key included. */
  datatype Ring = Ring(current: Key, keys: map<Text, Bytes>)

  datatype KeyInput = Single(value: Bytes) | Many(current: Key, verify: map<Text, Bytes>)

  const DEFAULT_KEY_ID: Text := Ascii("current")

  predicate KeyOk(id: Text, value: Bytes) { id != [] && |value| >= MINIMUM_KEY_BYTES }

  /** None where keyRing throws. */
  function KeyRing(input: KeyInput): (r: Option<Ring>)
    ensures r.Some? ==> r.value.current.id in r.value.keys && r.value.keys[r.value.current.id] == r.value.current.value
    ensures r.Some? ==> forall id <- r.value.keys :: KeyOk(id, r.value.keys[id])
  {
    match input {
      case Single(value) =>
        if |value| < MINIMUM_KEY_BYTES then None
        else
          assert Ascii("current")[0] == 'c' as int % 128;
          Some(Ring(Key(DEFAULT_KEY_ID, value), map[DEFAULT_KEY_ID := value]))
      case Many(current, verify) =>
        var keys := verify[current.id := current.value];
        if !KeyOk(current.id, current.value) then None
        else if exists id <- keys :: !KeyOk(id, keys[id]) then None
        else Some(Ring(current, keys))
    }
  }

  // ---- Envelopes

  /** `mac` is None when the field is not sixty-four hexadecimal digits; the case of the
      digits is not part of a MAC. */
  datatype Envelope = Envelope(keyId: Option<Text>, payload: Option<Json>, mac: Option<Mac>)

  const KEY_ID: Text := [107, 101, 121, 95, 105, 100]               // key_id
  const PAYLOAD: Text := [112, 97, 121, 108, 111, 97, 100]          // payload

  function Signed(keyId: Text, payload: Json): Json {
    VObject(Field(KEY_ID, VText(keyId), Field(PAYLOAD, payload, NoFields)))
  }

  function Preimage(domain: Text, keyId: Text, payload: Json): Text {
    domain + ([NEWLINE] + Canonicalize(Signed(keyId, payload)))
  }

  function MacInput(domain: Text, keyId: Text, payload: Json): Bytes { Encode(Preimage(domain, keyId, payload)) }

  function SignEnvelope(sha: Hash, domain: Text, payload: Json, input: KeyInput): Option<Envelope> {
    match KeyRing(input) {
      case None => None
      case Some(ring) =>
        Some(Envelope(Some(ring.current.id), Some(payload), Some(Hmac(sha, ring.current.value, MacInput(domain, ring.current.id, payload)))))
    }
  }

  predicate Complete(envelope: Envelope) {
    envelope.keyId.Some? && envelope.keyId.value != [] && envelope.payload.Some? && envelope.mac.Some?
  }

  /** None where verifyEnvelope throws. */
  function VerifyEnvelope(sha: Hash, domain: Text, envelope: Envelope, input: KeyInput): Option<Json> {
    if !Complete(envelope) then None
    else match KeyRing(input) {
      case None => None
      case Some(ring) =>
        if envelope.keyId.value !in ring.keys then None
        else if envelope.mac.value != Hmac(sha, ring.keys[envelope.keyId.value], MacInput(domain, envelope.keyId.value, envelope.payload.value)) then None
        else envelope.payload
    }
  }

  // ---- What a preimage determines

  predicate DomainOk(domain: Text) { NEWLINE !in domain && Simple(domain) }

  /** What the envelopes of BreakGlass are about. */
  datatype Kind = Receipt | PolicyBinding | PolicyRetirement | RuntimeJob

  function DomainOf(kind: Kind): Text {
    match kind {
      case Receipt => RECEIPT_DOMAIN
      case PolicyBinding => POLICY_BINDING_DOMAIN
      case PolicyRetirement => POLICY_RETIREMENT_DOMAIN
      case RuntimeJob => JOB_DOMAIN
    }
  }

  predicate IsPrintable(s: string) { forall c <- s :: ' ' <= c <= '~' }

  lemma PrintableDomainsAreOk(s: string)
    requires IsPrintable(s)
    ensures DomainOk(Ascii(s))
  {
    forall u <- Ascii(s) ensures u != NEWLINE && !IsSurrogate(u) {
      var i :| 0 <= i < |s| && Ascii(s)[i] == u;
      assert s[i] in s;
    }
  }

  lemma StoreDomainsAreOk()
    ensures DomainOk(RECEIPT_DOMAIN) && DomainOk(JOB_DOMAIN)
  {
    PrintableDomainsAreOk("breakglass.receipt.v3");
    PrintableDomainsAreOk("breakglass.runtime-job.v1");
  }

  lemma PolicyDomainsAreOk()
    ensures DomainOk(POLICY_BINDING_DOMAIN) && DomainOk(POLICY_RETIREMENT_DOMAIN)
  {
    PrintableDomainsAreOk("breakglass.policy-binding.v1");
    PrintableDomainsAreOk("breakglass.policy-retirement.v1");
  }

  lemma DomainsAreOk(kind: Kind)
    ensures DomainOk(DomainOf(kind))
  {
    hide DomainOk;
    StoreDomainsAreOk();
    PolicyDomainsAreOk();
  }

  /** The four are told apart by their lengths. */
  lemma DomainsDiffer()
    ensures |RECEIPT_DOMAIN| < |JOB_DOMAIN| < |POLICY_BINDING_DOMAIN| < |POLICY_RETIREMENT_DOMAIN|
  {
  }

  lemma KeysDiffer()
    ensures KEY_ID != PAYLOAD
  {
    assert |KEY_ID| != |PAYLOAD|;
  }

  lemma SignedIsOk(keyId: Text, payload: Json)
    requires ValueOk(payload)
    ensures ValueOk(Signed(keyId, payload))
  {
    KeysDiffer();
    var f := Signed(keyId, payload).fields;
    assert f.key == KEY_ID && f.rest.key == PAYLOAD && f.rest.rest == NoFields;
    assert !Has(f.rest.rest, PAYLOAD) && !Has(f.rest.rest, KEY_ID);
    assert !Has(f.rest, KEY_ID);
    assert FieldsOk(f.rest);
  }

  lemma SignedDetermines(id1: Text, payload1: Json, id2: Text, payload2: Json)
    requires Same(Signed(id1, payload1), Signed(id2, payload2))
    ensures id1 == id2 && Same(payload1, payload2)
  {
    KeysDiffer();
    var f := Signed(id1, payload1).fields;
    var g := Signed(id2, payload2).fields;
    assert Get(g, KEY_ID) == VText(id2);
    assert Get(g, PAYLOAD) == Get(g.rest, PAYLOAD) == payload2;
    assert Within(f, g) && Same(f.value, Get(g, f.key));
    assert Within(f.rest, g) && Same(f.rest.value, Get(g, f.rest.key));
  }

  lemma NewlineComesLate(d1: Text, s: Text, d2: Text, t: Text)
    requires NEWLINE !in d2 && d1 + ([NEWLINE] + s) == d2 + ([NEWLINE] + t)
    ensures |d2| <= |d1|
  {
    var x := d1 + ([NEWLINE] + s);
    assert x[|d1|] == NEWLINE;
    assert forall i | 0 <= i < |d2| :: x[i] == d2[i];
  }

  lemma SplitAtNewline(d1: Text, s: Text, d2: Text, t: Text)
    requires NEWLINE !in d1 && NEWLINE !in d2 && d1 + ([NEWLINE] + s) == d2 + ([NEWLINE] + t)
    ensures d1 == d2 && s == t
  {
    var x, y := d1 + ([NEWLINE] + s), d2 + ([NEWLINE] + t);
    NewlineComesLate(d1, s, d2, t);
    NewlineComesLate(d2, t, d1, s);
    assert d1 == x[..|d1|] && d2 == y[..|d1|];
    assert s == x[|d1| + 1..] && t == y[|d1| + 1..];
  }

  lemma PreimagesArePaired(domain: Text, keyId: Text, payload: Json)
    requires DomainOk(domain) && ValueOk(payload)
    ensures Paired(Preimage(domain, keyId, payload))
  {
    SignedIsOk(keyId, payload);
    CanonicalTextIsPaired(Signed(keyId, payload));
    SimpleIsPaired(domain);
    PairedConcat([NEWLINE], Canonicalize(Signed(keyId, payload)));
    PairedConcat(domain, [NEWLINE] + Canonicalize(Signed(keyId, payload)));
  }

  /** The bytes that are signed determine the record kind, the key id and the payload up to
      the order of properties: records of different kinds never share a preimage. */
  lemma PreimageDetermines(d1: Text, id1: Text, payload1: Json, d2: Text, id2: Text, payload2: Json)
    requires DomainOk(d1) && DomainOk(d2) && ValueOk(payload1) && ValueOk(payload2)
    ensures MacInput(d1, id1, payload1) == MacInput(d2, id2, payload2) <==> d1 == d2 && id1 == id2 && Same(payload1, payload2)
  {
    SignedIsOk(id1, payload1);
    SignedIsOk(id2, payload2);
    CanonicalFormIsExact(Signed(id1, payload1), Signed(id2, payload2));
    if MacInput(d1, id1, payload1) == MacInput(d2, id2, payload2) {
      PreimagesArePaired(d1, id1, payload1);
      PreimagesArePaired(d2, id2, payload2);
      EncodingIsInjective(Preimage(d1, id1, payload1), Preimage(d2, id2, payload2));
      SplitAtNewline(d1, Canonicalize(Signed(id1, payload1)), d2, Canonicalize(Signed(id2, payload2)));
      SignedDetermines(id1, payload1, id2, payload2);
    }
    if d1 == d2 && id1 == id2 && Same(payload1, payload2) {
      SamePayloadsSign(id1, payload1, payload2);
    }
  }

  /** Records of different kinds never share a MAC: whatever their ids and payloads, their
      preimages differ; and no envelope verifies as two kinds, under any two rings. */
  lemma KindsNeverMix(sha: Hash, k1: Kind, id1: Text, payload1: Json, k2: Kind, id2: Text, payload2: Json, envelope: Envelope, ring1: KeyInput, ring2: KeyInput)
    requires ValueOk(payload1) && ValueOk(payload2) && k1 != k2
    requires envelope.payload.Some? ==> ValueOk(envelope.payload.value)
    ensures MacInput(DomainOf(k1), id1, payload1) != MacInput(DomainOf(k2), id2, payload2)
    ensures VerifyEnvelope(sha, DomainOf(k1), envelope, ring1) == None || VerifyEnvelope(sha, DomainOf(k2), envelope, ring2) == None
  {
    hide MacInput, ValueOk, Same, DomainOk;
    DomainsAreOk(k1);
    DomainsAreOk(k2);
    DomainsDiffer();
    assert DomainOf(k1) != DomainOf(k2);
    PreimageDetermines(DomainOf(k1), id1, payload1, DomainOf(k2), id2, payload2);
    if Complete(envelope) {
      PreimageDetermines(DomainOf(k1), envelope.keyId.value, envelope.payload.value, DomainOf(k2), envelope.keyId.value, envelope.payload.value);
    }
  }

  lemma SamePayloadsSign(id: Text, payload1: Json, payload2: Json)
    requires Same(payload1, payload2)
    ensures Same(Signed(id, payload1), Signed(id, payload2))
  {
    KeysDiffer();
    var f := Signed(id, payload1).fields;
    var g := Signed(id, payload2).fields;
    assert Get(g, KEY_ID) == VText(id) && Get(g, PAYLOAD) == payload2 && Has(g, KEY_ID) && Has(g, PAYLOAD);
    assert Within(NoFields, g);
    assert Within(f.rest, g);
    assert Within(f, g);
    assert Count(f.rest) == 1 && Count(g.rest) == 1;
  }

  /** Verification after signing, possibly as another kind and with another ring, returns the
      payload exactly when the kind is the same and the ring still maps the signing key's id
      to the same key block. */
  lemma SignThenVerify(sha: Hash, d1: Text, payload: Json, signer: KeyInput, d2: Text, verifier: KeyInput)
    requires DomainOk(d1) && DomainOk(d2) && ValueOk(payload) && KeyRing(signer).Some?
    ensures
      var key := KeyRing(signer).value.current;
      var envelope := SignEnvelope(sha, d1, payload, signer).value;
      && VerifyEnvelope(sha, d2, envelope, verifier) in {None, Some(payload)}
      && (VerifyEnvelope(sha, d2, envelope, verifier) == Some(payload) <==>
            && d1 == d2 && KeyRing(verifier).Some? && key.id in KeyRing(verifier).value.keys
            && KeyBlock(sha, KeyRing(verifier).value.keys[key.id]) == KeyBlock(sha, key.value))
  {
    hide MacInput, Same, ValueOk, KeyBlock;
    var key := KeyRing(signer).value.current;
    PreimageDetermines(d1, key.id, payload, d2, key.id, payload);
  }

  /** The key block is not the key.  A key that does not fill it is as good as the same key
      with a zero byte more: either verifies what the other signed. */
  lemma TrailingZerosCollide(sha: Hash, domain: Text, payload: Json, key: Bytes)
    requires DomainOk(domain) && ValueOk(payload) && MINIMUM_KEY_BYTES <= |key| < BLOCK_BYTES
    ensures key + [0] != key
    ensures Interchangeable(sha, domain, payload, key, key + [0])
  {
    assert |key + [0]| == |key| + 1;
    assert Zeros(1) == [0];
    SharedBlocks(sha, key, key + [0]);
    SharedBlocksVerify(sha, domain, payload, key, key + [0]);
  }

  /** And a key longer than the block is as good as its digest, which is long enough to be a
      key of its own. */
  lemma DigestsCollide(sha: Hash, domain: Text, payload: Json, key: Bytes)
    requires DomainOk(domain) && ValueOk(payload) && |key| > BLOCK_BYTES
    ensures sha(key) != key
    ensures Interchangeable(sha, domain, payload, key, sha(key))
  {
    assert Zeros(0) == [];
    SharedBlocks(sha, key, sha(key));
    SharedBlocksVerify(sha, domain, payload, key, sha(key));
  }

  /** Both are legal keys, and each verifies what the other signed. */
  predicate Interchangeable(sha: Hash, domain: Text, payload: Json, a: Bytes, b: Bytes) {
    && KeyRing(Single(a)).Some?
    && KeyRing(Single(b)).Some?
    && VerifyEnvelope(sha, domain, SignEnvelope(sha, domain, payload, Single(a)).value, Single(b)) == Some(payload)
    && VerifyEnvelope(sha, domain, SignEnvelope(sha, domain, payload, Single(b)).value, Single(a)) == Some(payload)
  }

  lemma SharedBlocksVerify(sha: Hash, domain: Text, payload: Json, a: Bytes, b: Bytes)
    requires DomainOk(domain) && ValueOk(payload)
    requires |a| >= MINIMUM_KEY_BYTES && |b| >= MINIMUM_KEY_BYTES
    ensures Interchangeable(sha, domain, payload, a, b) <==> KeyBlock(sha, a) == KeyBlock(sha, b)
  {
    hide DomainOk, ValueOk, MacInput, KeyBlock, VerifyEnvelope, SignEnvelope;
    SignThenVerify(sha, domain, payload, Single(a), domain, Single(b));
    SignThenVerify(sha, domain, payload, Single(b), domain, Single(a));
  }

  /** Whatever envelope verifies carries a MAC computed over its own kind, id and payload. */
  lemma VerifiedMeansSigned(sha: Hash, domain: Text, envelope: Envelope, input: KeyInput)
    requires VerifyEnvelope(sha, domain, envelope, input).Some?
    ensures
      var ring := KeyRing(input).value;
      && envelope.keyId.value in ring.keys && |ring.keys[envelope.keyId.value]| >= MINIMUM_KEY_BYTES
      && envelope.mac == Some(Hmac(sha, ring.keys[envelope.keyId.value], MacInput(domain, envelope.keyId.value, envelope.payload.value)))
  {
  }

  // ---- Rotation

  /** A rotation makes a new key current and keeps the old keys for verification, but for
      those that are retired. */
  datatype Rotation = Rotation(next: Key, retired: set<Text>)

  function Rotate(ring: Ring, r: Rotation): Ring { Ring(r.next, (ring.keys - r.retired)[r.next.id := r.next.value]) }

  function RotateAll(ring: Ring, rs: seq<Rotation>): Ring
    decreases |rs|
  {
    if rs == [] then ring else RotateAll(Rotate(ring, rs[0]), rs[1..])
  }

  function InputOf(ring: Ring): KeyInput { Many(ring.current, ring.keys) }

  predicate RingOk(ring: Ring) {
    ring.current.id in ring.keys && ring.keys[ring.current.id] == ring.current.value && forall id <- ring.keys :: KeyOk(id, ring.keys[id])
  }

  lemma RingsLoad(ring: Ring)
    requires RingOk(ring)
    ensures KeyRing(InputOf(ring)) == Some(ring)
  {
    assert ring.keys[ring.current.id := ring.current.value] == ring.keys;
  }

  predicate Touches(r: Rotation, id: Text) { r.next.id == id || id in r.retired }

  /** After `k` rotations the id has this key, by the last of them or, for none, by the ring. */
  predicate SetBy(ring: Ring, rs: seq<Rotation>, k: nat, id: Text, value: Bytes)
    requires k <= |rs|
  {
    if k == 0 then id in ring.keys && ring.keys[id] == value else rs[k - 1].next == Key(id, value)
  }

  /** And no later rotation touches it. */
  predicate LastSetBy(ring: Ring, rs: seq<Rotation>, k: nat, id: Text, value: Bytes)
    requires k <= |rs|
  {
    SetBy(ring, rs, k, id, value) && forall j | k <= j < |rs| :: !Touches(rs[j], id)
  }

  ghost predicate EndsAs(ring: Ring, rs: seq<Rotation>, id: Text, value: Bytes) {
    exists k | 0 <= k <= |rs| :: LastSetBy(ring, rs, k, id, value)
  }

  predicate Maps(ring: Ring, id: Text, value: Bytes) { id in ring.keys && ring.keys[id] == value }

  lemma {:induction false} RotationsStayOk(ring: Ring, rs: seq<Rotation>)
    requires RingOk(ring) && forall r <- rs :: KeyOk(r.next.id, r.next.value)
    ensures RingOk(RotateAll(ring, rs))
    decreases |rs|
  {
    if rs != [] {
      RotationsStayOk(Rotate(ring, rs[0]), rs[1..]);
    }
  }

  /** The last rotation that touches an id decides: after any sequence of rotations the ring
      maps an id to a key exactly when some rotation, or the ring before them all, set it so
      and no later rotation touches the id. */
  lemma {:induction false} RotationsDecide(ring: Ring, rs: seq<Rotation>, id: Text, value: Bytes)
    ensures Maps(RotateAll(ring, rs), id, value) <==> EndsAs(ring, rs, id, value)
    decreases |rs|
  {
    if rs == [] {
      assert LastSetBy(ring, rs, 0, id, value) <==> Maps(ring, id, value);
    } else {
      RotationsDecide(Rotate(ring, rs[0]), rs[1..], id, value);
      FirstRotation(ring, rs, id, value);
    }
  }

  lemma FirstRotation(ring: Ring, rs: seq<Rotation>, id: Text, value: Bytes)
    requires rs != []
    ensures EndsAs(Rotate(ring, rs[0]), rs[1..], id, value) <==> EndsAs(ring, rs, id, value)
  {
    var next := Rotate(ring, rs[0]);
    if k :| 0 <= k <= |rs[1..]| && LastSetBy(next, rs[1..], k, id, value) {
      assert forall j | k + 1 <= j < |rs| :: rs[j] == rs[1..][j - 1];
      if k == 0 && rs[0].next.id != id {
        assert LastSetBy(ring, rs, 0, id, value);
      } else {
        assert LastSetBy(ring, rs, k + 1, id, value);
      }
    }
    if k :| 0 <= k <= |rs| && LastSetBy(ring, rs, k, id, value) {
      assert forall j | 0 <= j < |rs[1..]| :: rs[1..][j] == rs[j + 1];
      assert LastSetBy(next, rs[1..], if k == 0 then 0 else k - 1, id, value);
    }
  }

  /** What was signed before any number of rotations verifies after them exactly when the
      signing id ends as a key of the same block. */
  lemma RotationKeepsEnvelopes(sha: Hash, domain: Text, payload: Json, ring: Ring, rs: seq<Rotation>)
    requires DomainOk(domain) && ValueOk(payload) && RingOk(ring) && forall r <- rs :: KeyOk(r.next.id, r.next.value)
    ensures SignEnvelope(sha, domain, payload, InputOf(ring)).Some?
    ensures VerifyEnvelope(sha, domain, SignEnvelope(sha, domain, payload, InputOf(ring)).value, InputOf(RotateAll(ring, rs))) == Some(payload) <==>
            exists value :: EndsAs(ring, rs, ring.current.id, value) && KeyBlock(sha, value) == KeyBlock(sha, ring.current.value)
  {
    hide ValueOk, DomainOk, MacInput, KeyBlock, EndsAs;
    var later := RotateAll(ring, rs);
    RotationsStayOk(ring, rs);
    RingsLoad(ring);
    RingsLoad(later);
    SignThenVerify(sha, domain, payload, InputOf(ring), domain, InputOf(later));
    forall value ensures Maps(later, ring.current.id, value) <==> EndsAs(ring, rs, ring.current.id, value) {
      RotationsDecide(ring, rs, ring.current.id, value);
    }
    if ring.current.id in later.keys {
      assert Maps(later, ring.current.id, later.keys[ring.current.id]);
    }
  }

  /** So it verifies as long as no rotation retires or reuses the signing id. */
  lemma UntouchedIdsVerify(sha: Hash, domain: Text, payload: Json, ring: Ring, rs: seq<Rotation>)
    requires DomainOk(domain) && ValueOk(payload) && RingOk(ring) && forall r <- rs :: KeyOk(r.next.id, r.next.value)
    requires forall r <- rs :: !Touches(r, ring.current.id)
    ensures SignEnvelope(sha, domain, payload, InputOf(ring)).Some?
    ensures VerifyEnvelope(sha, domain, SignEnvelope(sha, domain, payload, InputOf(ring)).value, InputOf(RotateAll(ring, rs))) == Some(payload)
  {
    hide ValueOk, DomainOk, MacInput, KeyBlock;
    RotationKeepsEnvelopes(sha, domain, payload, ring, rs);
    assert LastSetBy(ring, rs, 0, ring.current.id, ring.current.value);
    assert EndsAs(ring, rs, ring.current.id, ring.current.value);
  }
}
