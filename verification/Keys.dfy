/** Flat string keys: record keys (domain/key.rs) and message keys (dedup/mod.rs). */
module Keys {
  import opened Domain

  const TR_SK_PREFIX := "TR#"
  const MESSAGE_PREFIX := "MID#"
  const ANONYMOUS := "anonymous"

  /** `TrustRecordKey::sk`: `TR#authority#action#resource#entity`. */
  function Sk(key: RecordKey): string {
    TR_SK_PREFIX + (key.authorityId + "#" + (key.action + "#" + (key.resource + "#" + key.entityId)))
  }

  function IssuerText(issuer: Option<string>): string {
    match issuer
    case None => ANONYMOUS
    case Some(did) => did
  }

  /** `message_key`: `MID#issuer#id`. */
  function MessageKey(issuer: Option<string>, id: string): string {
    MESSAGE_PREFIX + (IssuerText(issuer) + "#" + id)
  }

  /** The three fields before the last separator contain no separator. */
  predicate Storable(key: RecordKey) {
    HashFree(key.authorityId) && HashFree(key.action) && HashFree(key.resource)
  }

  lemma FirstSeparator(a: string, x: string, b: string, y: string)
    requires HashFree(a) && HashFree(b)
    requires a + "#" + x == b + "#" + y
    ensures a == b && x == y
  {
    var s := a + "#" + x;
    assert s[|a|] == '#' && s[|b|] == '#';
    if |a| < |b| {
      assert false;
    } else if |b| < |a| {
      assert false;
    } else {
      assert a == s[..|a|] == b;
      assert x == s[|a| + 1..] == y;
    }
  }

  lemma DropPrefix(p: string, x: string, y: string)
    requires p + x == p + y
    ensures x == y
  {
    assert x == (p + x)[|p|..];
    assert y == (p + y)[|p|..];
  }

  /** Storable records never share a flat key. */
  lemma SkInjective(k: RecordKey, l: RecordKey)
    requires Storable(k) && Storable(l)
    requires Sk(k) == Sk(l)
    ensures k == l
  {
    var kr, lr := k.resource + "#" + k.entityId, l.resource + "#" + l.entityId;
    var ka, la := k.action + "#" + kr, l.action + "#" + lr;
    DropPrefix(TR_SK_PREFIX, k.authorityId + "#" + ka, l.authorityId + "#" + la);
    FirstSeparator(k.authorityId, ka, l.authorityId, la);
    FirstSeparator(k.action, kr, l.action, lr);
    FirstSeparator(k.resource, k.entityId, l.resource, l.entityId);
  }

  ghost predicate SkUnshared(k: RecordKey) {
    forall l :: Sk(l) == Sk(k) ==> l == k
  }

  function BeforeHash(s: string): (r: string)
    requires !HashFree(s)
    ensures |r| < |s| && HashFree(r) && s[..|r|] == r && s[|r|] == '#'
  {
    if s[0] == '#' then "" else [s[0]] + BeforeHash(s[1..])
  }

  function AfterHash(s: string): (r: string)
    requires !HashFree(s)
    ensures BeforeHash(s) + "#" + r == s
  {
    s[|BeforeHash(s)| + 1..]
  }

  /** Four fields joined in order; the flat key is one such join. */
  function Joined(a: string, b: string, c: string, d: string): string {
    a + "#" + (b + "#" + (c + "#" + d))
  }

  lemma SkJoins(k: RecordKey)
    ensures Sk(k) == TR_SK_PREFIX + Joined(k.authorityId, k.action, k.resource, k.entityId)
  {
  }

  /** A fifth piece goes to either neighbour without changing the text. */
  lemma Regrouped(a: string, b: string, c: string, d: string, e: string)
    ensures Joined(a + "#" + b, c, d, e) == Joined(a, b, c, d + "#" + e)
    ensures Joined(a, b + "#" + c, d, e) == Joined(a, b, c, d + "#" + e)
    ensures Joined(a, b, c + "#" + d, e) == Joined(a, b, c, d + "#" + e)
  {
    var de := d + "#" + e;
    assert (a + "#" + b) + "#" + (c + "#" + de) == a + "#" + (b + "#" + (c + "#" + de));
    assert (b + "#" + c) + "#" + de == b + "#" + (c + "#" + de);
    assert (c + "#" + d) + "#" + e == c + "#" + de;
  }

  /** A separator inside any field lets a second four-tuple claim the same flat key. */
  lemma SkShared(k: RecordKey) returns (l: RecordKey)
    requires !(Storable(k) && HashFree(k.entityId))
    ensures l != k && Sk(l) == Sk(k)
  {
    if !HashFree(k.authorityId) {
      var x, y := BeforeHash(k.authorityId), AfterHash(k.authorityId);
      l := RecordKey(x, y, k.action, k.resource + "#" + k.entityId);
      Regrouped(x, y, k.action, k.resource, k.entityId);
    } else if !HashFree(k.action) {
      var x, y := BeforeHash(k.action), AfterHash(k.action);
      l := RecordKey(k.authorityId, x, y, k.resource + "#" + k.entityId);
      Regrouped(k.authorityId, x, y, k.resource, k.entityId);
      assert |x| < |k.action|;
    } else if !HashFree(k.resource) {
      var x, y := BeforeHash(k.resource), AfterHash(k.resource);
      l := RecordKey(k.authorityId, k.action, x, y + "#" + k.entityId);
      Regrouped(k.authorityId, k.action, x, y, k.entityId);
      assert |x| < |k.resource|;
    } else {
      var x, y := BeforeHash(k.entityId), AfterHash(k.entityId);
      l := RecordKey(k.authorityId + "#" + k.action, k.resource, x, y);
      Regrouped(k.authorityId, k.action, k.resource, x, y);
      assert |l.authorityId| > |k.authorityId|;
    }
    SkJoins(k);
    SkJoins(l);
  }

  /** A record has its flat key to itself exactly when no field holds the separator. */
  lemma SkUnsharedIff(k: RecordKey)
    ensures SkUnshared(k) <==> Storable(k) && HashFree(k.entityId)
  {
    if !(Storable(k) && HashFree(k.entityId)) {
      var l := SkShared(k);
    } else {
      forall l | Sk(l) == Sk(k)
        ensures l == k
      {
        SeparatorCount(l);
        SeparatorCount(k);
        SkInjective(k, l);
      }
    }
  }

  function Hashes(s: string): nat {
    if s == "" then 0 else (if s[0] == '#' then 1 else 0) + Hashes(s[1..])
  }

  lemma {:induction false} HashesConcat(s: string, t: string)
    ensures Hashes(s + t) == Hashes(s) + Hashes(t)
  {
    if s == "" {
      assert s + t == t;
    } else {
      assert (s + t)[1..] == s[1..] + t;
      HashesConcat(s[1..], t);
    }
  }

  lemma {:induction false} HashesZero(s: string)
    ensures Hashes(s) == 0 <==> HashFree(s)
  {
    if s != "" {
      HashesZero(s[1..]);
      assert s == [s[0]] + s[1..];
    }
  }

  lemma SeparatorCount(k: RecordKey)
    ensures Hashes(Sk(k)) == 4 + Hashes(k.authorityId) + Hashes(k.action) + Hashes(k.resource) + Hashes(k.entityId)
    ensures Hashes(k.authorityId) == 0 <==> HashFree(k.authorityId)
    ensures Hashes(k.action) == 0 <==> HashFree(k.action)
    ensures Hashes(k.resource) == 0 <==> HashFree(k.resource)
    ensures Hashes(k.entityId) == 0 <==> HashFree(k.entityId)
  {
    HashesZero(k.authorityId);
    HashesZero(k.action);
    HashesZero(k.resource);
    HashesZero(k.entityId);
    var r := k.resource + "#" + k.entityId;
    var a := k.action + "#" + r;
    HashesConcat(TR_SK_PREFIX, k.authorityId + "#" + a);
    HashesConcat(k.authorityId + "#", a);
    HashesConcat(k.authorityId, "#");
    HashesConcat(k.action + "#", r);
    HashesConcat(k.action, "#");
    HashesConcat(k.resource + "#", k.entityId);
    HashesConcat(k.resource, "#");
    assert Hashes("#") == 1;
    assert Hashes("R#") == 1;
    assert Hashes("TR#") == 1;
  }

  // ------------------------------------------------------------- message keys

  /** Senders with '#'-free identifiers other than the literal `anonymous`. */
  predicate NamedIssuer(issuer: Option<string>) {
    issuer.Some? && HashFree(issuer.value) && issuer.value != ANONYMOUS
  }

  /** One named sender can never occupy another's id space, nor the anonymous one. */
  lemma MessageKeyInjective(i: Option<string>, id: string, j: Option<string>, jd: string)
    requires NamedIssuer(i) && (NamedIssuer(j) || j.None?)
    requires MessageKey(i, id) == MessageKey(j, jd)
    ensures i == j && id == jd
  {
    DropPrefix(MESSAGE_PREFIX, IssuerText(i) + "#" + id, IssuerText(j) + "#" + jd);
    FirstSeparator(IssuerText(i), id, IssuerText(j), jd);
  }

  ghost predicate MessageKeyUnshared(issuer: Option<string>, id: string) {
    forall j, jd :: MessageKey(j, jd) == MessageKey(issuer, id) ==> j == issuer && jd == id
  }

  lemma HashesAround(s: string, t: string)
    ensures Hashes(s + "#" + t) == Hashes(s) + 1 + Hashes(t)
  {
    HashesConcat(s + "#", t);
    HashesConcat(s, "#");
    assert Hashes("#") == 1;
  }

  /** A key with a single separator after its prefix splits in only one way. */
  lemma OneSeparator(j: Option<string>, jd: string, i: Option<string>, id: string)
    requires NamedIssuer(i) && HashFree(id) && MessageKey(j, jd) == MessageKey(i, id)
    ensures j == i && jd == id
  {
    DropPrefix(MESSAGE_PREFIX, IssuerText(j) + "#" + jd, IssuerText(i) + "#" + id);
    HashesAround(IssuerText(j), jd);
    HashesAround(IssuerText(i), id);
    HashesZero(IssuerText(j));
    HashesZero(IssuerText(i));
    HashesZero(id);
    FirstSeparator(IssuerText(j), jd, IssuerText(i), id);
  }

  /** A document's dedup key is its own exactly for a named issuer and a '#'-free id. */
  lemma MessageKeyUnsharedIff(issuer: Option<string>, id: string)
    ensures MessageKeyUnshared(issuer, id) <==> NamedIssuer(issuer) && HashFree(id)
  {
    var text := IssuerText(issuer);
    if issuer.None? {
      assert MessageKey(Some(ANONYMOUS), id) == MessageKey(issuer, id);
    } else if text == ANONYMOUS {
      assert MessageKey(None, id) == MessageKey(issuer, id);
    } else if !HashFree(text) {
      var x, y := BeforeHash(text), AfterHash(text);
      assert x + "#" + (y + "#" + id) == text + "#" + id;
      assert MessageKey(Some(x), y + "#" + id) == MessageKey(issuer, id);
      assert |x| < |text|;
    } else if !HashFree(id) {
      var x, y := BeforeHash(id), AfterHash(id);
      assert (text + "#" + x) + "#" + y == text + "#" + id;
      assert MessageKey(Some(text + "#" + x), y) == MessageKey(issuer, id);
      assert |text + "#" + x| > |text|;
    } else {
      forall j, jd | MessageKey(j, jd) == MessageKey(issuer, id)
        ensures j == issuer && jd == id
      {
        OneSeparator(j, jd, issuer, id);
      }
    }
  }

  /** Dedup entries stay clear of the namespace record listings scan. */
  lemma MessageKeyOutsideRecords(issuer: Option<string>, id: string, k: RecordKey)
    ensures !(TR_SK_PREFIX <= MessageKey(issuer, id))
    ensures TR_SK_PREFIX <= Sk(k)
    ensures MessageKey(issuer, id) != Sk(k)
  {
    assert MessageKey(issuer, id)[0] == 'M';
    assert Sk(k)[0] == 'T';
  }

  /** The two kinds of key, spelled out: a document with no issuer shares the space of an issuer called `anonymous`. */
  lemma KeysSpelledOut(k: RecordKey, did: string, id: string)
    ensures Sk(k) == "TR#" + k.authorityId + "#" + k.action + "#" + k.resource + "#" + k.entityId
    ensures MessageKey(Some(did), id) == "MID#" + did + "#" + id
    ensures MessageKey(None, id) == "MID#anonymous#" + id
  {
    SkJoins(k);
    assert ANONYMOUS + "#" + id == "anonymous#" + id;
  }
}
