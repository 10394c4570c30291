/** Values shared by every part of the registry: JSON trees, trust records and their keys. */
module Domain {

  datatype Option<+T> = None | Some(value: T)

  datatype Result<+T, +E> = Ok(value: T) | Err(error: E)

  /** A parsed JSON document. Numbers keep their source token; object keys are unordered. */
  datatype Json =
    | Null
    | Bool(b: bool)
    | Num(token: string)
    | Str(s: string)
    | Arr(items: seq<Json>)
    | Obj(fields: map<string, Json>)

  const EMPTY_OBJECT := Obj(map[])

  datatype RecordType = Authorization | Recognition

  /** The four-tuple every record is stored under and every query asks about. */
  datatype RecordKey = RecordKey(authorityId: string, action: string, resource: string, entityId: string)

  /** `recognized` and `authorized` are absent when the writer left them out. */
  datatype TrustRecord = TrustRecord(
    entityId: string,
    authorityId: string,
    action: string,
    resource: string,
    recognized: Option<bool>,
    authorized: Option<bool>,
    context: Json,
    recordType: RecordType)
  {
    function Key(): RecordKey {
      RecordKey(authorityId, action, resource, entityId)
    }

    predicate IsRecognized() {
      recognized == Some(true)
    }

    predicate IsAuthorized() {
      authorized == Some(true)
    }

    /** `LocalStorage::matches_query` and `FileStorage::matches_query`. */
    predicate Matches(query: RecordKey) {
      entityId == query.entityId && authorityId == query.authorityId
      && action == query.action && resource == query.resource
    }
  }

  datatype RepoError =
    | RecordNotFound
    | RecordAlreadyExists
    | SerializationFailed
    | QueryFailed

  predicate HashFree(s: string) {
    '#' !in s
  }
}

/** The values of a map, counted once per key. */
module MapValues {

  ghost function Pick<K, V>(m: map<K, V>): (k: K)
    requires m != map[]
    ensures k in m
  {
    var k :| k in m; k
  }

  ghost function ValuesOf<K, V>(m: map<K, V>): multiset<V>
    decreases |m|
  {
    if m == map[] then multiset{} else ValuesOf(m - {Pick(m)}) + multiset{m[Pick(m)]}
  }

  /** The order in which a map is drained does not matter. */
  lemma {:induction false} ValuesRemove<K, V>(m: map<K, V>, k: K)
    requires k in m
    ensures ValuesOf(m) == ValuesOf(m - {k}) + multiset{m[k]}
    decreases |m|
  {
    var c := Pick(m);
    if c != k {
      var mc, mk := m - {c}, m - {k};
      assert mc - {k} == mk - {c};
      ValuesRemove(mc, k);
      ValuesRemove(mk, c);
      var core := ValuesOf(mc - {k});
      assert ValuesOf(m) == core + multiset{m[k]} + multiset{m[c]};
      assert ValuesOf(mk) == core + multiset{m[c]};
    }
  }
}
