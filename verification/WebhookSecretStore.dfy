// The per-API webhook secrets: nested maps that are changed in place, copied out
// as a snapshot and replaced by a snapshot. Maps are visited in an arbitrary order.
// Ids, names and values pass through `norm`, which the constructor sets to
// `strings.TrimSpace`; the results need only that it is idempotent.
module WebhookSecrets {
  import opened GoStrings
  import opened TrimmedMaps

  type Secrets = Outer<string>

  datatype StoreError = Ok | InvalidInput | NotFound

  /** The store after a valid secret has been put under its normalised id and name. */
  function Stored<K>(m: Outer<K>, a: K, n: K, p: K): Outer<K> {
    m[a := Under(m, a)[n := p]]
  }

  /** No id, name or value is blank. */
  ghost predicate NoBlanks(norm: string -> string, snapshot: Secrets) {
    && (forall a | a in snapshot :: norm(a) != "")
    && (forall a, n | a in snapshot && n in snapshot[a] :: norm(n) != "" && norm(snapshot[a][n]) != "")
  }

  class WebhookSecretStore {
    const norm: string -> string
    var secretsByAPI: Secrets

    ghost predicate Valid()
      reads this
    {
      Idempotent(norm) && Normal(norm, "", secretsByAPI)
    }

    constructor ()
      ensures norm == TrimSpace && Valid() && secretsByAPI == map[]
    {
      TrimSpaceNormalises();
      norm := TrimSpace;
      secretsByAPI := map[];
    }

    method Store(api: string, name: string, plaintext: string) returns (err: StoreError)
      requires Valid()
      modifies this
      ensures Valid()
      ensures var blank := norm(api) == "" || norm(name) == "" || norm(plaintext) == "";
        && err == (if blank then InvalidInput else Ok)
        && (if blank then secretsByAPI == old(secretsByAPI)
            else OnlyGains(old(secretsByAPI), norm(api), {}, norm(name), norm(plaintext), secretsByAPI))
      ensures Next(norm, "", old(secretsByAPI), Put(api, name, plaintext), secretsByAPI)
    {
      var a, n, p := norm(api), norm(name), norm(plaintext);
      if a == "" || n == "" || p == "" {
        return InvalidInput;
      }
      StoredIsNormal(norm, "", secretsByAPI, api, name, plaintext);
      secretsByAPI := PutSecret(secretsByAPI, a, n, p);
      return Ok;
    }

    method Remove(api: string, name: string) returns (err: StoreError)
      requires Valid()
      modifies this
      ensures Valid() && OnlyLoses(old(secretsByAPI), norm(api), norm(name), secretsByAPI)
      ensures err == if norm(api) in old(secretsByAPI) && norm(name) in old(secretsByAPI)[norm(api)] then Ok else NotFound
      ensures Next(norm, "", old(secretsByAPI), Drop(api, name), secretsByAPI)
    {
      var a, n := norm(api), norm(name);
      WithoutLoses(secretsByAPI, a, n);
      if a !in secretsByAPI || n !in secretsByAPI[a] {
        return NotFound;
      }
      RemovedIsNormal(norm, "", secretsByAPI, a, n);
      secretsByAPI := RemoveUnder(secretsByAPI, a, n);
      return Ok;
    }

    method RemoveAllByAPI(api: string)
      requires Valid()
      modifies this
      ensures Valid() && secretsByAPI == old(secretsByAPI) - {norm(api)}
      ensures Next(norm, "", old(secretsByAPI), DropApi(api), secretsByAPI)
    {
      secretsByAPI := secretsByAPI - {norm(api)};
    }

    /** The values of one API, each secret once, in the order the map is visited. */
    method GetAllByAPI(api: string) returns (values: seq<string>, ghost names: seq<string>)
      ensures Lists(Under(secretsByAPI, norm(api)), names, values) && |values| == |Under(secretsByAPI, norm(api))|
      ensures forall v :: v in values <==> v in Under(secretsByAPI, norm(api)).Values
    {
      var a := norm(api);
      if a !in secretsByAPI {
        return [], [];
      }
      values, names := ListValues(secretsByAPI[a]);
      ListsAllValues(secretsByAPI[a], names, values);
    }

    /** Fails without effect if any entry is blank; otherwise the store becomes a normalised copy of the snapshot. */
    method ReplaceAll(snapshot: Secrets) returns (err: StoreError)
      requires Valid()
      modifies this
      ensures Valid() && err == if NoBlanks(norm, snapshot) then Ok else InvalidInput
      ensures err == Ok ==> Replacement(norm, snapshot, snapshot.Keys, secretsByAPI)
      ensures err != Ok ==> secretsByAPI == old(secretsByAPI)
      ensures Next(norm, "", old(secretsByAPI), Replace(snapshot), secretsByAPI)
    {
      var ok, replacement := BuildReplacement(norm, "", snapshot);
      if !ok {
        return InvalidInput;
      }
      ReplacementIsNormal(norm, "", snapshot, replacement);
      secretsByAPI := replacement;
      return Ok;
    }

    /** A deep copy of the whole store. */
    method GetAll() returns (result: Secrets)
      ensures result == secretsByAPI
    {
      result := map[];
      var left := secretsByAPI.Keys;
      while left != {}
        invariant left <= secretsByAPI.Keys && result.Keys == secretsByAPI.Keys - left
        invariant forall api | api in result :: result[api] == secretsByAPI[api]
        decreases left
      {
        var api :| api in left;
        left := left - {api};
        var copy := Clone(secretsByAPI[api]);
        result := result[api := copy];
      }
    }

    method ClearAll()
      requires Valid()
      modifies this
      ensures Valid() && secretsByAPI == map[]
      ensures Next(norm, "", old(secretsByAPI), Clear, secretsByAPI)
    {
      secretsByAPI := map[];
    }
  }

  /** The values of the map under its names, each name once. */
  ghost predicate Lists<K(!new)>(m: Inner<K>, names: seq<K>, values: seq<K>) {
    && |names| == |values|
    && (forall i, j | 0 <= i < j < |names| :: names[i] != names[j])
    && (forall n :: n in names <==> n in m)
    && (forall i | 0 <= i < |names| :: values[i] == m[names[i]])
  }

  lemma ListsAllValues<K(!new)>(m: Inner<K>, names: seq<K>, values: seq<K>)
    requires Lists(m, names, values)
    ensures forall v :: v in values <==> v in m.Values
  {
    forall v | v in values ensures v in m.Values {
      var i :| 0 <= i < |values| && values[i] == v;
      assert names[i] in m;
    }
    forall v | v in m.Values ensures v in values {
      var n :| n in m && m[n] == v;
      var i :| 0 <= i < |names| && names[i] == n;
      assert values[i] == v;
    }
  }

  method ListValues<K(==, !new)>(m: Inner<K>) returns (values: seq<K>, ghost names: seq<K>)
    ensures Lists(m, names, values) && |values| == |m|
  {
    values, names := [], [];
    var left := m.Keys;
    while left != {}
      invariant left <= m.Keys && |names| == |values| && |values| + |left| == |m|
      invariant forall i, j | 0 <= i < j < |names| :: names[i] != names[j]
      invariant forall n :: n in names <==> n in m && n !in left
      invariant forall i | 0 <= i < |names| :: values[i] == m[names[i]]
      decreases left
    {
      var n :| n in left;
      left := left - {n};
      values, names := values + [m[n]], names + [n];
    }
  }

  method PutSecret<K(==)>(m: Outer<K>, a: K, n: K, p: K) returns (m': Outer<K>)
    ensures m' == Stored(m, a, n, p)
  {
    m' := m;
    if a !in m' {
      m' := m'[a := map[]];
    }
    m' := m'[a := m'[a][n := p]];
  }

  method Clone(inner: Inner<string>) returns (copy: Inner<string>)
    ensures copy == inner
  {
    copy := map[];
    var left := inner.Keys;
    while left != {}
      invariant left <= inner.Keys && copy.Keys == inner.Keys - left
      invariant forall name | name in copy :: copy[name] == inner[name]
      decreases left
    {
      var name :| name in left;
      left := left - {name};
      copy := copy[name := inner[name]];
    }
  }

  /** The inner loop of ReplaceAll: one API's secrets, in any order. */
  method CopyInner<K(==, !new)>(norm: K -> K, blank: K, inner: Inner<K>) returns (ok: bool, copy: Inner<K>)
    ensures ok <==> ValidInner(norm, blank, inner)
    ensures ok ==> Copy(norm, inner, inner.Keys, copy)
  {
    ok, copy := true, map[];
    var left := inner.Keys;
    while left != {}
      invariant left <= inner.Keys && ok
      invariant forall name | name in inner && name !in left :: !Blank(norm, blank, name) && !Blank(norm, blank, inner[name])
      invariant Copy(norm, inner, inner.Keys - left, copy)
      decreases left
    {
      var name :| name in left;
      ghost var done := inner.Keys - left;
      left := left - {name};
      assert inner.Keys - left == done + {name};
      if Blank(norm, blank, name) || Blank(norm, blank, inner[name]) {
        ok := false;
        return;
      }
      CopyOneMore(norm, inner, done, copy, name);
      copy := copy[norm(name) := norm(inner[name])];
    }
    assert inner.Keys - left == inner.Keys;
  }

  /** The outer loop of ReplaceAll: all APIs, in any order. */
  method BuildReplacement<K(==, !new)>(norm: K -> K, blank: K, snapshot: Outer<K>) returns (ok: bool, r: Outer<K>)
    ensures ok <==> ValidOuter(norm, blank, snapshot)
    ensures ok ==> Replacement(norm, snapshot, snapshot.Keys, r)
  {
    ok, r := true, map[];
    var left := snapshot.Keys;
    while left != {}
      invariant left <= snapshot.Keys && ok
      invariant forall a | a in snapshot && a !in left :: !Blank(norm, blank, a) && ValidInner(norm, blank, snapshot[a])
      invariant Replacement(norm, snapshot, snapshot.Keys - left, r)
      decreases left
    {
      var a :| a in left;
      ghost var done := snapshot.Keys - left;
      left := left - {a};
      assert snapshot.Keys - left == done + {a};
      if Blank(norm, blank, a) {
        ok := false;
        return;
      }
      if snapshot[a].Keys == {} {
        SkipKey(norm, snapshot, done, r, a);
      } else {
        var valid, copy := CopyInner(norm, blank, snapshot[a]);
        if !valid {
          ok := false;
          return;
        }
        AddKey(norm, snapshot, done, r, a, copy);
        r := r[norm(a) := copy];
      }
    }
    assert snapshot.Keys - left == snapshot.Keys;
  }

  // --------------------------------------------------------------------- runs

  lemma StoredIsNormal<K(!new)>(norm: K -> K, blank: K, m: Outer<K>, api: K, name: K, plaintext: K)
    requires Idempotent(norm) && Normal(norm, blank, m)
    requires !Blank(norm, blank, api) && !Blank(norm, blank, name) && !Blank(norm, blank, plaintext)
    ensures Normal(norm, blank, Stored(m, norm(api), norm(name), norm(plaintext)))
  {
    assert Solid(norm, blank, norm(api)) && Solid(norm, blank, norm(name)) && Solid(norm, blank, norm(plaintext));
    assert norm(name) in Stored(m, norm(api), norm(name), norm(plaintext))[norm(api)];
  }

  lemma RemovedIsNormal<K(!new)>(norm: K -> K, blank: K, m: Outer<K>, a: K, n: K)
    requires Normal(norm, blank, m)
    ensures Normal(norm, blank, Without(m, a, n))
  {
    if n in Under(m, a) && m[a].Keys != {n} {
      var k :| k in m[a] && k != n;
      assert k in m[a] - {n};
    }
  }

  datatype Op<K> =
    | Put(api: K, name: K, plaintext: K)
    | Drop(api: K, name: K)
    | DropApi(api: K)
    | Replace(snapshot: Outer<K>)
    | Clear

  /** What one operation of the store may do. */
  ghost predicate Next<K(!new)>(norm: K -> K, blank: K, m: Outer<K>, op: Op<K>, m': Outer<K>) {
    match op
    case Put(api, name, plaintext) =>
      m' == if Blank(norm, blank, api) || Blank(norm, blank, name) || Blank(norm, blank, plaintext) then m
            else Stored(m, norm(api), norm(name), norm(plaintext))
    case Drop(api, name) => m' == Without(m, norm(api), norm(name))
    case DropApi(api) => m' == m - {norm(api)}
    case Replace(snapshot) =>
      if ValidOuter(norm, blank, snapshot) then Replacement(norm, snapshot, snapshot.Keys, m') else m' == m
    case Clear => m' == map[]
  }

  lemma NextStaysNormal<K(!new)>(norm: K -> K, blank: K, m: Outer<K>, op: Op<K>, m': Outer<K>)
    requires Idempotent(norm) && Normal(norm, blank, m) && Next(norm, blank, m, op, m')
    ensures Normal(norm, blank, m')
  {
    match op {
      case Put(api, name, plaintext) =>
        if !Blank(norm, blank, api) && !Blank(norm, blank, name) && !Blank(norm, blank, plaintext) {
          StoredIsNormal(norm, blank, m, api, name, plaintext);
        }
      case Drop(api, name) => RemovedIsNormal(norm, blank, m, norm(api), norm(name));
      case Replace(snapshot) =>
        if ValidOuter(norm, blank, snapshot) { ReplacementIsNormal(norm, blank, snapshot, m'); }
      case _ =>
    }
  }

  /** Every store that any sequence of operations leads to is normal ... */
  lemma {:induction false} RunStaysNormal<K(!new)>(norm: K -> K, blank: K, trace: seq<Outer<K>>, ops: seq<Op<K>>)
    requires Idempotent(norm) && |trace| == |ops| + 1 && trace[0] == map[]
    requires forall i | 0 <= i < |ops| :: Next(norm, blank, trace[i], ops[i], trace[i + 1])
    ensures Normal(norm, blank, trace[|ops|])
    decreases |ops|
  {
    if ops != [] {
      var n := |ops| - 1;
      RunStaysNormal(norm, blank, trace[..n + 1], ops[..n]);
      NextStaysNormal(norm, blank, trace[n], ops[n], trace[n + 1]);
    }
  }

  /** ... so replacing it by its own snapshot succeeds and restores exactly its contents, whatever the visiting order. */
  lemma SnapshotRoundTrip(trace: seq<Secrets>, ops: seq<Op<string>>, restored: Secrets)
    requires |trace| == |ops| + 1 && trace[0] == map[]
    requires forall i | 0 <= i < |ops| :: Next(TrimSpace, "", trace[i], ops[i], trace[i + 1])
    ensures ValidOuter(TrimSpace, "", trace[|ops|])
    ensures Next(TrimSpace, "", trace[|ops|], Replace(trace[|ops|]), restored) <==> restored == trace[|ops|]
  {
    TrimSpaceNormalises();
    RunStaysNormal(TrimSpace, "", trace, ops);
    RoundTrip(TrimSpace, "", trace[|ops|], restored);
  }

  lemma OwnSnapshotIsValid(norm: string -> string, m: Secrets)
    requires Normal(norm, "", m)
    ensures NoBlanks(norm, m)
  {
  }

  /** A client that takes a snapshot of a store and puts it back: it succeeds and changes nothing. */
  method RestoreSnapshot(store: WebhookSecretStore) returns (snapshot: Secrets, err: StoreError)
    requires store.Valid()
    modifies store
    ensures store.Valid() && err == Ok && snapshot == store.secretsByAPI == old(store.secretsByAPI)
  {
    snapshot := store.GetAll();
    OwnSnapshotIsValid(store.norm, snapshot);
    err := store.ReplaceAll(snapshot);
    RoundTrip(store.norm, "", snapshot, store.secretsByAPI);
  }

  // ----------------------------------------------------- inputs that collide

  /** Two ids that trim to the same: which of the two secrets is stored depends on the visiting order. */
  lemma CollidingIdsDependOnOrder()
    ensures var snapshot := map["a" := map["a" := "x"], " a" := map["a" := "y"]];
      ValidOuter(TrimSpace, "", snapshot) && !OrderIndependent(TrimSpace, snapshot)
  {
    Trims();
    assert |"a"| != |" a"| && "x"[0] != "y"[0];
    KeysCollide(TrimSpace, "", "a", " a", "a", "x", "y");
  }

  /** And so with two names of one id. */
  lemma CollidingNamesDependOnOrder()
    ensures var snapshot := map["a" := map["a" := "x", " a" := "y"]];
      ValidOuter(TrimSpace, "", snapshot) && !OrderIndependent(TrimSpace, snapshot)
  {
    Trims();
    assert |"a"| != |" a"| && "x"[0] != "y"[0];
    NamesCollide(TrimSpace, "", "a", "a", " a", "x", "y");
  }
}
