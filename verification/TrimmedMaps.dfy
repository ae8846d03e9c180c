// Two-level maps whose keys and values are normalised on the way in. Text is an
// arbitrary type here: only its normaliser and its empty value matter.
module TrimmedMaps {

  ghost predicate Idempotent<K(!new)>(norm: K -> K) {
    forall s {:trigger norm(norm(s))} :: norm(norm(s)) == norm(s)
  }

  /** A two-level map: something filed under a key and a name. */
  type Filing<K, V> = map<K, map<K, V>>

  function Under<K, V>(m: Filing<K, V>, a: K): map<K, V> {
    if a in m then m[a] else map[]
  }

  /** Without one name of one key, and without the key if that was its last name. */
  function Without<K(==), V>(m: Filing<K, V>, a: K, h: K): Filing<K, V> {
    if h !in Under(m, a) then m
    else if m[a].Keys == {h} then m - {a} else m[a := m[a] - {h}]
  }

  /** Everything but the one entry is as before, and a key is there exactly as long as it has something. */
  ghost predicate OnlyLoses<K(!new), V>(m: Filing<K, V>, a: K, h: K, m': Filing<K, V>) {
    && (forall b | b != a :: b in m' <==> b in m)
    && (forall b | b in m && b != a :: m'[b] == m[b])
    && (a in m' <==> a in m && (h in m[a] ==> exists k :: k in m[a] && k != h))
    && (a in m' ==> forall k :: k in m'[a] <==> k in m[a] && k != h)
    && (a in m' ==> forall k | k in m'[a] :: m'[a][k] == m[a][k])
  }

  lemma WithoutLoses<K(!new), V>(m: Filing<K, V>, a: K, h: K)
    ensures OnlyLoses(m, a, h, Without(m, a, h))
  {
    if h in Under(m, a) && m[a].Keys != {h} {
      assert exists k :: k in m[a].Keys && k != h;
    }
  }

  /** Everything but the entries `gone` of the key, and the one that is put there, is as before. */
  ghost predicate OnlyGains<K(!new), V>(m: Filing<K, V>, a: K, gone: set<K>, h: K, v: V, m': Filing<K, V>) {
    && (forall b | b != a :: b in m' <==> b in m)
    && (forall b | b in m && b != a :: m'[b] == m[b])
    && a in m' && h in m'[a] && m'[a][h] == v
    && (forall k | k != h :: k in m'[a] <==> a in m && k in m[a] && k !in gone)
    && (forall k | k != h && k in m'[a] :: m'[a][k] == m[a][k])
  }

  method RemoveUnder<K(==), V>(m: Filing<K, V>, a: K, h: K) returns (m': Filing<K, V>)
    requires a in m ==> m[a] != map[]
    ensures m' == Without(m, a, h)
  {
    m' := m;
    if a in m' {
      m' := m'[a := m'[a] - {h}];
      if m'[a].Keys == {} {
        m' := m' - {a};
      }
      assert h !in m[a] ==> m[a] - {h} == m[a];
    }
  }

  lemma SameMaps<K, V>(m1: map<K, V>, m2: map<K, V>)
    requires forall a :: a in m1 <==> a in m2
    requires forall a | a in m1 :: m1[a] == m2[a]
    ensures m1 == m2
  {
  }

  type Inner<K> = map<K, K>
  type Outer<K> = map<K, map<K, K>>

  /** Normalised and not blank. */
  ghost predicate Solid<K>(norm: K -> K, blank: K, s: K) {
    s != blank && norm(s) == s
  }

  ghost predicate NormalInner<K(!new)>(norm: K -> K, blank: K, inner: Inner<K>) {
    forall name | name in inner :: Solid(norm, blank, name) && Solid(norm, blank, inner[name])
  }

  /** Only solid keys, names and values, and no key with an empty inner map. */
  ghost predicate Normal<K(!new)>(norm: K -> K, blank: K, m: Outer<K>) {
    forall a | a in m :: Solid(norm, blank, a) && m[a] != map[] && NormalInner(norm, blank, m[a])
  }

  predicate Blank<K(==)>(norm: K -> K, blank: K, s: K) {
    norm(s) == blank
  }

  ghost predicate ValidInner<K(!new)>(norm: K -> K, blank: K, inner: Inner<K>) {
    forall name | name in inner :: !Blank(norm, blank, name) && !Blank(norm, blank, inner[name])
  }

  /** Every entry of the snapshot has a non-blank key, name and value. */
  ghost predicate ValidOuter<K(!new)>(norm: K -> K, blank: K, snapshot: Outer<K>) {
    forall a | a in snapshot :: !Blank(norm, blank, a) && ValidInner(norm, blank, snapshot[a])
  }

  ghost predicate CopiedFrom<K>(norm: K -> K, inner: Inner<K>, name: K, k: K, v: K) {
    name in inner && k == norm(name) && v == norm(inner[name])
  }

  /** A normalised copy of the entries of `inner` under `names`; of names that normalise to the same, one wins. */
  ghost predicate Copy<K(!new)>(norm: K -> K, inner: Inner<K>, names: set<K>, copy: Inner<K>) {
    && (forall name {:trigger norm(name) in copy} | name in names && name in inner :: norm(name) in copy)
    && (forall k | k in copy :: exists name :: name in names && CopiedFrom(norm, inner, name, k, copy[k]))
  }

  ghost predicate ReplacedFrom<K(!new)>(norm: K -> K, snapshot: Outer<K>, a: K, k: K, inner: Inner<K>) {
    && a in snapshot && snapshot[a] != map[] && k == norm(a)
    && Copy(norm, snapshot[a], snapshot[a].Keys, inner)
  }

  /** What may replace the store: for every key with entries a normalised copy, and nothing else. */
  ghost predicate Replacement<K(!new)>(norm: K -> K, snapshot: Outer<K>, keys: set<K>, r: Outer<K>) {
    && (forall a {:trigger norm(a) in r} | a in keys && a in snapshot && snapshot[a] != map[] :: norm(a) in r)
    && (forall k | k in r :: exists a :: a in keys && ReplacedFrom(norm, snapshot, a, k, r[k]))
  }

  // ------------------------------------------------------------- one at a time

  lemma CopyOneMore<K(!new)>(norm: K -> K, inner: Inner<K>, names: set<K>, copy: Inner<K>, name: K)
    requires Copy(norm, inner, names, copy) && name in inner
    ensures Copy(norm, inner, names + {name}, copy[norm(name) := norm(inner[name])])
  {
    var copy' := copy[norm(name) := norm(inner[name])];
    forall k | k in copy' ensures exists n :: n in names + {name} && CopiedFrom(norm, inner, n, k, copy'[k]) {
      if k == norm(name) {
        assert CopiedFrom(norm, inner, name, k, copy'[k]);
      } else {
        var n :| n in names && CopiedFrom(norm, inner, n, k, copy[k]);
        assert n in names + {name};
      }
    }
  }

  lemma SkipKey<K(!new)>(norm: K -> K, snapshot: Outer<K>, keys: set<K>, r: Outer<K>, a: K)
    requires Replacement(norm, snapshot, keys, r) && a in snapshot && snapshot[a] == map[]
    ensures Replacement(norm, snapshot, keys + {a}, r)
  {
    forall k | k in r ensures exists b :: b in keys + {a} && ReplacedFrom(norm, snapshot, b, k, r[k]) {
      var b :| b in keys && ReplacedFrom(norm, snapshot, b, k, r[k]);
      assert b in keys + {a};
    }
  }

  lemma AddKey<K(!new)>(norm: K -> K, snapshot: Outer<K>, keys: set<K>, r: Outer<K>, a: K, copy: Inner<K>)
    requires Replacement(norm, snapshot, keys, r) && a in snapshot && snapshot[a] != map[]
    requires Copy(norm, snapshot[a], snapshot[a].Keys, copy)
    ensures Replacement(norm, snapshot, keys + {a}, r[norm(a) := copy])
  {
    var r' := r[norm(a) := copy];
    forall k | k in r' ensures exists b :: b in keys + {a} && ReplacedFrom(norm, snapshot, b, k, r'[k]) {
      if k == norm(a) {
        assert ReplacedFrom(norm, snapshot, a, k, r'[k]);
      } else {
        var b :| b in keys && ReplacedFrom(norm, snapshot, b, k, r[k]);
        assert b in keys + {a};
      }
    }
  }

  // ---------------------------------------------------------------- normal form

  lemma CopyIsNormal<K(!new)>(norm: K -> K, blank: K, inner: Inner<K>, copy: Inner<K>)
    requires Idempotent(norm) && ValidInner(norm, blank, inner) && inner != map[] && Copy(norm, inner, inner.Keys, copy)
    ensures NormalInner(norm, blank, copy) && copy != map[]
  {
    forall k | k in copy ensures Solid(norm, blank, k) && Solid(norm, blank, copy[k]) {
      var n :| n in inner.Keys && CopiedFrom(norm, inner, n, k, copy[k]);
      assert norm(norm(n)) == k && norm(norm(inner[n])) == copy[k];
    }
    var n :| n in inner;
    assert norm(n) in copy;
  }

  lemma ReplacementIsNormal<K(!new)>(norm: K -> K, blank: K, snapshot: Outer<K>, r: Outer<K>)
    requires Idempotent(norm) && ValidOuter(norm, blank, snapshot) && Replacement(norm, snapshot, snapshot.Keys, r)
    ensures Normal(norm, blank, r)
  {
    forall k | k in r ensures Solid(norm, blank, k) && r[k] != map[] && NormalInner(norm, blank, r[k]) {
      var a :| a in snapshot.Keys && ReplacedFrom(norm, snapshot, a, k, r[k]);
      assert norm(norm(a)) == k;
      CopyIsNormal(norm, blank, snapshot[a], r[k]);
    }
  }

  // ----------------------------------------------------------- visiting order

  ghost predicate HasName<K(!new)>(norm: K -> K, y: Inner<K>, k: K) {
    exists m :: m in y && norm(m) == k
  }

  /** The same normalised names, and the same normalised value wherever two names normalise to the same. */
  ghost predicate InnerAgree<K(!new)>(norm: K -> K, x: Inner<K>, y: Inner<K>) {
    && (forall n {:trigger HasName(norm, y, norm(n))} | n in x :: HasName(norm, y, norm(n)))
    && (forall n, m | n in x && m in y && norm(n) == norm(m) :: norm(x[n]) == norm(y[m]))
  }

  ghost predicate NonEmpty<K>(snapshot: Outer<K>, a: K) {
    a in snapshot && snapshot[a] != map[]
  }

  /** Keys that normalise to the same have contents that normalise to the same; that includes a key and itself, so two
      names of one key that normalise to the same have values that do. */
  ghost predicate Agree<K(!new)>(norm: K -> K, snapshot: Outer<K>) {
    forall a, b | NonEmpty(snapshot, a) && NonEmpty(snapshot, b) && norm(a) == norm(b) ::
      InnerAgree(norm, snapshot[a], snapshot[b])
  }

  lemma CopyIsWithin<K(!new)>(norm: K -> K, x: Inner<K>, y: Inner<K>, c1: Inner<K>, c2: Inner<K>, k: K)
    requires Copy(norm, x, x.Keys, c1) && Copy(norm, y, y.Keys, c2) && InnerAgree(norm, x, y) && k in c1
    ensures k in c2 && c1[k] == c2[k]
  {
    var n :| n in x.Keys && CopiedFrom(norm, x, n, k, c1[k]);
    assert HasName(norm, y, norm(n));
    var m :| m in y && norm(m) == k;
    assert norm(m) in c2;
    var m' :| m' in y.Keys && CopiedFrom(norm, y, m', k, c2[k]);
  }

  lemma CopiesAgree<K(!new)>(norm: K -> K, x: Inner<K>, y: Inner<K>, c1: Inner<K>, c2: Inner<K>)
    requires Copy(norm, x, x.Keys, c1) && Copy(norm, y, y.Keys, c2) && InnerAgree(norm, x, y) && InnerAgree(norm, y, x)
    ensures c1 == c2
  {
    forall k | k in c1 ensures k in c2 && c1[k] == c2[k] { CopyIsWithin(norm, x, y, c1, c2, k); }
    forall k | k in c2 ensures k in c1 { CopyIsWithin(norm, y, x, c2, c1, k); }
    SameMaps(c1, c2);
  }

  lemma ReplacementIsWithin<K(!new)>(norm: K -> K, snapshot: Outer<K>, r1: Outer<K>, r2: Outer<K>, k: K)
    requires Agree(norm, snapshot)
    requires Replacement(norm, snapshot, snapshot.Keys, r1) && Replacement(norm, snapshot, snapshot.Keys, r2)
    requires k in r1
    ensures k in r2 && r1[k] == r2[k]
  {
    var a :| a in snapshot.Keys && ReplacedFrom(norm, snapshot, a, k, r1[k]);
    assert norm(a) in r2;
    var b :| b in snapshot.Keys && ReplacedFrom(norm, snapshot, b, k, r2[k]);
    assert NonEmpty(snapshot, a) && NonEmpty(snapshot, b);
    CopiesAgree(norm, snapshot[a], snapshot[b], r1[k], r2[k]);
  }

  lemma ReplacementIsUnique<K(!new)>(norm: K -> K, snapshot: Outer<K>, r1: Outer<K>, r2: Outer<K>)
    requires Agree(norm, snapshot)
    requires Replacement(norm, snapshot, snapshot.Keys, r1) && Replacement(norm, snapshot, snapshot.Keys, r2)
    ensures r1 == r2
  {
    forall k | k in r1 ensures k in r2 && r1[k] == r2[k] { ReplacementIsWithin(norm, snapshot, r1, r2, k); }
    forall k | k in r2 ensures k in r1 { ReplacementIsWithin(norm, snapshot, r2, r1, k); }
    SameMaps(r1, r2);
  }

  /** Visiting the names in some order gives a copy ... */
  lemma {:induction false} SomeCopy<K(!new)>(norm: K -> K, inner: Inner<K>, names: set<K>) returns (copy: Inner<K>)
    requires names <= inner.Keys
    ensures Copy(norm, inner, names, copy)
    decreases |names|
  {
    if names == {} {
      copy := map[];
    } else {
      var n :| n in names;
      copy := SomeCopy(norm, inner, names - {n});
      CopyOneMore(norm, inner, names - {n}, copy, n);
      assert (names - {n}) + {n} == names;
      copy := copy[norm(n) := norm(inner[n])];
    }
  }

  /** ... and any name may come last. */
  lemma CopyEndingWith<K(!new)>(norm: K -> K, inner: Inner<K>, n: K) returns (copy: Inner<K>)
    requires n in inner
    ensures Copy(norm, inner, inner.Keys, copy) && norm(n) in copy && copy[norm(n)] == norm(inner[n])
  {
    copy := SomeCopy(norm, inner, inner.Keys - {n});
    CopyOneMore(norm, inner, inner.Keys - {n}, copy, n);
    assert (inner.Keys - {n}) + {n} == inner.Keys;
    copy := copy[norm(n) := norm(inner[n])];
  }

  lemma {:induction false} SomeReplacement<K(!new)>(norm: K -> K, snapshot: Outer<K>, keys: set<K>) returns (r: Outer<K>)
    requires keys <= snapshot.Keys
    ensures Replacement(norm, snapshot, keys, r)
    decreases |keys|
  {
    if keys == {} {
      r := map[];
    } else {
      var a :| a in keys;
      r := SomeReplacement(norm, snapshot, keys - {a});
      assert (keys - {a}) + {a} == keys;
      if snapshot[a] == map[] {
        SkipKey(norm, snapshot, keys - {a}, r, a);
      } else {
        var copy := SomeCopy(norm, snapshot[a], snapshot[a].Keys);
        AddKey(norm, snapshot, keys - {a}, r, a, copy);
        r := r[norm(a) := copy];
      }
    }
  }

  lemma ReplacementEndingWith<K(!new)>(norm: K -> K, snapshot: Outer<K>, a: K, copy: Inner<K>) returns (r: Outer<K>)
    requires NonEmpty(snapshot, a) && Copy(norm, snapshot[a], snapshot[a].Keys, copy)
    ensures Replacement(norm, snapshot, snapshot.Keys, r) && norm(a) in r && r[norm(a)] == copy
  {
    r := SomeReplacement(norm, snapshot, snapshot.Keys - {a});
    AddKey(norm, snapshot, snapshot.Keys - {a}, r, a, copy);
    assert (snapshot.Keys - {a}) + {a} == snapshot.Keys;
    r := r[norm(a) := copy];
  }

  lemma CopyHasNames<K(!new)>(norm: K -> K, inner: Inner<K>, copy: Inner<K>, k: K)
    requires Copy(norm, inner, inner.Keys, copy)
    ensures k in copy ==> HasName(norm, inner, k)
  {
    if k in copy {
      var m :| m in inner.Keys && CopiedFrom(norm, inner, m, k, copy[k]);
      assert m in inner && norm(m) == k;
    }
  }

  /** Contents that do not agree have copies that differ. */
  lemma DifferentCopies<K(!new)>(norm: K -> K, x: Inner<K>, y: Inner<K>) returns (c1: Inner<K>, c2: Inner<K>)
    requires !InnerAgree(norm, x, y)
    ensures Copy(norm, x, x.Keys, c1) && Copy(norm, y, y.Keys, c2) && c1 != c2
  {
    if n :| n in x && !HasName(norm, y, norm(n)) {
      c1 := CopyEndingWith(norm, x, n);
      c2 := SomeCopy(norm, y, y.Keys);
      CopyHasNames(norm, y, c2, norm(n));
    } else {
      var n, m :| n in x && m in y && norm(n) == norm(m) && norm(x[n]) != norm(y[m]);
      c1 := CopyEndingWith(norm, x, n);
      c2 := CopyEndingWith(norm, y, m);
    }
  }

  lemma DifferentReplacements<K(!new)>(norm: K -> K, snapshot: Outer<K>) returns (r1: Outer<K>, r2: Outer<K>)
    requires !Agree(norm, snapshot)
    ensures Replacement(norm, snapshot, snapshot.Keys, r1) && Replacement(norm, snapshot, snapshot.Keys, r2) && r1 != r2
  {
    var a, b :| NonEmpty(snapshot, a) && NonEmpty(snapshot, b) && norm(a) == norm(b)
                && !InnerAgree(norm, snapshot[a], snapshot[b]);
    var c1, c2 := DifferentCopies(norm, snapshot[a], snapshot[b]);
    r1 := ReplacementEndingWith(norm, snapshot, a, c1);
    r2 := ReplacementEndingWith(norm, snapshot, b, c2);
  }

  ghost predicate OrderIndependent<K(!new)>(norm: K -> K, snapshot: Outer<K>) {
    forall r1, r2 | Replacement(norm, snapshot, snapshot.Keys, r1) && Replacement(norm, snapshot, snapshot.Keys, r2) :: r1 == r2
  }

  /** The result does not depend on the order in which the maps are visited if and only if the snapshot agrees with itself. */
  lemma OrderIndependentIff<K(!new)>(norm: K -> K, snapshot: Outer<K>)
    ensures OrderIndependent(norm, snapshot) <==> Agree(norm, snapshot)
  {
    if Agree(norm, snapshot) {
      forall r1, r2 | Replacement(norm, snapshot, snapshot.Keys, r1) && Replacement(norm, snapshot, snapshot.Keys, r2)
        ensures r1 == r2
      {
        ReplacementIsUnique(norm, snapshot, r1, r2);
      }
    } else {
      var r1, r2 := DifferentReplacements(norm, snapshot);
    }
  }

  // ------------------------------------------------------------------ round trip

  /** Two keys that normalise to the same, with values that do not. */
  lemma KeysCollide<K(!new)>(norm: K -> K, blank: K, a: K, b: K, n: K, x: K, y: K)
    requires a != b && norm(a) == norm(b) && norm(x) != norm(y)
    requires forall k | k in {a, n, x, y} :: !Blank(norm, blank, k)
    ensures ValidOuter(norm, blank, map[a := map[n := x], b := map[n := y]])
    ensures !OrderIndependent(norm, map[a := map[n := x], b := map[n := y]])
  {
    var snapshot := map[a := map[n := x], b := map[n := y]];
    assert n in snapshot[a] && n in snapshot[b] && NonEmpty(snapshot, a) && NonEmpty(snapshot, b);
    assert !InnerAgree(norm, snapshot[a], snapshot[b]);
    OrderIndependentIff(norm, snapshot);
  }

  /** Two names of one key that normalise to the same, with values that do not. */
  lemma NamesCollide<K(!new)>(norm: K -> K, blank: K, a: K, n: K, m: K, x: K, y: K)
    requires n != m && norm(n) == norm(m) && norm(x) != norm(y)
    requires forall k | k in {a, n, x, y} :: !Blank(norm, blank, k)
    ensures ValidOuter(norm, blank, map[a := map[n := x, m := y]])
    ensures !OrderIndependent(norm, map[a := map[n := x, m := y]])
  {
    var snapshot := map[a := map[n := x, m := y]];
    assert n in snapshot[a] && m in snapshot[a] && NonEmpty(snapshot, a);
    assert !Blank(norm, blank, n) && !Blank(norm, blank, m) && !Blank(norm, blank, x) && !Blank(norm, blank, y);
    assert ValidInner(norm, blank, snapshot[a]);
    assert !InnerAgree(norm, snapshot[a], snapshot[a]);
    OrderIndependentIff(norm, snapshot);
  }

  lemma NormalCopiesItself<K(!new)>(norm: K -> K, blank: K, inner: Inner<K>)
    requires NormalInner(norm, blank, inner)
    ensures ValidInner(norm, blank, inner) && Copy(norm, inner, inner.Keys, inner) && InnerAgree(norm, inner, inner)
  {
    forall k | k in inner ensures exists n :: n in inner.Keys && CopiedFrom(norm, inner, n, k, inner[k]) {
      assert CopiedFrom(norm, inner, k, k, inner[k]);
    }
  }

  lemma NormalReplacesItself<K(!new)>(norm: K -> K, blank: K, m: Outer<K>)
    requires Normal(norm, blank, m)
    ensures ValidOuter(norm, blank, m) && Agree(norm, m) && Replacement(norm, m, m.Keys, m)
  {
    forall a | a in m
      ensures !Blank(norm, blank, a) && ValidInner(norm, blank, m[a]) && InnerAgree(norm, m[a], m[a])
      ensures ReplacedFrom(norm, m, a, a, m[a])
    {
      assert Solid(norm, blank, a);
      NormalCopiesItself(norm, blank, m[a]);
    }
  }

  /** A normal map is a valid snapshot, and the only thing that may replace it is itself. */
  lemma RoundTrip<K(!new)>(norm: K -> K, blank: K, m: Outer<K>, r: Outer<K>)
    requires Normal(norm, blank, m)
    ensures ValidOuter(norm, blank, m) && OrderIndependent(norm, m)
    ensures Replacement(norm, m, m.Keys, r) <==> r == m
  {
    NormalReplacesItself(norm, blank, m);
    OrderIndependentIff(norm, m);
    if Replacement(norm, m, m.Keys, r) { ReplacementIsUnique(norm, m, r, m); }
  }
}
