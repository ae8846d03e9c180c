// The API-key store seen as an index: per API, from key hash to key name. Text is
// an arbitrary type; hashes pass through the normaliser `norm` (trimming).
module ApiKeyIndex {
  import opened TrimmedMaps

  type Names<K> = map<K, K>
  type Index<K> = map<K, map<K, K>>

  /** Each name has at most one hash. */
  ghost predicate NamesDistinct<K(!new)>(inner: Names<K>) {
    forall h, k | h in inner && k in inner && inner[h] == inner[k] :: h == k
  }

  ghost predicate HashesSolid<K(!new)>(norm: K -> K, blank: K, inner: Names<K>) {
    forall h | h in inner :: Solid(norm, blank, h)
  }

  /** No API without keys, and only trimmed non-empty hashes. */
  ghost predicate Sound<K(!new)>(norm: K -> K, blank: K, idx: Index<K>) {
    forall a | a in idx :: idx[a] != map[] && HashesSolid(norm, blank, idx[a])
  }

  /** Moreover one key per name. */
  ghost predicate Good<K(!new)>(norm: K -> K, blank: K, idx: Index<K>) {
    forall a | a in idx :: idx[a] != map[] && HashesSolid(norm, blank, idx[a]) && NamesDistinct(idx[a])
  }

  /** Of the keys with the name, the store takes out one (whichever it meets first), or none if there is none. */
  ghost predicate Evicted<K>(inner: Names<K>, n: K, gone: set<K>) {
    if n in inner.Values then exists g :: g in inner && inner[g] == n && gone == {g} else gone == {}
  }

  predicate Conflicts<K(==), V>(idx: Filing<K, V>, a: K, h: K, gone: set<K>) {
    h in Under(idx, a) - gone
  }

  /** The eviction comes first and stays even if the hash turns out to be taken. What is filed is a name here and a key
      object in the store. */
  function Stored<K(==), V>(idx: Filing<K, V>, a: K, h: K, v: V, gone: set<K>): Filing<K, V> {
    var inner := Under(idx, a) - gone;
    if h in inner then idx[a := inner] else idx[a := inner[h := v]]
  }

  /** What storing changes, entry by entry: nothing under another API, and under this one what is evicted and the new key. */
  lemma StoredGains<K(!new), V>(idx: Filing<K, V>, a: K, h: K, v: V, gone: set<K>)
    ensures var idx' := Stored(idx, a, h, v, gone);
      if a in idx && h in idx[a] && h !in gone then OnlyEvicts(idx, a, gone, idx') else OnlyGains(idx, a, gone, h, v, idx')
  {
  }

  /** Nothing but the evicted entries is gone. */
  ghost predicate OnlyEvicts<K(!new), V>(m: Filing<K, V>, a: K, gone: set<K>, m': Filing<K, V>) {
    && m'.Keys == m.Keys
    && (forall b | b in m && b != a :: m'[b] == m[b])
    && (a in m ==> forall k :: k in m'[a] <==> k in m[a] && k !in gone)
    && (a in m ==> forall k | k in m'[a] :: m'[a][k] == m[a][k])
  }

  lemma StoredIsSound<K(!new)>(norm: K -> K, blank: K, idx: Index<K>, a: K, h: K, n: K, gone: set<K>)
    requires Sound(norm, blank, idx) && Solid(norm, blank, h)
    ensures Sound(norm, blank, Stored(idx, a, h, n, gone))
  {
    var inner := Under(idx, a) - gone;
    assert h in inner || h in inner[h := n];
    assert HashesSolid(norm, blank, inner) && HashesSolid(norm, blank, inner[h := n]);
  }

  lemma StoredIsGood<K(!new)>(norm: K -> K, blank: K, idx: Index<K>, a: K, h: K, n: K, gone: set<K>)
    requires Good(norm, blank, idx) && Solid(norm, blank, h) && Evicted(Under(idx, a), n, gone)
    ensures Good(norm, blank, Stored(idx, a, h, n, gone))
  {
    StoredIsSound(norm, blank, idx, a, h, n, gone);
    var inner := Under(idx, a) - gone;
    assert NamesDistinct(inner) && NamesDistinct(inner[h := n]) by {
      assert a in idx ==> NamesDistinct(idx[a]);
      assert forall g | g in Under(idx, a) && Under(idx, a)[g] == n :: g in gone;
    }
  }

  lemma RevokedIsSound<K(!new)>(norm: K -> K, blank: K, idx: Index<K>, a: K, h: K)
    requires Sound(norm, blank, idx)
    ensures Sound(norm, blank, Without(idx, a, h))
  {
    if h in Under(idx, a) && idx[a].Keys != {h} {
      var k :| k in idx[a] && k != h;
      assert k in idx[a] - {h};
    }
  }

  lemma RevokedIsGood<K(!new)>(norm: K -> K, blank: K, idx: Index<K>, a: K, h: K)
    requires Good(norm, blank, idx)
    ensures Good(norm, blank, Without(idx, a, h))
  {
    RevokedIsSound(norm, blank, idx, a, h);
  }

  /** The only hash left under the name is `h`. */
  ghost predicate OnlyHash<K(!new)>(inner: Names<K>, n: K, h: K) {
    forall g | g in inner && inner[g] == n :: g == h
  }

  /** The name has at most one hash. */
  ghost predicate AtMostOne<K(!new)>(inner: Names<K>, n: K) {
    forall g, k | g in inner && k in inner && inner[g] == n && inner[k] == n :: g == k
  }

  lemma OneEvictionRetires<K(!new)>(idx: Index<K>, a: K, h: K, n: K, gone: set<K>)
    requires Evicted(Under(idx, a), n, gone) && AtMostOne(Under(idx, a), n)
    ensures OnlyHash(Under(Stored(idx, a, h, n, gone), a), n, h)
  {
    assert forall g | g in Under(idx, a) && Under(idx, a)[g] == n :: g in gone;
  }

  lemma TwinSurvives<K(!new)>(idx: Index<K>, a: K, h: K, n: K, g: K, k: K)
    requires var inner := Under(idx, a); g in inner && k in inner && inner[g] == n && inner[k] == n
    requires g != k && g != h
    ensures Evicted(Under(idx, a), n, {k}) && !OnlyHash(Under(Stored(idx, a, h, n, {k}), a), n, h)
  {
    assert g in Under(Stored(idx, a, h, n, {k}), a);
  }

  /** Regenerating a key, successfully or not, retires every other hash of its name whatever the visiting
      order, exactly when the name had at most one hash before. */
  lemma RegenerationRetiresIff<K(!new)>(idx: Index<K>, a: K, h: K, n: K)
    ensures (forall gone | Evicted(Under(idx, a), n, gone) :: OnlyHash(Under(Stored(idx, a, h, n, gone), a), n, h))
       <==> AtMostOne(Under(idx, a), n)
  {
    var inner := Under(idx, a);
    if AtMostOne(inner, n) {
      forall gone | Evicted(inner, n, gone) ensures OnlyHash(Under(Stored(idx, a, h, n, gone), a), n, h) {
        OneEvictionRetires(idx, a, h, n, gone);
      }
    } else {
      var g, k :| g in inner && k in inner && inner[g] == n && inner[k] == n && g != k;
      if g != h { TwinSurvives(idx, a, h, n, g, k); } else { TwinSurvives(idx, a, h, n, k, g); }
    }
  }

  /** A store that ends in a conflict leaves the index as it was if and only if there was no key of that name. */
  lemma ConflictIsHarmlessIff<K(!new)>(idx: Index<K>, a: K, h: K, n: K, gone: set<K>)
    requires Evicted(Under(idx, a), n, gone) && Conflicts(idx, a, h, gone)
    ensures Stored(idx, a, h, n, gone) == idx <==> n !in Under(idx, a).Values
  {
    var inner := Under(idx, a);
    if n in inner.Values {
      var g :| g in inner && inner[g] == n && gone == {g};
      assert g !in Under(Stored(idx, a, h, n, gone), a);
    } else {
      assert inner - gone == inner;
    }
  }

  /** An input: the key of the name is lost although storing fails. */
  lemma ConflictLosesAKey<K(!new)>(a: K, h: K, k: K, n: K, m: K)
    requires h != k && n != m
    ensures var idx := map[a := map[h := n, k := m]];
      && (forall gone | Evicted(Under(idx, a), n, gone) :: Conflicts(idx, a, k, gone))
      && (forall gone | Evicted(Under(idx, a), n, gone) :: Stored(idx, a, k, n, gone) == map[a := map[k := m]])
  {
    var idx := map[a := map[h := n, k := m]];
    forall gone | Evicted(Under(idx, a), n, gone)
      ensures Conflicts(idx, a, k, gone) && Stored(idx, a, k, n, gone) == map[a := map[k := m]]
    {
      assert idx[a][h] == n && n in Under(idx, a).Values;
      assert gone == {h};
      assert idx[a] - gone == map[k := m];
    }
  }

  // ------------------------------------------------------- replacing everything

  /** One key of a snapshot: missing (nil), or with its own hash and name. */
  datatype Entry<K> = Missing | Entry(hash: K, name: K)

  type Snapshot<K> = map<K, map<K, Entry<K>>>

  /** The key is there, its hash is not blank, and the map key is blank or agrees with it. */
  predicate EntryOk<K(==)>(norm: K -> K, blank: K, at: K, e: Entry<K>) {
    e.Entry? && norm(e.hash) != blank && (norm(at) == blank || norm(at) == norm(e.hash))
  }

  /** All entries are valid and no two normalised hashes of one API coincide. */
  ghost predicate SnapshotOk<K(!new)>(norm: K -> K, blank: K, snapshot: Snapshot<K>) {
    forall a | a in snapshot :: InnerOk(norm, blank, snapshot[a], snapshot[a].Keys)
  }

  /** The same for some of the keys of one API. */
  ghost predicate InnerOk<K(!new)>(norm: K -> K, blank: K, inner: map<K, Entry<K>>, keys: set<K>) {
    && (forall h | h in keys && h in inner :: EntryOk(norm, blank, h, inner[h]))
    && (forall h, k | h in keys && h in inner && k in keys && k in inner && h != k
                      && inner[h].Entry? && inner[k].Entry? :: norm(inner[h].hash) != norm(inner[k].hash))
  }

  ghost predicate IndexedFrom<K>(norm: K -> K, inner: map<K, Entry<K>>, h: K, k: K, n: K) {
    h in inner && inner[h].Entry? && k == norm(inner[h].hash) && n == inner[h].name
  }

  /** The names of some of the keys of one API, under their normalised hashes; `from` says where each comes from. */
  ghost predicate Indexed<K(!new)>(norm: K -> K, inner: map<K, Entry<K>>, keys: set<K>, r: Names<K>, from: map<K, K>) {
    && r.Keys == from.Keys
    && (forall k | k in r :: from[k] in keys && IndexedFrom(norm, inner, from[k], k, r[k]))
    && (forall h {:trigger norm(inner[h].hash)} | h in keys && h in inner && inner[h].Entry? ::
          norm(inner[h].hash) in r && from[norm(inner[h].hash)] == h)
  }

  lemma IndexOneMore<K(!new)>(norm: K -> K, blank: K, inner: map<K, Entry<K>>, keys: set<K>, r: Names<K>, from: map<K, K>, h: K)
    requires InnerOk(norm, blank, inner, keys) && Indexed(norm, inner, keys, r, from)
    requires h in inner && h !in keys && EntryOk(norm, blank, h, inner[h])
    ensures var k := norm(inner[h].hash);
      if k in r then !InnerOk(norm, blank, inner, keys + {h})
      else InnerOk(norm, blank, inner, keys + {h}) && Indexed(norm, inner, keys + {h}, r[k := inner[h].name], from[k := h])
  {
    var k := norm(inner[h].hash);
    if k in r {
      assert IndexedFrom(norm, inner, from[k], k, r[k]);
    } else {
      forall g | g in keys && g in inner && inner[g].Entry? ensures norm(inner[g].hash) != k {
        assert norm(inner[g].hash) in r;
      }
    }
  }

  /** The whole index is built from the snapshot: APIs without keys are dropped. */
  ghost predicate Replaced<K(!new)>(norm: K -> K, snapshot: Snapshot<K>, apis: set<K>, r: Index<K>, from: map<K, map<K, K>>) {
    && r.Keys == from.Keys
    && (forall a :: a in r <==> a in apis && a in snapshot && snapshot[a] != map[])
    && (forall a | a in r :: Indexed(norm, snapshot[a], snapshot[a].Keys, r[a], from[a]))
  }

  lemma ReplaceOneMore<K(!new)>(norm: K -> K, snapshot: Snapshot<K>, apis: set<K>, r: Index<K>, from: map<K, map<K, K>>,
                                a: K, names: Names<K>, f: map<K, K>)
    requires Replaced(norm, snapshot, apis, r, from) && a in snapshot && snapshot[a] != map[]
    requires Indexed(norm, snapshot[a], snapshot[a].Keys, names, f)
    ensures Replaced(norm, snapshot, apis + {a}, r[a := names], from[a := f])
  {
  }

  lemma IndexedIsWithin<K(!new)>(norm: K -> K, inner: map<K, Entry<K>>, r1: Names<K>, f1: map<K, K>,
                                 r2: Names<K>, f2: map<K, K>, k: K)
    requires Indexed(norm, inner, inner.Keys, r1, f1) && Indexed(norm, inner, inner.Keys, r2, f2) && k in r1
    ensures k in r2 && r1[k] == r2[k] && f1[k] == f2[k]
  {
    assert IndexedFrom(norm, inner, f1[k], k, r1[k]);
    assert norm(inner[f1[k]].hash) in r2;
    assert IndexedFrom(norm, inner, f2[k], k, r2[k]);
  }

  lemma IndexedIsUnique<K(!new)>(norm: K -> K, inner: map<K, Entry<K>>, r1: Names<K>, f1: map<K, K>, r2: Names<K>, f2: map<K, K>)
    requires Indexed(norm, inner, inner.Keys, r1, f1) && Indexed(norm, inner, inner.Keys, r2, f2)
    ensures r1 == r2 && f1 == f2
  {
    forall k | k in r1 ensures k in r2 && r1[k] == r2[k] && f1[k] == f2[k] {
      IndexedIsWithin(norm, inner, r1, f1, r2, f2, k);
    }
    forall k | k in r2 ensures k in r1 { IndexedIsWithin(norm, inner, r2, f2, r1, f1, k); }
  }

  lemma ReplacedAgreesAt<K(!new)>(norm: K -> K, snapshot: Snapshot<K>, r1: Index<K>, f1: map<K, map<K, K>>,
                                  r2: Index<K>, f2: map<K, map<K, K>>, a: K)
    requires Replaced(norm, snapshot, snapshot.Keys, r1, f1) && Replaced(norm, snapshot, snapshot.Keys, r2, f2)
    ensures a in r1 <==> a in r2
    ensures a in r1 ==> r1[a] == r2[a] && f1[a] == f2[a]
  {
    if a in r1 { IndexedIsUnique(norm, snapshot[a], r1[a], f1[a], r2[a], f2[a]); }
  }

  /** Whatever the order in which the maps are visited, the result is the same, and so is the key each entry is copied from. */
  lemma ReplacedIsUnique<K(!new)>(norm: K -> K, snapshot: Snapshot<K>, r1: Index<K>, f1: map<K, map<K, K>>,
                                  r2: Index<K>, f2: map<K, map<K, K>>)
    requires Replaced(norm, snapshot, snapshot.Keys, r1, f1) && Replaced(norm, snapshot, snapshot.Keys, r2, f2)
    ensures r1 == r2 && f1 == f2
  {
    forall a ensures (a in r1 <==> a in r2) && (a in r1 ==> r1[a] == r2[a] && f1[a] == f2[a]) {
      ReplacedAgreesAt(norm, snapshot, r1, f1, r2, f2, a);
    }
    SameMaps(r1, r2);
    SameMaps(f1, f2);
  }

  /** No two keys of one API in the snapshot have the same name. */
  ghost predicate SnapshotNamesDistinct<K(!new)>(snapshot: Snapshot<K>) {
    forall a | a in snapshot :: EntryNamesDistinct(snapshot[a])
  }

  ghost predicate EntryNamesDistinct<K(!new)>(inner: map<K, Entry<K>>) {
    forall h, k | h in inner && k in inner && h != k && inner[h].Entry? && inner[k].Entry? :: inner[h].name != inner[k].name
  }

  lemma IndexedNamesIff<K(!new)>(norm: K -> K, blank: K, inner: map<K, Entry<K>>, r: Names<K>, from: map<K, K>)
    requires InnerOk(norm, blank, inner, inner.Keys) && Indexed(norm, inner, inner.Keys, r, from)
    ensures NamesDistinct(r) <==> EntryNamesDistinct(inner)
  {
    if NamesDistinct(r) {
      forall h, k | h in inner && k in inner && h != k && inner[h].Entry? && inner[k].Entry?
        ensures inner[h].name != inner[k].name
      {
        var x, y := norm(inner[h].hash), norm(inner[k].hash);
        assert IndexedFrom(norm, inner, from[x], x, r[x]) && IndexedFrom(norm, inner, from[y], y, r[y]);
      }
    }
    if EntryNamesDistinct(inner) {
      forall x, y | x in r && y in r && r[x] == r[y] ensures x == y {
        assert IndexedFrom(norm, inner, from[x], x, r[x]) && IndexedFrom(norm, inner, from[y], y, r[y]);
      }
    }
  }

  lemma IndexedIsSolid<K(!new)>(norm: K -> K, blank: K, inner: map<K, Entry<K>>, r: Names<K>, from: map<K, K>)
    requires Idempotent(norm) && InnerOk(norm, blank, inner, inner.Keys) && Indexed(norm, inner, inner.Keys, r, from)
    ensures HashesSolid(norm, blank, r) && (inner != map[] ==> r != map[])
  {
    forall k | k in r ensures Solid(norm, blank, k) {
      assert IndexedFrom(norm, inner, from[k], k, r[k]);
      assert norm(norm(inner[from[k]].hash)) == k && EntryOk(norm, blank, from[k], inner[from[k]]);
    }
    if inner != map[] {
      var h :| h in inner;
      assert EntryOk(norm, blank, h, inner[h]);
      assert norm(inner[h].hash) in r;
    }
  }

  lemma ReplacedIsSound<K(!new)>(norm: K -> K, blank: K, snapshot: Snapshot<K>, r: Index<K>, from: map<K, map<K, K>>)
    requires Idempotent(norm) && SnapshotOk(norm, blank, snapshot) && Replaced(norm, snapshot, snapshot.Keys, r, from)
    ensures Sound(norm, blank, r)
  {
    forall a | a in r ensures r[a] != map[] && HashesSolid(norm, blank, r[a]) {
      IndexedIsSolid(norm, blank, snapshot[a], r[a], from[a]);
    }
  }

  /** Replacing everything keeps one key per name exactly when the snapshot has one key per name: the code does not check it. */
  lemma ReplacedIsGoodIff<K(!new)>(norm: K -> K, blank: K, snapshot: Snapshot<K>, r: Index<K>, from: map<K, map<K, K>>)
    requires Idempotent(norm) && SnapshotOk(norm, blank, snapshot) && Replaced(norm, snapshot, snapshot.Keys, r, from)
    ensures Good(norm, blank, r) <==> SnapshotNamesDistinct(snapshot)
  {
    forall a | a in r
      ensures r[a] != map[] && HashesSolid(norm, blank, r[a]) && (NamesDistinct(r[a]) <==> EntryNamesDistinct(snapshot[a]))
    {
      IndexedIsSolid(norm, blank, snapshot[a], r[a], from[a]);
      IndexedNamesIff(norm, blank, snapshot[a], r[a], from[a]);
    }
    forall a | a in snapshot && a !in r ensures EntryNamesDistinct(snapshot[a]) {
      assert snapshot[a] == map[];
    }
  }

  /** An input: a valid snapshot with two keys of one name leaves both, and regenerating the key afterwards leaves one of the
      old hashes in the index. */
  lemma TwoKeysOfOneName<K(!new)>(norm: K -> K, blank: K, a: K, h: K, k: K, n: K, fresh': K)
    requires h != k && fresh' != h && fresh' != k && Solid(norm, blank, h) && Solid(norm, blank, k)
    ensures var snapshot := map[a := map[h := Entry(h, n), k := Entry(k, n)]];
      var r := map[a := map[h := n, k := n]];
      && SnapshotOk(norm, blank, snapshot) && !SnapshotNamesDistinct(snapshot)
      && Replaced(norm, snapshot, snapshot.Keys, r, map[a := map[h := h, k := k]])
      && Evicted(Under(r, a), n, {h}) && !Conflicts(r, a, fresh', {h})
      && k in Under(Stored(r, a, fresh', n, {h}), a)
  {
    var snapshot: Snapshot<K> := map[a := map[h := Entry(h, n), k := Entry(k, n)]];
    var r: Index<K> := map[a := map[h := n, k := n]];
    assert h in snapshot[a] && k in snapshot[a] && snapshot[a][h].name == snapshot[a][k].name;
    assert !EntryNamesDistinct(snapshot[a]);
    assert r[a][h] == n && n in Under(r, a).Values;
  }

  // --------------------------------------------------------------------- runs

  datatype Op<K> =
    | Store(api: K, hash: K, name: K)
    | Revoke(api: K, hash: K)
    | RemoveApi(api: K)
    | Clear
    | Replace(snapshot: Snapshot<K>)

  ghost predicate Next<K(!new)>(norm: K -> K, blank: K, idx: Index<K>, op: Op<K>, idx': Index<K>) {
    match op
    case Store(a, h, n) =>
      if Blank(norm, blank, h) then idx' == idx
      else exists gone :: Evicted(Under(idx, a), n, gone) && idx' == Stored(idx, a, norm(h), n, gone)
    case Revoke(a, h) => idx' == Without(idx, a, h)
    case RemoveApi(a) => idx' == idx - {a}
    case Clear => idx' == map[]
    case Replace(snapshot) =>
      if SnapshotOk(norm, blank, snapshot) then exists from :: Replaced(norm, snapshot, snapshot.Keys, idx', from)
      else idx' == idx
  }

  lemma ReplaceIsNext<K(!new)>(norm: K -> K, blank: K, idx: Index<K>, snapshot: Snapshot<K>, ok: bool, idx': Index<K>,
                               from: map<K, map<K, K>>)
    requires ok <==> SnapshotOk(norm, blank, snapshot)
    requires if ok then Replaced(norm, snapshot, snapshot.Keys, idx', from) else idx' == idx
    ensures Next(norm, blank, idx, Replace(snapshot), idx')
  {
  }

  lemma NextIsGood<K(!new)>(norm: K -> K, blank: K, idx: Index<K>, op: Op<K>, idx': Index<K>)
    requires Idempotent(norm) && Good(norm, blank, idx) && Next(norm, blank, idx, op, idx')
    requires op.Replace? ==> SnapshotNamesDistinct(op.snapshot)
    ensures Good(norm, blank, idx')
  {
    match op {
      case Store(a, h, n) =>
        if !Blank(norm, blank, h) {
          assert norm(norm(h)) == norm(h);
          var gone :| Evicted(Under(idx, a), n, gone) && idx' == Stored(idx, a, norm(h), n, gone);
          StoredIsGood(norm, blank, idx, a, norm(h), n, gone);
        }
      case Revoke(a, h) => RevokedIsGood(norm, blank, idx, a, h);
      case Replace(snapshot) =>
        if SnapshotOk(norm, blank, snapshot) {
          var from :| Replaced(norm, snapshot, snapshot.Keys, idx', from);
          ReplacedIsGoodIff(norm, blank, snapshot, idx', from);
        }
      case _ =>
    }
  }

  /** Over every run whose snapshots have distinct names, the index stays good: one key per name, no empty API. */
  lemma {:induction false} RunStaysGood<K(!new)>(norm: K -> K, blank: K, trace: seq<Index<K>>, ops: seq<Op<K>>)
    requires Idempotent(norm) && |trace| == |ops| + 1 && Good(norm, blank, trace[0])
    requires forall i | 0 <= i < |ops| :: Next(norm, blank, trace[i], ops[i], trace[i + 1])
    requires forall i | 0 <= i < |ops| && ops[i].Replace? :: SnapshotNamesDistinct(ops[i].snapshot)
    ensures Good(norm, blank, trace[|ops|])
    decreases |ops|
  {
    if ops != [] {
      var n := |ops| - 1;
      RunStaysGood(norm, blank, trace[..n + 1], ops[..n]);
      NextIsGood(norm, blank, trace[n], ops[n], trace[n + 1]);
    }
  }

  /** The operation brings the hash into the API. */
  ghost predicate Brings<K(!new)>(norm: K -> K, op: Op<K>, a: K, h: K) {
    match op
    case Store(api, hash, _) => api == a && norm(hash) == h
    case Replace(snapshot) =>
      a in snapshot && exists k :: k in snapshot[a] && snapshot[a][k].Entry? && norm(snapshot[a][k].hash) == h
    case _ => false
  }

  lemma ReplacedBrings<K(!new)>(norm: K -> K, snapshot: Snapshot<K>, r: Index<K>, from: map<K, map<K, K>>, a: K, h: K)
    requires Replaced(norm, snapshot, snapshot.Keys, r, from)
    ensures h in Under(r, a) ==> Brings(norm, Replace(snapshot), a, h)
  {
    if h in Under(r, a) {
      assert IndexedFrom(norm, snapshot[a], from[a][h], h, r[a][h]);
    }
  }

  lemma NextKeepsAbsent<K(!new)>(norm: K -> K, blank: K, idx: Index<K>, op: Op<K>, idx': Index<K>, a: K, h: K)
    requires Next(norm, blank, idx, op, idx') && h !in Under(idx, a) && !Brings(norm, op, a, h)
    ensures h !in Under(idx', a)
  {
    if op.Replace? && SnapshotOk(norm, blank, op.snapshot) {
      var from :| Replaced(norm, op.snapshot, op.snapshot.Keys, idx', from);
      ReplacedBrings(norm, op.snapshot, idx', from, a, h);
    }
  }

  lemma {:induction false} StaysAbsent<K(!new)>(norm: K -> K, blank: K, trace: seq<Index<K>>, ops: seq<Op<K>>, a: K, h: K)
    requires |trace| == |ops| + 1 && h !in Under(trace[0], a)
    requires forall i | 0 <= i < |ops| :: Next(norm, blank, trace[i], ops[i], trace[i + 1]) && !Brings(norm, ops[i], a, h)
    ensures h !in Under(trace[|ops|], a)
    decreases |ops|
  {
    if ops != [] {
      var n := |ops| - 1;
      StaysAbsent(norm, blank, trace[..n + 1], ops[..n], a, h);
      NextKeepsAbsent(norm, blank, trace[n], ops[n], trace[n + 1], a, h);
    }
  }

  /** After a key has been regenerated under the same name with another hash, its old hash is in the index
      of no later state, until an operation brings that very hash back. */
  lemma RetiredHashNeverResolves<K(!new)>(norm: K -> K, blank: K, trace: seq<Index<K>>, ops: seq<Op<K>>, a: K, retired: K)
    requires |ops| > 0 && |trace| == |ops| + 1 && Good(norm, blank, trace[0])
    requires forall i | 0 <= i < |ops| :: Next(norm, blank, trace[i], ops[i], trace[i + 1])
    requires ops[0].Store? && ops[0].api == a && !Blank(norm, blank, ops[0].hash) && norm(ops[0].hash) != retired
    requires retired in Under(trace[0], a) && trace[0][a][retired] == ops[0].name
    requires forall i | 1 <= i < |ops| :: !Brings(norm, ops[i], a, retired)
    ensures retired !in Under(trace[|ops|], a)
  {
    var idx, h, n := trace[0], norm(ops[0].hash), ops[0].name;
    assert Next(norm, blank, idx, ops[0], trace[1]);
    var gone :| Evicted(Under(idx, a), n, gone) && trace[1] == Stored(idx, a, h, n, gone);
    assert trace[1..][|ops| - 1] == trace[|ops|];
    StaysAbsent(norm, blank, trace[1..], ops[1..], a, retired);
  }
}
