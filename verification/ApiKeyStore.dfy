// The API-key store on the heap: key objects with optional parts, kept by the
// pointer the caller passes in, copied out on every look-up and copied in when
// everything is replaced. Hashes pass through `norm`, which the constructor sets
// to `strings.TrimSpace`; the digest of a plain key is an arbitrary function.
module ApiKeys {
  import opened GoStrings
  import opened TrimmedMaps
  import opened Options
  import Ix = ApiKeyIndex

  datatype Status = Active | Expired | Revoked | OtherStatus(text: string)

  datatype KeyError = Ok | NilKey | EmptyKey | NoHash | InvalidInput | NotFound | Conflict

  /** The fields no operation looks at. */
  datatype Details = Details(displayName: string, applicationId: string, applicationName: string, operations: string,
                             createdAt: int, createdBy: string, updatedAt: int, source: string, allowedTargets: string)

  /** A key as a value, with everything it points to. */
  datatype KeyValue = KeyValue(id: string, name: string, hash: string, apiId: string, status: Status, details: Details,
                               expiresAt: Option<int>, issuer: Option<string>)

  class Cell<T> {
    var content: T

    constructor (content: T)
      ensures this.content == content
    {
      this.content := content;
    }
  }

  ghost function Value<T>(cell: Cell?<T>): Option<T>
    reads cell
  {
    if cell == null then None else Some(cell.content)
  }

  class ApiKey {
    var id: string
    var name: string
    var hash: string
    var apiId: string
    var status: Status
    var details: Details
    var expiresAt: Cell?<int>
    var issuer: Cell?<string>

    /** The objects the key consists of. */
    ghost function Parts(): set<object>
      reads this
    {
      {this} + (if expiresAt == null then {} else {expiresAt}) + (if issuer == null then {} else {issuer})
    }

    ghost function View(): KeyValue
      reads this, expiresAt, issuer
    {
      KeyValue(id, name, hash, apiId, status, details, Value(expiresAt), Value(issuer))
    }

    /** A shallow copy: the same fields, the same parts. */
    constructor (from: ApiKey)
      ensures id == from.id && name == from.name && hash == from.hash && apiId == from.apiId
      ensures status == from.status && details == from.details && expiresAt == from.expiresAt && issuer == from.issuer
    {
      id, name, hash, apiId := from.id, from.name, from.hash, from.apiId;
      status, details, expiresAt, issuer := from.status, from.details, from.expiresAt, from.issuer;
    }
  }

  /** A deep copy: equal as a value, sharing nothing. */
  method CloneKey(key: ApiKey) returns (clone: ApiKey)
    ensures fresh(clone.Parts()) && clone.View() == key.View()
  {
    clone := new ApiKey(key);
    if key.expiresAt != null {
      clone.expiresAt := new Cell(key.expiresAt.content);
    }
    if key.issuer != null {
      clone.issuer := new Cell(key.issuer.content);
    }
  }

  type Keys = map<string, ApiKey>
  type KeysByApi = map<string, map<string, ApiKey>>
  type KeySnapshot = map<string, map<string, ApiKey?>>

  ghost function NamesOf(keys: Keys): Ix.Names<string>
    reads keys.Values
  {
    map h | h in keys :: keys[h].name
  }

  ghost function IndexOf(m: KeysByApi): Ix.Index<string>
    reads set a, h | a in m && h in m[a] :: m[a][h]
  {
    map a | a in m :: NamesOf(m[a])
  }

  type Values = map<string, KeyValue>
  type ValuesByApi = map<string, map<string, KeyValue>>

  /** The keys have these values, and they consist of objects in `made`. */
  ghost predicate StandFor(keys: Keys, vals: Values, made: set<object>)
    reads *
  {
    && keys.Keys == vals.Keys
    && forall k | k in keys :: keys[k].Parts() <= made && keys[k].View() == vals[k]
  }

  ghost predicate AllStandFor(m: KeysByApi, vals: ValuesByApi, made: set<object>)
    reads *
  {
    && m.Keys == vals.Keys
    && forall a | a in m :: StandFor(m[a], vals[a], made)
  }

  /** Keys, their values, and the objects they consist of. */
  datatype Held<T, V> = Held(keys: T, vals: V, parts: set<object>)

  twostate lemma SameOne(c: Held<Keys, Values>)
    requires old(StandFor(c.keys, c.vals, c.parts)) && forall o | o in c.parts :: unchanged(o)
    ensures StandFor(c.keys, c.vals, c.parts)
  {
    var keys := c.keys;
    forall k | k in keys ensures keys[k].Parts() <= c.parts && keys[k].View() == c.vals[k] {
      assert keys[k] in keys[k].Parts();
    }
  }

  /** Whatever happens to other objects, the keys keep their values. */
  twostate lemma Isolated(c: Held<KeysByApi, ValuesByApi>)
    requires old(AllStandFor(c.keys, c.vals, c.parts)) && forall o | o in c.parts :: unchanged(o)
    ensures AllStandFor(c.keys, c.vals, c.parts)
  {
    forall a | a in c.keys ensures StandFor(c.keys[a], c.vals[a], c.parts) {
      SameOne(Held(c.keys[a], c.vals[a], c.parts));
    }
  }

  lemma OneMoreKey(keys: Keys, vals: Values, made: set<object>, k: string, key: ApiKey)
    requires StandFor(keys, vals, made)
    ensures StandFor(keys[k := key], vals[k := key.View()], made + key.Parts())
  {
  }

  lemma LargerSet(keys: Keys, vals: Values, made: set<object>, more: set<object>)
    requires StandFor(keys, vals, made) && made <= more
    ensures StandFor(keys, vals, more)
  {
  }

  lemma OneMoreApi(m: KeysByApi, vals: ValuesByApi, made: set<object>, a: string, keys: Keys, vs: Values, more: set<object>)
    requires AllStandFor(m, vals, made) && StandFor(keys, vs, more)
    ensures AllStandFor(m[a := keys], vals[a := vs], made + more)
  {
    LargerSet(keys, vs, more, made + more);
    forall b | b in m ensures StandFor(m[b], vals[b], made + more) { LargerSet(m[b], vals[b], made, made + more); }
  }

  /** Every key is filed under its own hash. */
  ghost predicate Filed(m: KeysByApi)
    reads set a, h | a in m && h in m[a] :: m[a][h]
  {
    forall a, h | a in m && h in m[a] :: m[a][h].hash == h
  }

  ghost function ViewOf(key: ApiKey?): Option<KeyValue>
    reads key, if key == null then {} else key.Parts()
  {
    if key == null then None else Some(key.View())
  }

  /** A snapshot of keys as values: nil or a key. */
  type Views = map<string, Option<KeyValue>>

  ghost function ViewsOf(keys: map<string, ApiKey?>): Views
    reads *
  {
    map h | h in keys :: ViewOf(keys[h])
  }

  ghost function SnapshotViews(snapshot: KeySnapshot): map<string, Views>
    reads *
  {
    map a | a in snapshot :: ViewsOf(snapshot[a])
  }

  ghost function EntryOf(view: Option<KeyValue>): Ix.Entry<string> {
    if view == None then Ix.Missing else Ix.Entry(view.value.hash, view.value.name)
  }

  ghost function Entries(views: Views): map<string, Ix.Entry<string>> {
    map h | h in views :: EntryOf(views[h])
  }

  ghost function AllEntries(views: map<string, Views>): Ix.Snapshot<string> {
    map a | a in views :: Entries(views[a])
  }

  /** Each value is that of the key `from` names, with its own trimmed hash. */
  ghost predicate CopiesOf(views: Views, from: map<string, string>, vals: map<string, KeyValue>) {
    && vals.Keys == from.Keys
    && forall k | k in vals :: CopyOf(views, from[k], k, vals[k])
  }

  ghost predicate CopyOf(views: Views, h: string, k: string, v: KeyValue) {
    h in views && views[h].Some? && v == views[h].value.(hash := k)
  }

  ghost predicate AllCopiesOf(views: map<string, Views>, from: map<string, map<string, string>>,
                              vals: map<string, map<string, KeyValue>>) {
    && vals.Keys == from.Keys
    && forall a | a in vals :: a in views && CopiesOf(views[a], from[a], vals[a])
  }

  /** Every entry of the snapshot is a key whose trimmed hash is not empty and agrees with the trimmed map key, unless that
      is empty, and no two keys of one API have the same trimmed hash. */
  ghost predicate InOrder(norm: string -> string, views: map<string, Views>) {
    && (forall a, h | a in views && h in views[a] ::
          views[a][h].Some? && norm(views[a][h].value.hash) != ""
          && (norm(h) == "" || norm(h) == norm(views[a][h].value.hash)))
    && (forall a, h, k | a in views && h in views[a] && k in views[a] && h != k && views[a][h].Some? && views[a][k].Some? ::
          norm(views[a][h].value.hash) != norm(views[a][k].value.hash))
  }

  /** What an error of one API's keys says about them. */
  ghost predicate ReasonFor(norm: string -> string, views: Views, err: KeyError) {
    match err
    case NilKey => exists h :: h in views && views[h].None?
    case InvalidInput =>
      exists h ::
        && h in views && views[h].Some?
        && (norm(views[h].value.hash) == "" || (norm(h) != "" && norm(h) != norm(views[h].value.hash)))
    case Conflict =>
      exists h, k ::
        && h in views && k in views && h != k && views[h].Some? && views[k].Some?
        && norm(views[h].value.hash) == norm(views[k].value.hash)
    case _ => false
  }

  /** Some API has keys with which the error goes. */
  ghost predicate Reason(norm: string -> string, views: map<string, Views>, err: KeyError) {
    exists a :: a in views && ReasonFor(norm, views[a], err)
  }

  lemma InnerInOrder(norm: string -> string, views: Views)
    ensures Ix.InnerOk(norm, "", Entries(views), views.Keys) <==>
      && (forall h | h in views ::
            views[h].Some? && norm(views[h].value.hash) != "" && (norm(h) == "" || norm(h) == norm(views[h].value.hash)))
      && (forall h, k | h in views && k in views && h != k && views[h].Some? && views[k].Some? ::
            norm(views[h].value.hash) != norm(views[k].value.hash))
  {
    var entries := Entries(views);
    assert forall h | h in views :: entries[h] == EntryOf(views[h]);
    assert forall h | h in views :: Ix.EntryOk(norm, "", h, entries[h]) <==>
      views[h].Some? && norm(views[h].value.hash) != "" && (norm(h) == "" || norm(h) == norm(views[h].value.hash));
  }

  lemma InOrderIff(norm: string -> string, views: map<string, Views>)
    ensures Ix.SnapshotOk(norm, "", AllEntries(views)) <==> InOrder(norm, views)
  {
    SnapshotOkIff(norm, views);
    forall a | a in views ensures Ix.InnerOk(norm, "", Entries(views[a]), views[a].Keys) <==>
      && (forall h | h in views[a] ::
            views[a][h].Some? && norm(views[a][h].value.hash) != ""
            && (norm(h) == "" || norm(h) == norm(views[a][h].value.hash)))
      && (forall h, k | h in views[a] && k in views[a] && h != k && views[a][h].Some? && views[a][k].Some? ::
            norm(views[a][h].value.hash) != norm(views[a][k].value.hash))
    {
      InnerInOrder(norm, views[a]);
    }
  }

  lemma NamesOfMinus(keys: Keys, gone: set<string>)
    ensures NamesOf(keys - gone) == NamesOf(keys) - gone
  {
  }

  lemma NamesOfPut(keys: Keys, h: string, key: ApiKey)
    ensures NamesOf(keys[h := key]) == NamesOf(keys)[h := key.name]
  {
  }

  lemma IndexOfPut(m: KeysByApi, a: string, keys: Keys)
    ensures IndexOf(m[a := keys]) == IndexOf(m)[a := NamesOf(keys)]
  {
  }

  lemma IndexOfUnder(m: KeysByApi, a: string)
    ensures Under(IndexOf(m), a) == NamesOf(Under(m, a))
  {
  }

  lemma IndexOfStored(m: KeysByApi, a: string, key: ApiKey, gone: set<string>)
    ensures IndexOf(Ix.Stored(m, a, key.hash, key, gone)) == Ix.Stored(IndexOf(m), a, key.hash, key.name, gone)
    ensures Ix.Conflicts(m, a, key.hash, gone) <==> Ix.Conflicts(IndexOf(m), a, key.hash, gone)
  {
    var inner := Under(m, a) - gone;
    IndexOfUnder(m, a);
    NamesOfMinus(Under(m, a), gone);
    NamesOfPut(inner, key.hash, key);
    IndexOfPut(m, a, inner);
    IndexOfPut(m, a, inner[key.hash := key]);
  }

  lemma IndexOfRevoked(m: KeysByApi, a: string, h: string)
    ensures IndexOf(Without(m, a, h)) == Without(IndexOf(m), a, h)
  {
    if h in Under(m, a) {
      NamesOfMinus(m[a], {h});
      IndexOfPut(m, a, m[a] - {h});
    }
  }

  lemma FiledStored(m: KeysByApi, a: string, key: ApiKey, gone: set<string>)
    requires Filed(m)
    ensures Filed(Ix.Stored(m, a, key.hash, key, gone))
  {
  }

  /** The index depends on the names and hashes of the stored keys only. */
  twostate lemma SameIndex(m: KeysByApi)
    requires forall a, h | a in m && h in m[a] :: m[a][h].name == old(m[a][h].name) && m[a][h].hash == old(m[a][h].hash)
    ensures IndexOf(m) == old(IndexOf(m)) && Filed(m) == old(Filed(m))
  {
    forall a | a in m ensures NamesOf(m[a]) == old(NamesOf(m[a])) {
    }
  }

  /** All the invariant needs to know about storing. */
  lemma StoredKeepsValid(norm: string -> string, was: KeysByApi, a: string, key: ApiKey, gone: set<string>, m: KeysByApi)
    requires Filed(was) && Ix.Sound(norm, "", IndexOf(was)) && Solid(norm, "", key.hash)
    requires m == Ix.Stored(was, a, key.hash, key, gone)
    ensures Filed(m) && Ix.Sound(norm, "", IndexOf(m))
    ensures IndexOf(m) == Ix.Stored(IndexOf(was), a, key.hash, key.name, gone)
    ensures Ix.Conflicts(was, a, key.hash, gone) <==> Ix.Conflicts(IndexOf(was), a, key.hash, gone)
  {
    IndexOfStored(was, a, key, gone);
    FiledStored(was, a, key, gone);
    Ix.StoredIsSound(norm, "", IndexOf(was), a, key.hash, key.name, gone);
  }

  lemma RevokedKeepsValid(norm: string -> string, was: KeysByApi, a: string, h: string, m: KeysByApi)
    requires Filed(was) && Ix.Sound(norm, "", IndexOf(was)) && m == Without(was, a, h)
    ensures Filed(m) && Ix.Sound(norm, "", IndexOf(m)) && IndexOf(m) == Without(IndexOf(was), a, h)
  {
    IndexOfRevoked(was, a, h);
    Ix.RevokedIsSound(norm, "", IndexOf(was), a, h);
  }

  lemma NoEmptyApi(norm: string -> string, m: KeysByApi, a: string)
    requires Ix.Sound(norm, "", IndexOf(m)) && a in m
    ensures m[a] != map[]
  {
    assert IndexOf(m)[a] == NamesOf(m[a]);
  }

  /** Takes the entry of the same name out, if there is one, then puts the new one in unless its hash is taken. */
  method PutUnder<K(==), V>(m: Filing<K, V>, a: K, h: K, v: V, gone: set<K>) returns (ok: bool, m': Filing<K, V>)
    requires gone <= Under(m, a).Keys
    ensures ok == !Ix.Conflicts(m, a, h, gone) && m' == Ix.Stored(m, a, h, v, gone)
  {
    m' := m;
    if gone != {} {
      m' := m'[a := m'[a] - gone];
    }
    assert Under(m', a) == Under(m, a) - gone;
    if a in m' && h in m'[a] {
      assert m' == Ix.Stored(m, a, h, v, gone);
      return false, m';
    }
    if a !in m' {
      m' := m'[a := map[]];
    }
    m' := m'[a := m'[a][h := v]];
    assert m' == Ix.Stored(m, a, h, v, gone);
    ok := true;
  }

  class ApiKeyStore {
    const norm: string -> string
    const digest: string -> string
    var apiKeysByAPI: KeysByApi

    ghost function Footprint(): set<ApiKey>
      reads this
    {
      set a, h | a in apiKeysByAPI && h in apiKeysByAPI[a] :: apiKeysByAPI[a][h]
    }

    ghost function Index(): Ix.Index<string>
      reads this, Footprint()
    {
      IndexOf(apiKeysByAPI)
    }

    ghost predicate Valid()
      reads this, Footprint()
    {
      Idempotent(norm) && Filed(apiKeysByAPI) && Ix.Sound(norm, "", Index())
    }

    constructor (digest: string -> string)
      ensures norm == TrimSpace && this.digest == digest && Valid() && apiKeysByAPI == map[]
    {
      TrimSpaceNormalises();
      norm := TrimSpace;
      this.digest := digest;
      apiKeysByAPI := map[];
    }

    method SetKeys(m: KeysByApi)
      requires Idempotent(norm) && Filed(m) && Ix.Sound(norm, "", IndexOf(m))
      modifies this
      ensures Valid() && apiKeysByAPI == m && Index() == old(IndexOf(m))
    {
      apiKeysByAPI := m;
      SameIndex(m);
    }

    /** The hash under which a plain key is looked up; empty for a blank key. */
    function ComputeHash(plain: string): string {
      var trimmed := norm(plain);
      if trimmed == "" then "" else digest(trimmed)
    }

    /** The keys a revocation of this plain key changes. */
    ghost function Matched(a: string, plain: string): set<ApiKey>
      reads this
    {
      var hash := ComputeHash(plain);
      if hash != "" && a in apiKeysByAPI && hash in apiKeysByAPI[a] then {apiKeysByAPI[a][hash]} else {}
    }

    /** Visits the keys of one API in any order, up to the first with the name. */
    method FindName(a: string, name: string) returns (found: set<string>)
      ensures Ix.Evicted(Under(Index(), a), name, found) && found <= Under(apiKeysByAPI, a).Keys
    {
      found := {};
      IndexOfUnder(apiKeysByAPI, a);
      var keys := Under(apiKeysByAPI, a);
      var left := keys.Keys;
      while left != {}
        invariant left <= keys.Keys && found == {}
        invariant forall h | h in keys && h !in left :: keys[h].name != name
        decreases left
      {
        var h :| h in left;
        left := left - {h};
        if keys[h].name == name {
          assert NamesOf(keys)[h] == name;
          return {h};
        }
      }
      assert name !in NamesOf(keys).Values;
    }

    /** Trims the hash of the caller's object; on a stored key this changes nothing. */
    method TrimHash(key: ApiKey)
      requires Valid()
      modifies key
      ensures Valid() && Index() == old(Index())
      ensures key.View() == old(key.View()).(hash := norm(old(key.hash))) && norm(key.hash) == key.hash
    {
      assert norm(norm(key.hash)) == norm(key.hash);
      StoredHashIsTrimmed(key);
      key.hash := norm(key.hash);
      SameIndex(apiKeysByAPI);
    }

    lemma StoredHashIsTrimmed(key: ApiKey)
      requires Valid()
      ensures key in Footprint() ==> Solid(norm, "", key.hash)
    {
      if key in Footprint() {
        var a, h :| a in apiKeysByAPI && h in apiKeysByAPI[a] && key == apiKeysByAPI[a][h];
        assert h in Index()[a];
      }
    }

    /** The part of storing that runs under the lock. */
    method FileKey(a: string, key: ApiKey) returns (err: KeyError, ghost gone: set<string>)
      requires Valid() && Solid(norm, "", key.hash)
      modifies this
      ensures Valid()
      ensures err == if a in old(apiKeysByAPI) && key.hash in old(apiKeysByAPI)[a] && key.hash !in gone then Conflict else Ok
      ensures if err == Ok then OnlyGains(old(apiKeysByAPI), a, gone, key.hash, key, apiKeysByAPI)
              else Ix.OnlyEvicts(old(apiKeysByAPI), a, gone, apiKeysByAPI)
      ensures Ix.Evicted(Under(old(Index()), a), key.name, gone)
      ensures Index() == Ix.Stored(old(Index()), a, key.hash, key.name, gone)
    {
      var evict := FindName(a, key.name);
      gone := evict;
      var stored, m := PutUnder(apiKeysByAPI, a, key.hash, key, evict);
      StoredKeepsValid(norm, apiKeysByAPI, a, key, evict, m);
      Ix.StoredGains(apiKeysByAPI, a, key.hash, key, evict);
      SetKeys(m);
      err := if stored then Ok else Conflict;
    }

    /** Keeps the caller's object itself. The object's hash is trimmed even if storing fails, and a key of the same
        name is taken out even if the hash turns out to be taken. */
    method StoreAPIKey(a: string, key: ApiKey?) returns (err: KeyError, ghost gone: set<string>)
      requires Valid()
      modifies this, key
      ensures Valid() && (key == null <==> err == NilKey)
      ensures key != null ==> key.View() == old(key.View()).(hash := norm(old(key.hash)))
      ensures key == null || key.hash == "" ==> apiKeysByAPI == old(apiKeysByAPI) && Index() == old(Index())
      ensures key != null && key.hash == "" ==> err == InvalidInput
      ensures key != null && key.hash != "" ==>
        && Ix.Evicted(Under(old(Index()), a), key.name, gone)
        && err == (if a in old(apiKeysByAPI) && key.hash in old(apiKeysByAPI)[a] && key.hash !in gone then Conflict else Ok)
        && (if err == Ok then OnlyGains(old(apiKeysByAPI), a, gone, key.hash, key, apiKeysByAPI)
            else Ix.OnlyEvicts(old(apiKeysByAPI), a, gone, apiKeysByAPI))
        && Index() == Ix.Stored(old(Index()), a, key.hash, key.name, gone)
      ensures key != null ==> Ix.Next(norm, "", old(Index()), Ix.Store(a, old(key.hash), key.name), Index())
    {
      gone := {};
      if key == null {
        return NilKey, {};
      }
      TrimHash(key);
      if key.hash == "" {
        return InvalidInput, {};
      }
      err, gone := FileKey(a, key);
    }

    /** A private copy of the key, if the plain key is known for the API and may be used now. */
    method ResolveValidatedAPIKey(a: string, plain: string, issuer: Option<string>, now: int)
      returns (key: ApiKey?, err: KeyError)
      requires Valid()
      ensures var hash := digest(norm(plain));
        err == if norm(plain) == "" then EmptyKey else if hash == "" then NoHash
               else if a in apiKeysByAPI && hash in apiKeysByAPI[a] then Ok else NotFound
      ensures err != Ok ==> key == null
      ensures err == Ok ==>
        var stored := apiKeysByAPI[a][digest(norm(plain))].View();
        && (key != null <==>
              && stored.apiId == a && stored.status == Active
              && (issuer == None || issuer == Some("") || stored.issuer == issuer)
              && (stored.expiresAt == None || now <= stored.expiresAt.value))
        && (key != null ==> fresh(key.Parts()) && key.View() == stored)
    {
      IndexOfUnder(apiKeysByAPI, a);
      var provided := norm(plain);
      if provided == "" {
        return null, EmptyKey;
      }
      var hash := ComputeHash(provided);
      assert norm(norm(plain)) == norm(plain);
      if hash == "" {
        return null, NoHash;
      }
      if a !in apiKeysByAPI || hash !in apiKeysByAPI[a] {
        return null, NotFound;
      }
      var clone := CloneKey(apiKeysByAPI[a][hash]);
      if clone.apiId != a {
        return null, Ok;
      }
      if issuer.Some? && issuer.value != "" && (clone.issuer == null || clone.issuer.content != issuer.value) {
        return null, Ok;
      }
      if clone.status != Active {
        return null, Ok;
      }
      if clone.status == Expired || (clone.expiresAt != null && now > clone.expiresAt.content) {
        return null, Ok;
      }
      return clone, Ok;
    }

    /** A private copy of a key with the id, if the API has one. */
    method GetAPIKeyByID(a: string, keyID: string) returns (key: ApiKey?, err: KeyError)
      ensures err == if keyID != "" && (exists k :: k in Under(apiKeysByAPI, a).Values && k.id == keyID) then Ok else NotFound
      ensures err != Ok ==> key == null
      ensures err == Ok ==> key != null && fresh(key.Parts())
      ensures err == Ok ==> exists k :: k in Under(apiKeysByAPI, a).Values && k.id == keyID && key.View() == k.View()
    {
      if keyID == "" || a !in apiKeysByAPI {
        return null, NotFound;
      }
      var keys := apiKeysByAPI[a];
      var left := keys.Keys;
      while left != {}
        invariant left <= keys.Keys
        invariant forall h | h in keys && h !in left :: keys[h].id != keyID
        decreases left
      {
        var h :| h in left;
        left := left - {h};
        if keys[h].id == keyID {
          var clone := CloneKey(keys[h]);
          assert keys[h] in keys.Values;
          return clone, Ok;
        }
      }
      return null, NotFound;
    }

    /** Marks the key revoked, for everyone who holds it, and forgets it; an unknown or blank key is no error. */
    method RevokeAPIKey(a: string, plain: string)
      requires Valid()
      modifies this, Matched(a, plain)
      ensures Valid() && Ix.Next(norm, "", old(Index()), Ix.Revoke(a, ComputeHash(plain)), Index())
      ensures if norm(plain) == "" then apiKeysByAPI == old(apiKeysByAPI)
              else OnlyLoses(old(apiKeysByAPI), a, digest(norm(plain)), apiKeysByAPI)
      ensures var hash := digest(norm(plain));
        norm(plain) != "" && a in old(apiKeysByAPI) && hash in old(apiKeysByAPI)[a] ==>
          old(apiKeysByAPI)[a][hash].View() == old(apiKeysByAPI[a][hash].View()).(status := Revoked)
    {
      WithoutLoses(apiKeysByAPI, a, ComputeHash(plain));
      assert "" !in Under(Index(), a);
      IndexOfUnder(apiKeysByAPI, a);
      var provided := norm(plain);
      assert norm(norm(plain)) == norm(plain);
      if provided == "" {
        return;
      }
      var hash := ComputeHash(provided);
      if hash == "" {
        return;
      }
      if a !in apiKeysByAPI || hash !in apiKeysByAPI[a] {
        return;
      }
      var key := apiKeysByAPI[a][hash];
      assert Matched(a, plain) == {key};
      MarkAndRemove(key, a, hash);
    }

    method MarkAndRemove(key: ApiKey, a: string, hash: string)
      requires Valid()
      modifies this, key
      ensures Valid() && apiKeysByAPI == Without(old(apiKeysByAPI), a, hash) && Index() == Without(old(Index()), a, hash)
      ensures key.View() == old(key.View()).(status := Revoked)
    {
      MarkRevoked(key);
      RemoveFromAPIMapping(a, hash);
    }

    method MarkRevoked(key: ApiKey)
      requires Valid()
      modifies key
      ensures Valid() && Index() == old(Index()) && key.View() == old(key.View()).(status := Revoked)
    {
      key.status := Revoked;
      SameIndex(apiKeysByAPI);
    }

    method RemoveFromAPIMapping(a: string, hash: string)
      requires Valid()
      modifies this
      ensures Valid() && OnlyLoses(old(apiKeysByAPI), a, hash, apiKeysByAPI)
      ensures apiKeysByAPI == Without(old(apiKeysByAPI), a, hash) && Index() == Without(old(Index()), a, hash)
    {
      WithoutLoses(apiKeysByAPI, a, hash);
      if a in apiKeysByAPI { NoEmptyApi(norm, apiKeysByAPI, a); }
      var m := RemoveUnder(apiKeysByAPI, a, hash);
      RevokedKeepsValid(norm, apiKeysByAPI, a, hash, m);
      SetKeys(m);
    }

    method RemoveAPIKeysByAPI(a: string)
      requires Valid()
      modifies this
      ensures Valid() && apiKeysByAPI == old(apiKeysByAPI) - {a}
      ensures Ix.Next(norm, "", old(Index()), Ix.RemoveApi(a), Index())
    {
      var m := apiKeysByAPI - {a};
      assert IndexOf(m) == Index() - {a};
      SetKeys(m);
    }

    method ClearAll()
      requires Valid()
      modifies this
      ensures Valid() && apiKeysByAPI == map[] && Ix.Next(norm, "", old(Index()), Ix.Clear, Index())
    {
      apiKeysByAPI := map[];
    }

    /** Fails without effect unless the whole snapshot is in order; otherwise the store holds fresh copies of its keys,
        each under its own trimmed hash, and shares no object with the snapshot. */
    method ReplaceAll(snapshot: KeySnapshot)
      returns (err: KeyError, ghost from: map<string, map<string, string>>, ghost vals: ValuesByApi, ghost made: set<object>)
      requires Valid()
      modifies this
      ensures Valid() && (err == Ok <==> InOrder(norm, old(SnapshotViews(snapshot))))
      ensures err == Ok ==> CopiedInto(norm, old(SnapshotViews(snapshot)), vals)
      ensures err != Ok ==> apiKeysByAPI == old(apiKeysByAPI) && Index() == old(Index())
      ensures err != Ok ==> Reason(norm, old(SnapshotViews(snapshot)), err)
      ensures err == Ok ==> Ix.Replaced(norm, AllEntries(old(SnapshotViews(snapshot))), snapshot.Keys, Index(), from)
      ensures err == Ok ==> AllCopiesOf(old(SnapshotViews(snapshot)), from, vals)
      ensures err == Ok ==> fresh(made) && AllStandFor(apiKeysByAPI, vals, made)
      ensures Ix.Next(norm, "", old(Index()), Ix.Replace(AllEntries(old(SnapshotViews(snapshot)))), Index())
    {
      var replacement;
      ghost var c;
      ghost var views := SnapshotViews(snapshot);
      err, replacement, c := CloneSnapshot(norm, snapshot);
      from, vals, made := c.from, c.vals, c.made;
      assert AllEntries(views).Keys == snapshot.Keys;
      InOrderIff(norm, views);
      if err != Ok {
        SameIndex(apiKeysByAPI);
        Ix.ReplaceIsNext(norm, "", Index(), AllEntries(views), false, Index(), from);
        return;
      }
      Ix.ReplaceIsNext(norm, "", old(Index()), AllEntries(views), true, c.idx, from);
      ReplacementIsValid(norm, views, from, c.idx, vals, replacement, made);
      CopiesGoInto(norm, views, from, c.idx, vals);
      Install(replacement, vals, made);
    }

    /** The swap under the lock. */
    method Install(m: KeysByApi, ghost vals: ValuesByApi, ghost made: set<object>)
      requires Idempotent(norm) && Filed(m) && Ix.Sound(norm, "", IndexOf(m))
      requires AllStandFor(m, vals, made) && this !in made
      modifies this
      ensures Valid() && apiKeysByAPI == m && Index() == old(IndexOf(m)) && AllStandFor(m, vals, made)
    {
      SetKeys(m);
      Isolated(Held(m, vals, made));
    }
  }

  /** One key of the snapshot: checked, and copied with the hash trimmed. */
  method CloneEntry(norm: string -> string, at: string, key: ApiKey?) returns (err: KeyError, clone: ApiKey?)
    ensures err == Ok <==> Ix.EntryOk(norm, "", at, EntryOf(ViewOf(key)))
    ensures err == if key == null then NilKey
                   else if norm(key.hash) == "" || (norm(at) != "" && norm(at) != norm(key.hash)) then InvalidInput else Ok
    ensures err == Ok ==> key != null && clone != null && fresh(clone.Parts())
    ensures err == Ok ==> clone.View() == key.View().(hash := norm(key.hash))
  {
    if key == null {
      return NilKey, null;
    }
    var hash := norm(at);
    clone := CloneKey(key);
    clone.hash := norm(clone.hash);
    if clone.hash == "" {
      return InvalidInput, null;
    }
    if hash == "" {
      hash := clone.hash;
    }
    if hash != clone.hash {
      return InvalidInput, null;
    }
    err := Ok;
  }

  lemma CopyOneMore(views: Views, from: map<string, string>, vals: map<string, KeyValue>, h: string, k: string, v: KeyValue)
    requires CopiesOf(views, from, vals) && CopyOf(views, h, k, v)
    ensures CopiesOf(views, from[k := h], vals[k := v])
  {
  }

  /** The keys under `done` are in order and copied; `names` and `from` say how. */
  ghost predicate CopiedHere(norm: string -> string, views: Views, done: set<string>, names: Ix.Names<string>,
                             from: map<string, string>, vals: Values) {
    && Ix.InnerOk(norm, "", Entries(views), done) && Ix.Indexed(norm, Entries(views), done, names, from)
    && names.Keys == vals.Keys && CopiesOf(views, from, vals)
  }

  lemma OneMoreCopied(norm: string -> string, views: Views, done: set<string>, names: Ix.Names<string>,
                      from: map<string, string>, vals: Values, h: string, v: KeyValue)
    requires CopiedHere(norm, views, done, names, from, vals) && h in views && h !in done && views[h].Some?
    requires Ix.EntryOk(norm, "", h, EntryOf(views[h])) && v == views[h].value.(hash := norm(views[h].value.hash))
    ensures if v.hash in vals then !Ix.InnerOk(norm, "", Entries(views), views.Keys) && ReasonFor(norm, views, Conflict)
            else CopiedHere(norm, views, done + {h}, names[v.hash := v.name], from[v.hash := h], vals[v.hash := v])
  {
    assert Entries(views)[h] == EntryOf(views[h]);
    Ix.IndexOneMore(norm, "", Entries(views), done, names, from, h);
    if v.hash in vals {
      assert Ix.IndexedFrom(norm, Entries(views), from[v.hash], v.hash, names[v.hash]);
      assert from[v.hash] in views && from[v.hash] != h;
    } else {
      CopyOneMore(views, from, vals, h, v.hash, v);
    }
  }

  lemma BadEntry(norm: string -> string, views: Views, h: string)
    requires h in views && !Ix.EntryOk(norm, "", h, EntryOf(views[h]))
    ensures !Ix.InnerOk(norm, "", Entries(views), views.Keys)
    ensures ReasonFor(norm, views, if views[h].None? then NilKey else InvalidInput)
  {
    assert Entries(views)[h] == EntryOf(views[h]);
  }

  /** The inner loop of ReplaceAll: one API's keys, in any order. */
  method CloneKeys(norm: string -> string, keys: map<string, ApiKey?>)
    returns (err: KeyError, clones: Keys, ghost from: map<string, string>, ghost names: Ix.Names<string>,
             ghost vals: Values, ghost made: set<object>)
    ensures err == Ok <==> Ix.InnerOk(norm, "", Entries(old(ViewsOf(keys))), keys.Keys)
    ensures err == Ok ==> Ix.Indexed(norm, Entries(old(ViewsOf(keys))), keys.Keys, names, from)
    ensures err == Ok ==> CopiesOf(old(ViewsOf(keys)), from, vals)
    ensures err != Ok ==> ReasonFor(norm, old(ViewsOf(keys)), err)
    ensures fresh(made) && StandFor(clones, vals, made)
  {
    clones, from, names, vals, made := map[], map[], map[], map[], {};
    ghost var views := ViewsOf(keys);
    var left := keys.Keys;
    while left != {}
      invariant left <= keys.Keys
      invariant CopiedHere(norm, views, keys.Keys - left, names, from, vals)
      invariant fresh(made) && StandFor(clones, vals, made)
      decreases left
    {
      var h :| h in left;
      ghost var done := keys.Keys - left;
      left := left - {h};
      assert keys.Keys - left == done + {h} && views[h] == ViewOf(keys[h]);
      var clone;
      label before:
      err, clone := CloneEntry(norm, h, keys[h]);
      SameOne@before(Held(clones, vals, made));
      if err != Ok {
        BadEntry(norm, views, h);
        return;
      }
      OneMoreCopied(norm, views, done, names, from, vals, h, clone.View());
      if clone.hash in clones {
        return Conflict, clones, from, names, vals, made;
      }
      OneMoreKey(clones, vals, made, clone.hash, clone);
      names, from, vals := names[clone.hash := clone.name], from[clone.hash := h], vals[clone.hash := clone.View()];
      clones, made := clones[clone.hash := clone], made + clone.Parts();
    }
    err := Ok;
    assert keys.Keys - left == keys.Keys;
  }

  /** What has been copied: the index, the origin and the value of each copy, and the objects made. */
  datatype Copying = Copying(idx: Ix.Index<string>, from: map<string, map<string, string>>, vals: ValuesByApi, made: set<object>)

  /** The APIs in `done` are in order and have been copied. */
  ghost predicate CopiedSoFar(norm: string -> string, views: map<string, Views>, done: set<string>, c: Copying) {
    && (forall a | a in views && a in done :: Ix.InnerOk(norm, "", Entries(views[a]), views[a].Keys))
    && Ix.Replaced(norm, AllEntries(views), done, c.idx, c.from)
    && AllCopiesOf(views, c.from, c.vals)
  }

  lemma SkipApi(norm: string -> string, views: map<string, Views>, done: set<string>, c: Copying, a: string)
    requires CopiedSoFar(norm, views, done, c) && a in views && views[a] == map[]
    ensures CopiedSoFar(norm, views, done + {a}, c)
  {
    assert Entries(views[a]) == map[];
  }

  lemma AllCopiesGrow(views: map<string, Views>, from: map<string, map<string, string>>, vals: ValuesByApi,
                      a: string, f: map<string, string>, vs: Values)
    requires AllCopiesOf(views, from, vals) && a in views && CopiesOf(views[a], f, vs)
    ensures AllCopiesOf(views, from[a := f], vals[a := vs])
  {
  }

  lemma ReplacedGrows(norm: string -> string, views: map<string, Views>, done: set<string>, idx: Ix.Index<string>,
                      from: map<string, map<string, string>>, a: string, names: Ix.Names<string>, f: map<string, string>)
    requires Ix.Replaced(norm, AllEntries(views), done, idx, from) && a in views && views[a] != map[]
    requires Ix.Indexed(norm, Entries(views[a]), views[a].Keys, names, f)
    ensures Ix.Replaced(norm, AllEntries(views), done + {a}, idx[a := names], from[a := f])
  {
    var h :| h in views[a];
    assert h in Entries(views[a]);
    assert Entries(views[a]).Keys == views[a].Keys;
    Ix.ReplaceOneMore(norm, AllEntries(views), done, idx, from, a, names, f);
  }

  lemma AddApi(norm: string -> string, views: map<string, Views>, done: set<string>, c: Copying, a: string,
               names: Ix.Names<string>, f: map<string, string>, vs: Values, made: set<object>)
    requires CopiedSoFar(norm, views, done, c) && a in views && views[a] != map[]
    requires Ix.InnerOk(norm, "", Entries(views[a]), views[a].Keys)
    requires Ix.Indexed(norm, Entries(views[a]), views[a].Keys, names, f) && CopiesOf(views[a], f, vs)
    ensures CopiedSoFar(norm, views, done + {a}, Copying(c.idx[a := names], c.from[a := f], c.vals[a := vs], made))
  {
    ReplacedGrows(norm, views, done, c.idx, c.from, a, names, f);
    AllCopiesGrow(views, c.from, c.vals, a, f, vs);
  }

  lemma SnapshotOkIff(norm: string -> string, views: map<string, Views>)
    ensures Ix.SnapshotOk(norm, "", AllEntries(views))
       <==> forall a | a in views :: Ix.InnerOk(norm, "", Entries(views[a]), views[a].Keys)
  {
    var entries := AllEntries(views);
    forall a | a in views
      ensures Ix.InnerOk(norm, "", entries[a], entries[a].Keys) <==> Ix.InnerOk(norm, "", Entries(views[a]), views[a].Keys)
    {
      assert Entries(views[a]).Keys == views[a].Keys;
    }
  }

  /** The copies of one more API join those made before. */
  method JoinKeys(norm: string -> string, m: KeysByApi, ghost vals: ValuesByApi, ghost made: set<object>,
                  a: string, keys: map<string, ApiKey?>)
    returns (err: KeyError, r: KeysByApi, ghost f: map<string, string>, ghost names: Ix.Names<string>,
             ghost vs: Values, ghost made': set<object>)
    requires AllStandFor(m, vals, made)
    ensures err == Ok <==> Ix.InnerOk(norm, "", Entries(old(ViewsOf(keys))), keys.Keys)
    ensures err == Ok ==> Ix.Indexed(norm, Entries(old(ViewsOf(keys))), keys.Keys, names, f)
    ensures err == Ok ==> CopiesOf(old(ViewsOf(keys)), f, vs)
    ensures err != Ok ==> ReasonFor(norm, old(ViewsOf(keys)), err)
    ensures fresh(made' - made) && AllStandFor(r, vals[a := vs], made')
  {
    var clones;
    ghost var more;
    err, clones, f, names, vs, more := CloneKeys(norm, keys);
    Isolated(Held(m, vals, made));
    OneMoreApi(m, vals, made, a, clones, vs, more);
    r, made' := m[a := clones], made + more;
  }

  /** One turn of the outer loop; an API without keys is dropped. */
  method CloneApi(norm: string -> string, m: KeysByApi, a: string, keys: map<string, ApiKey?>,
                  ghost views: map<string, Views>, ghost done: set<string>, ghost c: Copying)
    returns (err: KeyError, r: KeysByApi, ghost c': Copying)
    requires AllStandFor(m, c.vals, c.made)
    requires CopiedSoFar(norm, views, done, c) && a in views && views[a] == ViewsOf(keys)
    ensures err == Ok <==> Ix.InnerOk(norm, "", Entries(views[a]), views[a].Keys)
    ensures if err == Ok then CopiedSoFar(norm, views, done + {a}, c') else ReasonFor(norm, views[a], err)
    ensures fresh(c'.made - c.made) && AllStandFor(r, c'.vals, c'.made)
  {
    if keys.Keys == {} {
      SkipApi(norm, views, done, c, a);
      return Ok, m, c;
    }
    ghost var f, names, vs, made;
    err, r, f, names, vs, made := JoinKeys(norm, m, c.vals, c.made, a, keys);
    c' := Copying(c.idx[a := names], c.from[a := f], c.vals[a := vs], made);
    if err == Ok {
      AddApi(norm, views, done, c, a, names, f, vs, made);
    }
  }

  /** The outer loop of ReplaceAll: all APIs, in any order. */
  method CloneSnapshot(norm: string -> string, snapshot: KeySnapshot) returns (err: KeyError, r: KeysByApi, ghost c: Copying)
    ensures err == Ok <==> Ix.SnapshotOk(norm, "", AllEntries(old(SnapshotViews(snapshot))))
    ensures err == Ok ==> Ix.Replaced(norm, AllEntries(old(SnapshotViews(snapshot))), snapshot.Keys, c.idx, c.from)
    ensures err == Ok ==> AllCopiesOf(old(SnapshotViews(snapshot)), c.from, c.vals)
    ensures err != Ok ==> Reason(norm, old(SnapshotViews(snapshot)), err)
    ensures fresh(c.made) && AllStandFor(r, c.vals, c.made)
  {
    r, c := map[], Copying(map[], map[], map[], {});
    ghost var views := SnapshotViews(snapshot);
    var left := snapshot.Keys;
    while left != {}
      invariant left <= snapshot.Keys
      invariant CopiedSoFar(norm, views, snapshot.Keys - left, c)
      invariant fresh(c.made) && AllStandFor(r, c.vals, c.made)
      decreases left
    {
      var a :| a in left;
      ghost var done := snapshot.Keys - left;
      left := left - {a};
      assert snapshot.Keys - left == done + {a};
      err, r, c := CloneApi(norm, r, a, snapshot[a], views, done, c);
      if err != Ok {
        NotAllOk(norm, views, a);
        return;
      }
    }
    err := Ok;
    assert snapshot.Keys - left == views.Keys;
    AllCopied(norm, views, c);
  }

  lemma NotAllOk(norm: string -> string, views: map<string, Views>, a: string)
    requires a in views && !Ix.InnerOk(norm, "", Entries(views[a]), views[a].Keys)
    ensures !Ix.SnapshotOk(norm, "", AllEntries(views))
  {
    SnapshotOkIff(norm, views);
  }

  lemma AllCopied(norm: string -> string, views: map<string, Views>, c: Copying)
    requires CopiedSoFar(norm, views, views.Keys, c)
    ensures Ix.SnapshotOk(norm, "", AllEntries(views)) && Ix.Replaced(norm, AllEntries(views), views.Keys, c.idx, c.from)
    ensures AllCopiesOf(views, c.from, c.vals)
  {
    SnapshotOkIff(norm, views);
  }

  lemma CopiesIndexedAt(norm: string -> string, views: map<string, Views>, from: map<string, map<string, string>>,
                        idx: Ix.Index<string>, vals: ValuesByApi, m: KeysByApi, made: set<object>, a: string)
    requires Ix.Replaced(norm, AllEntries(views), views.Keys, idx, from) && AllCopiesOf(views, from, vals)
    requires AllStandFor(m, vals, made) && a in m
    ensures a in idx && NamesOf(m[a]) == idx[a] && forall h | h in m[a] :: m[a][h].hash == h
  {
    assert StandFor(m[a], vals[a], made) && CopiesOf(views[a], from[a], vals[a]);
    assert Ix.Indexed(norm, AllEntries(views)[a], AllEntries(views)[a].Keys, idx[a], from[a]);
    NamesOfCopies(norm, views[a], from[a], idx[a], vals[a], m[a], made);
  }

  /** The copies are filed under their own hashes, and their index is the one computed along the way. */
  lemma CopiesAreIndexed(norm: string -> string, views: map<string, Views>, from: map<string, map<string, string>>,
                         idx: Ix.Index<string>, vals: ValuesByApi, m: KeysByApi, made: set<object>)
    requires Ix.Replaced(norm, AllEntries(views), views.Keys, idx, from) && AllCopiesOf(views, from, vals)
    requires AllStandFor(m, vals, made)
    ensures IndexOf(m) == idx && Filed(m)
  {
    forall a | a in m ensures a in idx && NamesOf(m[a]) == idx[a] && forall h | h in m[a] :: m[a][h].hash == h {
      CopiesIndexedAt(norm, views, from, idx, vals, m, made, a);
    }
    IndexIs(m, idx);
  }

  lemma ReplacementIsValid(norm: string -> string, views: map<string, Views>, from: map<string, map<string, string>>,
                           idx: Ix.Index<string>, vals: ValuesByApi, m: KeysByApi, made: set<object>)
    requires Idempotent(norm) && Ix.SnapshotOk(norm, "", AllEntries(views))
    requires Ix.Replaced(norm, AllEntries(views), views.Keys, idx, from) && AllCopiesOf(views, from, vals)
    requires AllStandFor(m, vals, made)
    ensures IndexOf(m) == idx && Filed(m) && Ix.Sound(norm, "", idx)
  {
    assert AllEntries(views).Keys == views.Keys;
    Ix.ReplacedIsSound(norm, "", AllEntries(views), idx, from);
    CopiesAreIndexed(norm, views, from, idx, vals, m, made);
  }

  /** The key is there under its trimmed hash, with that hash and otherwise as it was. */
  ghost predicate CopiedOne(norm: string -> string, key: KeyValue, vals: Values) {
    norm(key.hash) in vals && vals[norm(key.hash)] == key.(hash := norm(key.hash))
  }

  /** Every key of one API, and nothing else. */
  ghost predicate CopiedKeys(norm: string -> string, views: Views, vals: Values) {
    && (forall h | h in views && views[h].Some? :: CopiedOne(norm, views[h].value, vals))
    && (forall k | k in vals :: exists h :: h in views && views[h].Some? && norm(views[h].value.hash) == k)
  }

  /** Each key of the snapshot is copied under its trimmed hash, and nothing else is there; an API without keys is dropped. */
  ghost predicate CopiedInto(norm: string -> string, views: map<string, Views>, vals: ValuesByApi) {
    && (forall a :: a in vals <==> a in views && views[a] != map[])
    && (forall a | a in vals :: CopiedKeys(norm, views[a], vals[a]))
  }

  lemma KeyGoesInto(norm: string -> string, views: Views, from: map<string, string>, names: Ix.Names<string>, vals: Values,
                    h: string)
    requires Ix.Indexed(norm, Entries(views), views.Keys, names, from) && CopiesOf(views, from, vals)
    requires names.Keys == vals.Keys && h in views && views[h].Some?
    ensures CopiedOne(norm, views[h].value, vals)
  {
    var entries := Entries(views);
    assert entries[h] == EntryOf(views[h]) && norm(entries[h].hash) in names;
    var k := norm(entries[h].hash);
    assert from[k] == h;
    assert CopyOf(views, from[k], k, vals[k]);
  }

  lemma KeyComesFrom(norm: string -> string, views: Views, from: map<string, string>, names: Ix.Names<string>, k: string)
    requires Ix.Indexed(norm, Entries(views), views.Keys, names, from) && k in names
    ensures from[k] in views && views[from[k]].Some? && norm(views[from[k]].value.hash) == k
  {
    assert Ix.IndexedFrom(norm, Entries(views), from[k], k, names[k]);
  }

  lemma InnerGoesInto(norm: string -> string, views: Views, from: map<string, string>, names: Ix.Names<string>, vals: Values)
    requires Ix.Indexed(norm, Entries(views), views.Keys, names, from) && CopiesOf(views, from, vals)
    ensures CopiedKeys(norm, views, vals)
  {
    assert names.Keys == vals.Keys;
    forall h | h in views && views[h].Some? ensures CopiedOne(norm, views[h].value, vals) {
      KeyGoesInto(norm, views, from, names, vals, h);
    }
    forall k | k in vals ensures exists h :: h in views && views[h].Some? && norm(views[h].value.hash) == k {
      KeyComesFrom(norm, views, from, names, k);
    }
  }

  lemma ApiGoesInto(norm: string -> string, views: map<string, Views>, from: map<string, map<string, string>>,
                    idx: Ix.Index<string>, vals: ValuesByApi, a: string)
    requires Ix.Replaced(norm, AllEntries(views), views.Keys, idx, from) && AllCopiesOf(views, from, vals)
    ensures a in vals <==> a in views && views[a] != map[]
    ensures a in vals ==> CopiedKeys(norm, views[a], vals[a])
  {
    if a in views {
      assert AllEntries(views)[a] == Entries(views[a]) && Entries(views[a]).Keys == views[a].Keys;
      assert Entries(views[a]) == map[] <==> views[a] == map[];
      if a in vals {
        assert Ix.Indexed(norm, Entries(views[a]), views[a].Keys, idx[a], from[a]);
        assert CopiesOf(views[a], from[a], vals[a]);
        InnerGoesInto(norm, views[a], from[a], idx[a], vals[a]);
      }
    }
  }

  lemma CopiesGoInto(norm: string -> string, views: map<string, Views>, from: map<string, map<string, string>>,
                     idx: Ix.Index<string>, vals: ValuesByApi)
    requires Ix.Replaced(norm, AllEntries(views), views.Keys, idx, from) && AllCopiesOf(views, from, vals)
    ensures CopiedInto(norm, views, vals)
  {
    forall a ensures (a in vals <==> a in views && views[a] != map[]) && (a in vals ==> CopiedKeys(norm, views[a], vals[a])) {
      ApiGoesInto(norm, views, from, idx, vals, a);
    }
  }

  lemma IndexIs(m: KeysByApi, idx: Ix.Index<string>)
    requires m.Keys == idx.Keys && forall a | a in m :: NamesOf(m[a]) == idx[a]
    ensures IndexOf(m) == idx
  {
  }

  lemma NamesOfCopies(norm: string -> string, views: Views, from: map<string, string>, names: Ix.Names<string>,
                      vals: Values, keys: Keys, made: set<object>)
    requires Ix.Indexed(norm, Entries(views), views.Keys, names, from) && CopiesOf(views, from, vals)
    requires StandFor(keys, vals, made)
    ensures NamesOf(keys) == names && forall h | h in keys :: keys[h].hash == h
  {
    forall h | h in keys ensures keys[h].hash == h && keys[h].name == names[h] {
      assert CopyOf(views, from[h], h, vals[h]);
      assert Ix.IndexedFrom(norm, Entries(views), from[h], h, names[h]);
    }
  }

  // ---------------------------------------------------------- a key's lifetime

  /** The key is filed under the digest of the trimmed text. */
  ghost predicate FiledFor(store: ApiKeyStore, a: string, key: ApiKey, plain: string)
    reads store
  {
    var hash := store.digest(store.norm(plain));
    && store.norm(plain) != "" && hash != ""
    && a in store.apiKeysByAPI && hash in store.apiKeysByAPI[a] && store.apiKeysByAPI[a][hash] == key
  }

  method RevokeFiled(store: ApiKeyStore, a: string, key: ApiKey, plain: string)
    requires store.Valid() && FiledFor(store, a, key, plain)
    modifies store, key
    ensures store.Valid() && key.View() == old(key.View()).(status := Revoked)
    ensures OnlyLoses(old(store.apiKeysByAPI), a, store.digest(store.norm(plain)), store.apiKeysByAPI)
  {
    assert store.Matched(a, plain) == {key};
    store.RevokeAPIKey(a, plain);
  }

  /** A client that stores an active key under the digest of its trimmed text, resolves any text that trims to the same,
      revokes another such text and resolves a third: it gets a copy of the key first and NotFound in the end. */
  method StoreResolveRevoke(store: ApiKeyStore, a: string, key: ApiKey, plain: string, first: string, second: string,
                            third: string, now: int)
    returns (stored: KeyError, got: ApiKey?, before: KeyError, after: KeyError)
    requires store.Valid() && store.norm(plain) != "" && store.norm(first) == store.norm(plain)
    requires store.norm(second) == store.norm(plain) && store.norm(third) == store.norm(plain)
    requires key.hash == store.digest(store.norm(plain)) && key.hash != "" && store.norm(key.hash) == key.hash
    requires key.View().apiId == a && key.View().status == Active
    requires key.View().expiresAt == None || now <= key.View().expiresAt.value
    modifies store, key
    ensures stored == Ok || stored == Conflict
    ensures stored == Ok ==> before == Ok && got != null && fresh(got.Parts()) && got.View() == old(key.View())
    ensures stored == Ok ==> after == NotFound && key.View() == old(key.View()).(status := Revoked)
  {
    got, before, after := null, Ok, Ok;
    stored := StoreFiled(store, a, key, plain);
    if stored == Ok {
      got, before, after := ResolveRevoke(store, a, key, first, second, third, now);
    }
  }

  method ResolveRevoke(store: ApiKeyStore, a: string, key: ApiKey, first: string, second: string, third: string, now: int)
    returns (got: ApiKey, before: KeyError, after: KeyError)
    requires store.Valid() && FiledFor(store, a, key, first)
    requires store.norm(second) == store.norm(first) && store.norm(third) == store.norm(first)
    requires key.View().apiId == a && key.View().status == Active
    requires key.View().expiresAt == None || now <= key.View().expiresAt.value
    modifies store, key
    ensures before == Ok && fresh(got.Parts()) && got.View() == old(key.View())
    ensures after == NotFound && key.View() == old(key.View()).(status := Revoked)
  {
    got, before := ResolveFiled(store, a, key, first, now);
    RevokeFiled(store, a, key, second);
    after := ResolveGone(store, a, third, now);
  }

  method ResolveFiled(store: ApiKeyStore, a: string, key: ApiKey, plain: string, now: int) returns (got: ApiKey, err: KeyError)
    requires store.Valid() && FiledFor(store, a, key, plain) && key.View().apiId == a && key.View().status == Active
    requires key.View().expiresAt == None || now <= key.View().expiresAt.value
    ensures err == Ok && fresh(got.Parts()) && got.View() == key.View()
  {
    var found;
    found, err := store.ResolveValidatedAPIKey(a, plain, None, now);
    got := found;
  }

  method StoreFiled(store: ApiKeyStore, a: string, key: ApiKey, plain: string) returns (stored: KeyError)
    requires store.Valid() && store.norm(plain) != ""
    requires key.hash == store.digest(store.norm(plain)) && key.hash != "" && store.norm(key.hash) == key.hash
    modifies store, key
    ensures store.Valid() && (stored == Ok || stored == Conflict) && key.View() == old(key.View())
    ensures stored == Ok ==> FiledFor(store, a, key, plain)
  {
    ghost var gone;
    stored, gone := store.StoreAPIKey(a, key);
  }

  method ResolveGone(store: ApiKeyStore, a: string, plain: string, now: int) returns (err: KeyError)
    requires store.Valid() && store.norm(plain) != "" && store.digest(store.norm(plain)) != ""
    requires a in store.apiKeysByAPI ==> store.digest(store.norm(plain)) !in store.apiKeysByAPI[a]
    ensures err == NotFound
  {
    var none;
    none, err := store.ResolveValidatedAPIKey(a, plain, None, now);
  }

  // ---------------------------------------------------------------- isolation

  /** A client that replaces everything and then does anything to objects it holds, the snapshot's own keys among them:
      the store still holds the keys as they were in the snapshot. */
  method ReplaceThenChange(store: ApiKeyStore, snapshot: KeySnapshot, held: set<object>)
    returns (err: KeyError, ghost from: map<string, map<string, string>>, ghost vals: ValuesByApi, ghost made: set<object>)
    requires store.Valid() && store !in held
    modifies store, held
    ensures err == Ok <==> InOrder(store.norm, old(SnapshotViews(snapshot)))
    ensures err == Ok ==> CopiedInto(store.norm, old(SnapshotViews(snapshot)), vals) && AllStandFor(store.apiKeysByAPI, vals, made)
  {
    err, from, vals, made := store.ReplaceAll(snapshot);
    if err == Ok {
      label replaced:
      modify held;
      Isolated@replaced(Held(store.apiKeysByAPI, vals, made));
    }
  }

  /** Anything may happen to objects that the store does not consist of. */
  method ChangeOutside(store: ApiKeyStore, outside: set<object>, ghost vals: ValuesByApi, ghost parts: set<object>)
    requires AllStandFor(store.apiKeysByAPI, vals, parts) && store !in outside && parts !! outside
    modifies outside
    ensures AllStandFor(store.apiKeysByAPI, vals, parts)
  {
    modify outside;
    Isolated(Held(store.apiKeysByAPI, vals, parts));
  }

  /** The objects of a key. */
  method PartsOf(key: ApiKey) returns (parts: set<object>)
    ensures parts == key.Parts()
  {
    parts := {key};
    if key.expiresAt != null {
      parts := parts + {key.expiresAt};
    }
    if key.issuer != null {
      parts := parts + {key.issuer};
    }
  }

  /** A client that looks a key up and then does anything to what it got: what the store holds is the same. */
  method LookUpThenChange(store: ApiKeyStore, a: string, keyID: string, ghost vals: ValuesByApi, ghost parts: set<object>)
    returns (key: ApiKey?, err: KeyError)
    requires AllStandFor(store.apiKeysByAPI, vals, parts)
    ensures AllStandFor(store.apiKeysByAPI, vals, parts) && (key != null <==> err == Ok) && (keyID == "" ==> err == NotFound)
  {
    key, err := store.GetAPIKeyByID(a, keyID);
    Isolated(Held(store.apiKeysByAPI, vals, parts));
    if key != null {
      var got := PartsOf(key);
      ChangeOutside(store, got, vals, parts);
    }
  }

  method ResolveThenChange(store: ApiKeyStore, a: string, plain: string, issuer: Option<string>, now: int,
                           ghost vals: ValuesByApi, ghost parts: set<object>) returns (key: ApiKey?, err: KeyError)
    requires store.Valid() && AllStandFor(store.apiKeysByAPI, vals, parts)
    ensures AllStandFor(store.apiKeysByAPI, vals, parts)
    ensures var hash := store.digest(store.norm(plain));
      err == if store.norm(plain) == "" then EmptyKey else if hash == "" then NoHash
             else if a in store.apiKeysByAPI && hash in store.apiKeysByAPI[a] then Ok else NotFound
  {
    key, err := store.ResolveValidatedAPIKey(a, plain, issuer, now);
    Isolated(Held(store.apiKeysByAPI, vals, parts));
    if key != null {
      var got := PartsOf(key);
      ChangeOutside(store, got, vals, parts);
    }
  }
}
