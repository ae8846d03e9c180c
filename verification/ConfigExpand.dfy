// Expansion of template tokens in a configuration tree. Rendering a single string
// is a partial function given from outside; the walk applies it to exactly the
// string leaves that contain a token, whatever the order in which maps are visited.
module ConfigExpand {
  import opened Options
  import opened GoStrings

  datatype Value =
    | Text(text: string)
    | Table(fields: map<string, Value>)
    | List(items: seq<Value>)
    | Scalar(repr: string)

  datatype Key = Field(name: string) | Index(i: nat)
  type Path = seq<Key>
  type Render = string -> Option<string>

  datatype WalkResult = Done(value: Value) | ExecError(field: string)

  predicate HasToken(s: string) {
    exists i | 0 <= i < |s| - 1 :: s[i] == '{' && s[i + 1] == '{'
  }

  /** A string has a token if it contains two opening braces in a row. */
  lemma HasTokenIff(s: string)
    ensures HasToken(s) <==> Contains(s, "{{")
  {
    if i :| 0 <= i < |s| - 1 && s[i] == '{' && s[i + 1] == '{' {
      assert s[i..i + 2] == "{{";
      assert OccursAt(s, "{{", i);
    }
    if j: nat :| OccursAt(s, "{{", j) {
      assert s[j] == s[j..j + 2][0] && s[j + 1] == s[j..j + 2][1];
    }
  }

  // ------------------------------------------------------------- reading trees

  /** The subtree at a path, if there is one. */
  function At(v: Value, p: Path): Option<Value>
    decreases |p|
  {
    if p == [] then Some(v)
    else match (v, p[0])
      case (Table(m), Field(k)) => if k in m then At(m[k], p[1..]) else None
      case (List(xs), Index(i)) => if i < |xs| then At(xs[i], p[1..]) else None
      case _ => None
  }

  /** The paths of the string leaves that contain a token. */
  ghost function TokenPaths(v: Value): set<Path> {
    match v
    case Text(s) => if HasToken(s) then {[]} else {}
    case Table(m) => set k, p | k in m && p in TokenPaths(m[k]) :: [Field(k)] + p
    case List(xs) => set i, p | 0 <= i < |xs| && p in TokenPaths(xs[i]) :: [Index(i)] + p
    case Scalar(_) => {}
  }

  /** Every leaf with a token renders. */
  ghost predicate Renderable(render: Render, v: Value) {
    match v
    case Text(s) => HasToken(s) ==> render(s).Some?
    case Table(m) => forall k | k in m :: Renderable(render, m[k])
    case List(xs) => forall i | 0 <= i < |xs| :: Renderable(render, xs[i])
    case Scalar(_) => true
  }

  ghost function Expanded(render: Render, v: Value): Value
    requires Renderable(render, v)
  {
    match v
    case Text(s) => if HasToken(s) then Text(render(s).value) else v
    case Table(m) => Table(map k | k in m :: Expanded(render, m[k]))
    case List(xs) => List(seq(|xs|, i requires 0 <= i < |xs| => Expanded(render, xs[i])))
    case Scalar(_) => v
  }

  /** The token paths are exactly the paths that lead to a string with a token. */
  lemma {:induction false} TokenPathsMeaning(v: Value, p: Path)
    ensures p in TokenPaths(v) <==>
      (At(v, p).Some? && At(v, p).value.Text? && Contains(At(v, p).value.text, "{{"))
    decreases |p|
  {
    if p == [] {
      if v.Text? { HasTokenIff(v.text); }
    } else {
      assert p == [p[0]] + p[1..];
      match (v, p[0]) {
        case (Table(m), Field(k)) => if k in m { TokenPathsMeaning(m[k], p[1..]); }
        case (List(xs), Index(i)) => if i < |xs| { TokenPathsMeaning(xs[i], p[1..]); }
        case _ =>
      }
    }
  }

  /** Rendering succeeds on a tree exactly when it succeeds on every leaf with a token. */
  lemma {:induction false} RenderableIff(render: Render, v: Value)
    ensures Renderable(render, v) <==> forall p | p in TokenPaths(v) :: RendersAt(render, v, p)
  {
    match v {
      case Text(s) =>
        var here: Path := [];
        assert At(v, here) == Some(v);
        assert RendersAt(render, v, here) <==> render(s).Some?;
        assert HasToken(s) ==> here in TokenPaths(v);
        assert forall p | p in TokenPaths(v) :: p == here;
      case Table(m) =>
        forall k | k in m
          ensures Renderable(render, m[k]) <==> forall p | p in TokenPaths(m[k]) :: RendersAt(render, v, [Field(k)] + p)
        {
          RenderableIff(render, m[k]);
          forall p | p in TokenPaths(m[k]) ensures RendersAt(render, v, [Field(k)] + p) <==> RendersAt(render, m[k], p) {
            assert ([Field(k)] + p)[1..] == p;
          }
        }
        forall k, p | k in m && p in TokenPaths(m[k]) ensures [Field(k)] + p in TokenPaths(v) {}
      case List(xs) =>
        forall i | 0 <= i < |xs|
          ensures Renderable(render, xs[i]) <==> forall p | p in TokenPaths(xs[i]) :: RendersAt(render, v, [Index(i)] + p)
        {
          RenderableIff(render, xs[i]);
          forall p | p in TokenPaths(xs[i]) ensures RendersAt(render, v, [Index(i)] + p) <==> RendersAt(render, xs[i], p) {
            assert ([Index(i)] + p)[1..] == p;
          }
        }
        forall i, p | 0 <= i < |xs| && p in TokenPaths(xs[i]) ensures [Index(i)] + p in TokenPaths(v) {}
      case Scalar(_) =>
    }
  }

  ghost predicate RendersAt(render: Render, v: Value, p: Path) {
    At(v, p).Some? && At(v, p).value.Text? && render(At(v, p).value.text).Some?
  }

  /** What expansion does at one place of the tree. */
  ghost predicate ExpandsTo(render: Render, v: Value, r: Value) {
    match v
    case Text(s) => if Contains(s, "{{") then render(s).Some? && r == Text(render(s).value) else r == v
    case Table(m) => r.Table? && r.fields.Keys == m.Keys
    case List(xs) => r.List? && |r.items| == |xs|
    case Scalar(_) => r == v
  }

  /** Structure is kept: at every path there is a subtree before if and only if there is one after, tables keep
      their keys, lists their length, leaves without a token their value, and a token leaf becomes its rendering. */
  lemma {:induction false} ExpandedEverywhere(render: Render, v: Value, p: Path)
    requires Renderable(render, v)
    ensures At(v, p).Some? <==> At(Expanded(render, v), p).Some?
    ensures At(v, p).Some? ==> ExpandsTo(render, At(v, p).value, At(Expanded(render, v), p).value)
    decreases |p|
  {
    if p == [] {
      if v.Text? { HasTokenIff(v.text); }
    } else {
      match (v, p[0]) {
        case (Table(m), Field(k)) => if k in m { ExpandedEverywhere(render, m[k], p[1..]); }
        case (List(xs), Index(i)) => if i < |xs| { ExpandedEverywhere(render, xs[i], p[1..]); }
        case _ =>
      }
    }
  }

  /** A configuration without tokens comes back as it is. */
  lemma {:induction false} NoTokensNoChange(render: Render, v: Value)
    requires TokenPaths(v) == {}
    ensures Renderable(render, v) && Expanded(render, v) == v
  {
    match v {
      case Text(s) => assert HasToken(s) ==> [] in TokenPaths(v);
      case Table(m) =>
        forall k | k in m ensures Renderable(render, m[k]) && Expanded(render, m[k]) == m[k] {
          assert forall p | p in TokenPaths(m[k]) :: [Field(k)] + p in TokenPaths(v);
          NoTokensNoChange(render, m[k]);
        }
      case List(xs) =>
        forall i | 0 <= i < |xs| ensures Renderable(render, xs[i]) && Expanded(render, xs[i]) == xs[i] {
          assert forall p | p in TokenPaths(xs[i]) :: [Index(i)] + p in TokenPaths(v);
          NoTokensNoChange(render, xs[i]);
        }
      case Scalar(_) =>
    }
  }

  // ------------------------------------------------------------------- counting

  ghost function Below(key: Key, ps: set<Path>): set<Path> {
    set p | p in ps :: [key] + p
  }

  lemma {:induction false} BelowCount(key: Key, ps: set<Path>)
    ensures |Below(key, ps)| == |ps|
    decreases |ps|
  {
    if ps != {} {
      var p :| p in ps;
      BelowCount(key, ps - {p});
      forall q | q in ps - {p} ensures [key] + q != [key] + p {
        assert ([key] + q)[1..] == q && ([key] + p)[1..] == p;
      }
      assert [key] + p !in Below(key, ps - {p});
      assert Below(key, ps) == Below(key, ps - {p}) + {[key] + p};
    }
  }

  /** Token paths under some keys of a table. */
  ghost function TokensUnder(m: map<string, Value>, keys: set<string>): set<Path> {
    set k, p | k in keys && k in m && p in TokenPaths(m[k]) :: [Field(k)] + p
  }

  lemma OneMoreField(m: map<string, Value>, keys: set<string>, k: string)
    requires k in m && k !in keys
    ensures |TokensUnder(m, keys + {k})| == |TokensUnder(m, keys)| + |TokenPaths(m[k])|
  {
    var before, more := TokensUnder(m, keys), Below(Field(k), TokenPaths(m[k]));
    BelowCount(Field(k), TokenPaths(m[k]));
    assert TokensUnder(m, keys + {k}) == before + more;
    forall q | q in before ensures q !in more {
      var h, p :| h in keys && h in m && p in TokenPaths(m[h]) && q == [Field(h)] + p;
      assert q[0] == Field(h);
    }
    assert before !! more;
  }

  /** Token paths in the first items of a list. */
  ghost function TokensIn(xs: seq<Value>, n: nat): set<Path>
    requires n <= |xs|
  {
    set i, p | 0 <= i < n && p in TokenPaths(xs[i]) :: [Index(i)] + p
  }

  lemma OneMoreItem(xs: seq<Value>, n: nat)
    requires n < |xs|
    ensures |TokensIn(xs, n + 1)| == |TokensIn(xs, n)| + |TokenPaths(xs[n])|
  {
    var before, more := TokensIn(xs, n), Below(Index(n), TokenPaths(xs[n]));
    BelowCount(Index(n), TokenPaths(xs[n]));
    assert TokensIn(xs, n + 1) == before + more;
    forall q | q in before ensures q !in more {
      var i, p :| 0 <= i < n && p in TokenPaths(xs[i]) && q == [Index(i)] + p;
      assert q[0] == Index(i);
    }
    assert before !! more;
  }

  // -------------------------------------------------------------------- walking

  function Decimal(n: nat): string {
    if n < 10 then [('0' as int + n) as char] else Decimal(n / 10) + [('0' as int + n % 10) as char]
  }

  /** The number that digits stand for, from the most significant one on. */
  ghost function ValueOf(digits: string): int {
    if digits == "" then 0
    else 10 * ValueOf(digits[..|digits| - 1]) + (digits[|digits| - 1] as int - '0' as int)
  }

  /** Digits only, none of them a leading zero, and they stand for the number. */
  lemma {:induction false} DecimalMeaning(n: nat)
    ensures Decimal(n) != "" && (forall c | c in Decimal(n) :: '0' <= c <= '9') && (n > 0 ==> Decimal(n)[0] != '0')
    ensures ValueOf(Decimal(n)) == n
  {
    if n < 10 {
      assert Decimal(n)[..0] == "" && ValueOf("") == 0;
    } else {
      DecimalMeaning(n / 10);
      assert Decimal(n)[..|Decimal(n)| - 1] == Decimal(n / 10);
    }
  }

  function JoinKey(path: string, key: string): string {
    if path == "" then key else path + "." + key
  }

  function Descend(path: string, key: Key): string {
    match key
    case Field(k) => JoinKey(path, k)
    case Index(i) => path + "[" + Decimal(i) + "]"
  }

  /** The name under which an error at a path is reported. */
  function Name(path: string, p: Path): string
    decreases |p|
  {
    if p == [] then path else Name(Descend(path, p[0]), p[1..])
  }

  /** Fields are joined with dots and items are put in brackets, from the root on. */
  lemma {:induction false} NameMeaning(path: string, p: Path, key: Key)
    ensures Name(path, []) == path
    ensures Name(path, p + [key]) ==
      match key
      case Field(k) => if Name(path, p) == "" then k else Name(path, p) + "." + k
      case Index(i) => Name(path, p) + "[" + Decimal(i) + "]"
    decreases |p|
  {
    if p == [] {
      assert (p + [key])[1..] == [];
    } else {
      assert (p + [key])[0] == p[0] && (p + [key])[1..] == p[1..] + [key];
      NameMeaning(Descend(path, p[0]), p[1..], key);
    }
  }

  /** The reported name belongs to a token leaf that does not render. */
  ghost predicate Blames(render: Render, v: Value, path: string, field: string) {
    exists p :: p in TokenPaths(v) && !RendersAt(render, v, p) && field == Name(path, p)
  }

  lemma BlameChild(render: Render, v: Value, child: Value, key: Key, path: string, field: string)
    requires At(v, [key]) == Some(child) && Blames(render, child, Descend(path, key), field)
    ensures Blames(render, v, path, field)
  {
    var p :| p in TokenPaths(child) && !RendersAt(render, child, p) && field == Name(Descend(path, key), p);
    assert ([key] + p)[1..] == p && [key][1..] == [];
    assert At(v, [key] + p) == At(child, p);
    assert [key] + p in TokenPaths(v);
    assert field == Name(path, [key] + p);
  }

  lemma FieldFails(render: Render, m: map<string, Value>, k: string, path: string, field: string)
    requires k in m && !Renderable(render, m[k]) && Blames(render, m[k], JoinKey(path, k), field)
    ensures !Renderable(render, Table(m)) && Blames(render, Table(m), path, field)
  {
    assert [Field(k)][1..] == [];
    BlameChild(render, Table(m), m[k], Field(k), path, field);
  }

  lemma ItemFails(render: Render, xs: seq<Value>, i: nat, path: string, field: string)
    requires i < |xs| && !Renderable(render, xs[i]) && Blames(render, xs[i], path + "[" + Decimal(i) + "]", field)
    ensures !Renderable(render, List(xs)) && Blames(render, List(xs), path, field)
  {
    assert [Index(i)][1..] == [];
    BlameChild(render, List(xs), xs[i], Index(i), path, field);
  }

  /** The fields visited so far are expanded and their tokens counted. */
  ghost predicate TableSoFar(render: Render, m: map<string, Value>, result: map<string, Value>, count: nat) {
    && (forall k | k in result :: k in m && Renderable(render, m[k]) && result[k] == Expanded(render, m[k]))
    && count == |TokensUnder(m, result.Keys)|
  }

  lemma TableStep(render: Render, m: map<string, Value>, result: map<string, Value>, count: nat, k: string)
    requires TableSoFar(render, m, result, count) && k in m && k !in result && Renderable(render, m[k])
    ensures TableSoFar(render, m, result[k := Expanded(render, m[k])], count + |TokenPaths(m[k])|)
  {
    OneMoreField(m, result.Keys, k);
    assert result[k := Expanded(render, m[k])].Keys == result.Keys + {k};
  }

  lemma TableDone(render: Render, m: map<string, Value>, result: map<string, Value>, count: nat)
    requires TableSoFar(render, m, result, count) && result.Keys == m.Keys
    ensures Renderable(render, Table(m)) && Expanded(render, Table(m)) == Table(result)
    ensures count == |TokenPaths(Table(m))|
  {
    assert result == Expanded(render, Table(m)).fields;
    assert TokensUnder(m, result.Keys) == TokenPaths(Table(m));
  }

  /** The items visited so far are expanded and their tokens counted. */
  ghost predicate ListSoFar(render: Render, xs: seq<Value>, result: seq<Value>, count: nat) {
    && |result| <= |xs|
    && (forall i | 0 <= i < |result| :: Renderable(render, xs[i]) && result[i] == Expanded(render, xs[i]))
    && count == |TokensIn(xs, |result|)|
  }

  lemma ListStep(render: Render, xs: seq<Value>, result: seq<Value>, count: nat)
    requires ListSoFar(render, xs, result, count) && |result| < |xs| && Renderable(render, xs[|result|])
    ensures ListSoFar(render, xs, result + [Expanded(render, xs[|result|])], count + |TokenPaths(xs[|result|])|)
  {
    OneMoreItem(xs, |result|);
  }

  lemma ListDone(render: Render, xs: seq<Value>, result: seq<Value>, count: nat)
    requires ListSoFar(render, xs, result, count) && |result| == |xs|
    ensures Renderable(render, List(xs)) && Expanded(render, List(xs)) == List(result)
    ensures count == |TokenPaths(List(xs))|
  {
    assert result == Expanded(render, List(xs)).items;
    assert TokensIn(xs, |result|) == TokenPaths(List(xs));
  }

  class Stats {
    var fields: nat

    constructor ()
      ensures fields == 0
    {
      fields := 0;
    }
  }

  method WalkValue(val: Value, render: Render, stats: Stats, path: string) returns (r: WalkResult)
    modifies stats
    ensures r.Done? <==> Renderable(render, val)
    ensures r.Done? ==> r.value == Expanded(render, val) && stats.fields == old(stats.fields) + |TokenPaths(val)|
    ensures r.ExecError? ==> Blames(render, val, path, r.field)
    decreases val, 1
  {
    match val {
      case Text(s) =>
        if !HasToken(s) {
          return Done(val);
        }
        stats.fields := stats.fields + 1;
        var rendered := render(s);
        if rendered.None? {
          assert [] in TokenPaths(val) && Name(path, []) == path;
          return ExecError(path);
        }
        return Done(Text(rendered.value));
      case Table(m) =>
        r := WalkTable(val, render, stats, path);
      case List(xs) =>
        r := WalkList(val, render, stats, path);
      case Scalar(_) =>
        return Done(val);
    }
  }

  /** The fields of a table, in whatever order the map is visited. */
  method WalkTable(val: Value, render: Render, stats: Stats, path: string) returns (r: WalkResult)
    requires val.Table?
    modifies stats
    ensures r.Done? <==> Renderable(render, val)
    ensures r.Done? ==> r.value == Expanded(render, val) && stats.fields == old(stats.fields) + |TokenPaths(val)|
    ensures r.ExecError? ==> Blames(render, val, path, r.field)
    decreases val, 0
  {
    var m := val.fields;
    var result: map<string, Value> := map[];
    var left := m.Keys;
    while left != {}
      invariant left <= m.Keys && result.Keys == m.Keys - left
      invariant stats.fields >= old(stats.fields)
      invariant TableSoFar(render, m, result, stats.fields - old(stats.fields))
      decreases left
    {
      var key :| key in left;
      left := left - {key};
      ghost var soFar := stats.fields - old(stats.fields);
      var child := WalkValue(m[key], render, stats, JoinKey(path, key));
      if child.ExecError? {
        FieldFails(render, m, key, path, child.field);
        return child;
      }
      TableStep(render, m, result, soFar, key);
      result := result[key := child.value];
    }
    TableDone(render, m, result, stats.fields - old(stats.fields));
    return Done(Table(result));
  }

  /** The items of a list, in order. */
  method WalkList(val: Value, render: Render, stats: Stats, path: string) returns (r: WalkResult)
    requires val.List?
    modifies stats
    ensures r.Done? <==> Renderable(render, val)
    ensures r.Done? ==> r.value == Expanded(render, val) && stats.fields == old(stats.fields) + |TokenPaths(val)|
    ensures r.ExecError? ==> Blames(render, val, path, r.field)
    decreases val, 0
  {
    var xs := val.items;
    var result: seq<Value> := [];
    while |result| < |xs|
      invariant stats.fields >= old(stats.fields)
      invariant ListSoFar(render, xs, result, stats.fields - old(stats.fields))
    {
      var i := |result|;
      ghost var soFar := stats.fields - old(stats.fields);
      var child := WalkValue(xs[i], render, stats, path + "[" + Decimal(i) + "]");
      if child.ExecError? {
        ItemFails(render, xs, i, path, child.field);
        return child;
      }
      ListStep(render, xs, result, soFar);
      result := result + [child.value];
    }
    ListDone(render, xs, result, stats.fields - old(stats.fields));
    return Done(List(result));
  }

  /** Expands a whole configuration, or fails as a whole. */
  method Expand(raw: map<string, Value>, render: Render) returns (out: Option<map<string, Value>>, fields: nat, field: string)
    ensures out.Some? <==> Renderable(render, Table(raw))
    ensures out.Some? ==> Table(out.value) == Expanded(render, Table(raw)) && fields == |TokenPaths(Table(raw))|
    ensures out.None? ==> fields == 0 && Blames(render, Table(raw), "", field)
  {
    var stats := new Stats();
    var r := WalkValue(Table(raw), render, stats, "");
    if r.ExecError? {
      return None, 0, r.field;
    }
    return Some(r.value.fields), stats.fields, "";
  }
}
