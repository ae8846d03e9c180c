// Value-based redaction: every occurrence of each secret is replaced by a fixed
// placeholder, one secret after the other over the text the last pass produced.
module Redaction {
  import opened GoStrings

  const PLACEHOLDER := "***REDACTED***"
  const CORE := "REDACTED"

  /** `strings.ReplaceAll` for a non-empty `secret`: the leftmost occurrence first, then on behind it. */
  function ReplaceAll(s: string, secret: string, mask: string): string
    requires secret != ""
    decreases |s|
  {
    if |s| < |secret| then s
    else if OccursAt(s, secret, 0) then mask + ReplaceAll(s[|secret|..], secret, mask)
    else [s[0]] + ReplaceAll(s[1..], secret, mask)
  }

  ghost function FromHere(s: string, secret: string, mask: string, i: nat): string
    requires secret != "" && i <= |s|
  {
    ReplaceAll(s[i..], secret, mask)
  }

  lemma ReplaceHere(s: string, secret: string, mask: string, i: nat)
    requires secret != "" && i + |secret| <= |s|
    ensures FromHere(s, secret, mask, i) ==
      if s[i..i + |secret|] == secret then mask + FromHere(s, secret, mask, i + |secret|)
      else [s[i]] + FromHere(s, secret, mask, i + 1)
  {
    assert s[i..][0..|secret|] == s[i..i + |secret|];
    assert s[i..][|secret|..] == s[i + |secret|..] && s[i..][1..] == s[i + 1..];
  }

  lemma Scan(s: string, secret: string, mask: string, i: nat, r: string)
    requires secret != "" && i + |secret| <= |s|
    ensures r + FromHere(s, secret, mask, i) ==
      if s[i..i + |secret|] == secret then (r + mask) + FromHere(s, secret, mask, i + |secret|)
      else (r + [s[i]]) + FromHere(s, secret, mask, i + 1)
  {
    ReplaceHere(s, secret, mask, i);
    var x, y := FromHere(s, secret, mask, i + |secret|), FromHere(s, secret, mask, i + 1);
    assert r + (mask + x) == (r + mask) + x && r + ([s[i]] + y) == (r + [s[i]]) + y;
  }

  /** The same, as a scan that copies or replaces from left to right. */
  method ReplaceAllLoop(s: string, secret: string, mask: string) returns (r: string)
    requires secret != ""
    ensures r == ReplaceAll(s, secret, mask)
  {
    r := "";
    var i := 0;
    ghost var all := FromHere(s, secret, mask, 0);
    assert all == r + all && s[0..] == s;
    while i + |secret| <= |s|
      invariant 0 <= i <= |s|
      invariant all == r + FromHere(s, secret, mask, i)
      decreases |s| - i
    {
      Scan(s, secret, mask, i, r);
      if s[i..i + |secret|] == secret {
        r := r + mask;
        i := i + |secret|;
      } else {
        r := r + [s[i]];
        i := i + 1;
      }
    }
    r := r + s[i..];
  }

  /** One pass per secret, in the order given. */
  function Passes(s: string, secrets: seq<string>): string {
    if secrets == [] then s
    else
      var before := Passes(s, secrets[..|secrets| - 1]);
      var secret := secrets[|secrets| - 1];
      if secret == "" then before else ReplaceAll(before, secret, PLACEHOLDER)
  }

  method Redact(serialized: string, secrets: seq<string>) returns (r: string)
    ensures r == Passes(serialized, secrets)
  {
    r := serialized;
    var i := 0;
    while i < |secrets|
      invariant 0 <= i <= |secrets|
      invariant r == Passes(serialized, secrets[..i])
    {
      assert secrets[..i + 1][..i] == secrets[..i];
      if secrets[i] != "" {
        r := ReplaceAllLoop(r, secrets[i], PLACEHOLDER);
      }
      i := i + 1;
    }
    assert secrets[..i] == secrets;
  }

  // ------------------------------------------------------- what a pass means

  /** The pieces with `glue` between them. */
  ghost function Joined(pieces: seq<string>, glue: string): string
    requires pieces != []
  {
    if |pieces| == 1 then pieces[0] else pieces[0] + glue + Joined(pieces[1..], glue)
  }

  /** Between two cuts and up to the next one there is no earlier occurrence, and none after the last. */
  ghost predicate LeftmostCuts(pieces: seq<string>, secret: string)
    requires pieces != []
  {
    && (forall k, i | 0 <= k < |pieces| - 1 && 0 <= i < |pieces[k]| :: !OccursAt(pieces[k] + secret, secret, i))
    && !Contains(pieces[|pieces| - 1], secret)
  }

  lemma MorePieces(c: char, pieces: seq<string>, glue: string)
    requires pieces != []
    ensures Joined([[c] + pieces[0]] + pieces[1..], glue) == [c] + Joined(pieces, glue)
  {
    var more := [[c] + pieces[0]] + pieces[1..];
    assert more[1..] == pieces[1..];
    if |pieces| > 1 {
      assert ([c] + pieces[0]) + glue + Joined(pieces[1..], glue) == [c] + (pieces[0] + glue + Joined(pieces[1..], glue));
    }
  }

  lemma NotEarlier(s: string, c: char, piece: string, secret: string, rest: string)
    requires secret != "" && s == [c] + piece + secret + rest && !OccursAt(s, secret, 0)
    ensures !OccursAt([c] + piece + secret, secret, 0)
  {
    assert |secret| <= |[c] + piece + secret| && ([c] + piece + secret)[0..|secret|] == s[0..|secret|];
  }

  lemma NotInTail(s: string, secret: string)
    requires s != "" && !OccursAt(s, secret, 0) && !Contains(s[1..], secret)
    ensures !Contains(s, secret)
  {
    if i: nat :| OccursAt(s, secret, i) { OccursInTail(s, secret, i); }
  }

  /** The first piece grows by a character that begins no occurrence. */
  lemma GrowFirst(s: string, secret: string, pieces: seq<string>)
    requires secret != "" && s != "" && pieces != [] && Joined(pieces, secret) == s[1..]
    requires !OccursAt(s, secret, 0) && LeftmostCuts(pieces, secret)
    ensures LeftmostCuts([[s[0]] + pieces[0]] + pieces[1..], secret)
  {
    var c, more := s[0], [[s[0]] + pieces[0]] + pieces[1..];
    assert s == [c] + s[1..];
    if |pieces| == 1 {
      NotInTail(s, secret);
    } else {
      var rest := Joined(pieces[1..], secret);
      assert s == [c] + pieces[0] + secret + rest;
      NotEarlier(s, c, pieces[0], secret, rest);
      forall k, i | 0 <= k < |more| - 1 && 0 <= i < |more[k]| ensures !OccursAt(more[k] + secret, secret, i) {
        if k == 0 && i > 0 {
          assert (more[0] + secret)[1..] == pieces[0] + secret;
          assert more[0] + secret == [c] + (pieces[0] + secret);
          if OccursAt(more[0] + secret, secret, i) {
            assert (more[0] + secret)[i..i + |secret|] == (pieces[0] + secret)[i - 1..i - 1 + |secret|];
            assert OccursAt(pieces[0] + secret, secret, i - 1);
          }
        } else if k > 0 {
          assert more[k] == pieces[k];
        }
      }
    }
  }

  /** The text falls into pieces at occurrences of the secret, each cut at the first one there is, and a pass puts the
      mask where the cuts are. */
  lemma {:induction false} ReplaceAllMeaning(s: string, secret: string, mask: string) returns (pieces: seq<string>)
    requires secret != ""
    ensures pieces != [] && Joined(pieces, secret) == s && LeftmostCuts(pieces, secret)
    ensures ReplaceAll(s, secret, mask) == Joined(pieces, mask)
    decreases |s|
  {
    if |s| < |secret| {
      pieces := [s];
    } else if OccursAt(s, secret, 0) {
      var more := ReplaceAllMeaning(s[|secret|..], secret, mask);
      pieces := [""] + more;
      assert pieces[1..] == more && s == "" + secret + s[|secret|..];
      assert forall k | 1 <= k < |pieces| :: pieces[k] == more[k - 1];
    } else {
      var more := ReplaceAllMeaning(s[1..], secret, mask);
      pieces := [[s[0]] + more[0]] + more[1..];
      MorePieces(s[0], more, secret);
      MorePieces(s[0], more, mask);
      GrowFirst(s, secret, more);
      assert s == [s[0]] + s[1..];
    }
  }

  /** The secrets are gone through from first to last: what comes later works on what the earlier ones leave. */
  lemma {:induction false} PassesInOrder(s: string, first: seq<string>, later: seq<string>)
    ensures Passes(s, first + later) == Passes(Passes(s, first), later)
    decreases |later|
  {
    if later == [] {
      assert first + later == first;
    } else {
      var n := |later| - 1;
      assert (first + later)[..|first + later| - 1] == first + later[..n];
      PassesInOrder(s, first, later[..n]);
    }
  }

  /** One secret is one pass with this placeholder; the empty secret is skipped. */
  lemma OneSecret(s: string, t: string)
    ensures Passes(s, []) == s && Passes(s, [""]) == s
    ensures t != "" ==> Passes(s, [t]) == ReplaceAll(s, t, "***REDACTED***")
  {
    assert [t][..0] == [] && [""][..0] == [];
  }

  lemma {:induction false} Untouched(s: string, secret: string, mask: string)
    requires secret != "" && secret[0] !in s
    ensures ReplaceAll(s, secret, mask) == s
    decreases |s|
  {
    if |s| >= |secret| {
      assert s[0..|secret|][0] == s[0] && s[0] in s;
      Untouched(s[1..], secret, mask);
      assert s == [s[0]] + s[1..];
    }
  }

  lemma AtStart(secret: string, rest: string, mask: string)
    requires secret != "" && secret[0] !in rest
    ensures ReplaceAll(secret + rest, secret, mask) == mask + rest
  {
    assert (secret + rest)[0..|secret|] == secret && (secret + rest)[|secret|..] == rest;
    Untouched(rest, secret, mask);
  }

  /** The order matters: a shorter secret that goes first leaves the rest of a longer one. */
  lemma OrderMatters()
    ensures Passes("abc", ["ab", "abc"]) == "***REDACTED***c"
    ensures Passes("abc", ["abc", "ab"]) == "***REDACTED***"
  {
    var mask := "***REDACTED***";
    assert "abc" == "ab" + "c" && "abc" == "abc" + "" && mask + "" == mask && mask + "c" == "***REDACTED***c";
    AtStart("ab", "c", mask);
    AtStart("abc", "", mask);
    Untouched("***REDACTED***c", "abc", mask);
    Untouched(mask, "ab", mask);
    OneSecret("abc", "ab");
    OneSecret("abc", "abc");
    OneSecret("***REDACTED***c", "abc");
    OneSecret(mask, "ab");
    PassesInOrder("abc", ["ab"], ["abc"]);
    PassesInOrder("abc", ["abc"], ["ab"]);
    assert ["ab"] + ["abc"] == ["ab", "abc"] && ["abc"] + ["ab"] == ["abc", "ab"];
  }

  // ------------------------------------------------------------- completeness

  /** As far as both go, the texts are the same. */
  ghost predicate Agree(a: string, b: string) {
    forall k | 0 <= k < |a| && k < |b| :: a[k] == b[k]
  }

  /** However it is laid over a placeholder, the secret differs from it somewhere. */
  ghost predicate Apart(t: string) {
    && (forall j | 0 <= j < |t| :: !Agree(t[j..], PLACEHOLDER))
    && (forall i | 0 <= i < |PLACEHOLDER| :: !Agree(PLACEHOLDER[i..], t))
  }

  ghost predicate Clean(s: string, secrets: seq<string>) {
    forall t | t in secrets && t != "" :: !Contains(s, t)
  }

  lemma OccursInTail(s: string, t: string, i: nat)
    requires 0 < i && OccursAt(s, t, i)
    ensures i <= |s| && OccursAt(s[1..], t, i - 1)
  {
    assert s[1..][i - 1..i - 1 + |t|] == s[i..i + |t|];
  }

  lemma OccursBehind(a: string, b: string, t: string, i: nat)
    requires |a| <= i && OccursAt(a + b, t, i)
    ensures OccursAt(b, t, i - |a|)
  {
    assert (a + b)[i..i + |t|] == b[i - |a|..i - |a| + |t|];
  }

  lemma ContainsInTail(s: string, k: nat, t: string)
    requires k <= |s| && Contains(s[k..], t)
    ensures Contains(s, t)
  {
    var i: nat :| OccursAt(s[k..], t, i);
    assert s[k..][i..i + |t|] == s[k + i..k + i + |t|];
    assert OccursAt(s, t, k + i);
  }

  /** No tail of the text agrees with a placeholder. */
  ghost predicate TailsApart(t: string) {
    forall j | 0 <= j < |t| :: !Agree(t[j..], PLACEHOLDER)
  }

  lemma TailOfTail(t: string)
    requires t != "" && TailsApart(t)
    ensures !Agree(t, PLACEHOLDER) && TailsApart(t[1..])
  {
    assert t[0..] == t;
    forall j | 0 <= j < |t[1..]| ensures !Agree(t[1..][j..], PLACEHOLDER) {
      assert t[1..][j..] == t[j + 1..];
    }
  }

  lemma PrefixAgrees(a: string, rest: string, t: string)
    requires OccursAt(a + rest, t, 0)
    ensures Agree(a, t) && Agree(t, a)
  {
    var all := a + rest;
    forall k | 0 <= k < |a| && k < |t| ensures a[k] == t[k] {
      assert all[0..|t|][k] == t[k];
    }
  }

  /** Such a text at the front of a pass's output was at the front of its input. */
  lemma {:induction false} PrefixWasThere(s: string, secret: string, t: string)
    requires secret != "" && TailsApart(t) && OccursAt(ReplaceAll(s, secret, PLACEHOLDER), t, 0)
    ensures OccursAt(s, t, 0)
    decreases |s|
  {
    var r := ReplaceAll(s, secret, PLACEHOLDER);
    if t != "" && |s| >= |secret| {
      TailOfTail(t);
      if OccursAt(s, secret, 0) {
        PrefixAgrees(PLACEHOLDER, ReplaceAll(s[|secret|..], secret, PLACEHOLDER), t);
        assert false;
      }
      var rest := ReplaceAll(s[1..], secret, PLACEHOLDER);
      assert r[0..|t|] == [s[0]] + rest[0..|t| - 1];
      assert rest[0..|t| - 1] == t[1..];
      PrefixWasThere(s[1..], secret, t[1..]);
      assert s[0..|t|] == [s[0]] + s[1..][0..|t| - 1];
    }
  }

  /** A text that occurs from within a placeholder agrees with a tail of it. */
  lemma InsidePlaceholder(rest: string, t: string, i: nat)
    requires i < |PLACEHOLDER| && OccursAt(PLACEHOLDER + rest, t, i)
    ensures Agree(PLACEHOLDER[i..], t)
  {
    var all := PLACEHOLDER + rest;
    forall k | 0 <= k < |PLACEHOLDER[i..]| && k < |t| ensures PLACEHOLDER[i..][k] == t[k] {
      assert all[i..i + |t|][k] == t[k] && all[i + k] == PLACEHOLDER[i + k];
    }
  }

  /** A pass brings no text into being that is apart from the placeholder. */
  lemma {:induction false} PassCreatesNone(s: string, secret: string, t: string)
    requires secret != "" && t != "" && Apart(t)
    requires Contains(ReplaceAll(s, secret, PLACEHOLDER), t)
    ensures Contains(s, t)
    decreases |s|
  {
    var r := ReplaceAll(s, secret, PLACEHOLDER);
    var i: nat :| OccursAt(r, t, i);
    if |s| < |secret| {
    } else if OccursAt(s, secret, 0) {
      var rest := ReplaceAll(s[|secret|..], secret, PLACEHOLDER);
      if i < |PLACEHOLDER| { InsidePlaceholder(rest, t, i); }
      OccursBehind(PLACEHOLDER, rest, t, i);
      PassCreatesNone(s[|secret|..], secret, t);
      ContainsInTail(s, |secret|, t);
    } else if i == 0 {
      PrefixWasThere(s, secret, t);
    } else {
      OccursInTail(r, t, i);
      assert r[1..] == ReplaceAll(s[1..], secret, PLACEHOLDER);
      PassCreatesNone(s[1..], secret, t);
      ContainsInTail(s, 1, t);
    }
  }

  /** A pass for a secret that is apart from the placeholder leaves no occurrence of it. */
  lemma {:induction false} PassRemovesAll(s: string, t: string)
    requires t != "" && Apart(t)
    ensures !Contains(ReplaceAll(s, t, PLACEHOLDER), t)
    decreases |s|
  {
    var r := ReplaceAll(s, t, PLACEHOLDER);
    if |s| >= |t| {
      if i: nat :| OccursAt(r, t, i) {
        if OccursAt(s, t, 0) {
          var rest := ReplaceAll(s[|t|..], t, PLACEHOLDER);
          PassRemovesAll(s[|t|..], t);
          if i < |PLACEHOLDER| { InsidePlaceholder(rest, t, i); }
          OccursBehind(PLACEHOLDER, rest, t, i);
        } else {
          PassRemovesAll(s[1..], t);
          assert r[1..] == ReplaceAll(s[1..], t, PLACEHOLDER);
          if i == 0 { PrefixWasThere(s, t, t); }
          OccursInTail(r, t, i);
        }
        assert false;
      }
    }
  }

  /** A secret that is apart from the placeholder is gone after its own pass and no later one brings it back. */
  lemma {:induction false} ApartStaysAway(s: string, secrets: seq<string>, t: string)
    requires t in secrets && t != "" && Apart(t)
    ensures !Contains(Passes(s, secrets), t)
    decreases |secrets|
  {
    var init, last := secrets[..|secrets| - 1], secrets[|secrets| - 1];
    var before, after := Passes(s, init), Passes(s, secrets);
    if t == last {
      PassRemovesAll(before, t);
    } else {
      ApartStaysAway(s, init, t);
      if last != "" && Contains(after, t) { PassCreatesNone(before, last, t); }
    }
  }

  /** The secret contains one of the list that is apart from the placeholder; it may be that one. */
  ghost predicate Covered(secrets: seq<string>, t: string) {
    exists a :: a in secrets && a != "" && Apart(a) && Contains(t, a)
  }

  /** If every secret is or contains one that is apart from the placeholder, the output contains no secret, whatever the
      text and whatever the order of the secrets. */
  lemma RedactionIsComplete(s: string, secrets: seq<string>)
    requires forall t | t in secrets && t != "" :: Apart(t) || Covered(secrets, t)
    ensures Clean(Passes(s, secrets), secrets)
  {
    var out := Passes(s, secrets);
    forall t | t in secrets && t != "" ensures !Contains(out, t) {
      if Apart(t) {
        ApartStaysAway(s, secrets, t);
      } else {
        var a :| a in secrets && a != "" && Apart(a) && Contains(t, a);
        ApartStaysAway(s, secrets, a);
        if Contains(out, t) { ContainsTransitive(out, t, a); }
      }
    }
  }

  // ------------------------------------------- exact condition for one secret

  lemma Shorter(s: string, t: string)
    requires t != "" && |s| < |t|
    ensures ReplaceAll(s, t, PLACEHOLDER) == s
  {
  }

  /** A tail of the placeholder agrees with the secret: the secret, followed by what is left of it, puts it back. */
  lemma TailRestores(t: string, i: nat) returns (s: string)
    requires t != "" && i < |PLACEHOLDER| && Agree(PLACEHOLDER[i..], t)
    ensures Contains(ReplaceAll(s, t, PLACEHOLDER), t)
  {
    var k := if |PLACEHOLDER| - i < |t| then |PLACEHOLDER| - i else |t|;
    s := t + t[k..];
    assert s[..|t|] == t && s[|t|..] == t[k..] && OccursAt(s, t, 0);
    Shorter(t[k..], t);
    var r := ReplaceAll(s, t, PLACEHOLDER);
    assert r == PLACEHOLDER + t[k..];
    forall m | 0 <= m < |t| ensures r[i + m] == t[m] {
      if m < k { assert PLACEHOLDER[i..][m] == t[m]; }
    }
    assert r[i..i + |t|] == t;
    assert OccursAt(r, t, i);
  }

  lemma OccursLater(s: string, t: string, m: nat)
    requires s != "" && OccursAt(s[1..], t, m)
    ensures OccursAt(s, t, m + 1)
  {
    assert s[m + 1..m + 1 + |t|] == s[1..][m..m + |t|];
  }

  lemma CopyOne(s: string, t: string)
    requires t != "" && |s| >= |t| && !OccursAt(s, t, 0)
    ensures ReplaceAll(s, t, PLACEHOLDER) == [s[0]] + ReplaceAll(s[1..], t, PLACEHOLDER)
  {
  }

  /** The text before the first occurrence is copied. */
  lemma {:induction false} CopiesBefore(u: string, rest: string, t: string)
    requires t != "" && |rest| >= |t| && forall m | 0 <= m < |u| :: !OccursAt(u + rest, t, m)
    ensures ReplaceAll(u + rest, t, PLACEHOLDER) == u + ReplaceAll(rest, t, PLACEHOLDER)
    decreases |u|
  {
    var s, tail := u + rest, ReplaceAll(rest, t, PLACEHOLDER);
    if u == "" {
      assert s == rest && u + tail == tail;
    } else {
      assert s[1..] == u[1..] + rest;
      forall m | 0 <= m < |u[1..]| ensures !OccursAt(u[1..] + rest, t, m) {
        if OccursAt(s[1..], t, m) { OccursLater(s, t, m); }
      }
      CopiesBefore(u[1..], rest, t);
      CopyOne(s, t);
      assert [s[0]] + (u[1..] + tail) == u + tail;
    }
  }

  /** In t[..j] + t the secret does not occur before j, unless its j-th character is its first. */
  lemma FirstAtJ(t: string, j: nat, w: string, m: nat)
    requires 0 < j < |t| && m < j
    ensures OccursAt(t[..j] + (t + w), t, m) ==> t[j] == t[0]
  {
    var s := t[..j] + (t + w);
    if OccursAt(s, t, m) {
      assert s[m..m + |t|][0] == t[0] && s[m] == t[m];
      assert s[m..m + |t|][j] == t[j] && s[m + j] == t[m];
    }
  }

  /** What redaction makes of it. */
  lemma RedactedAtJ(t: string, j: nat, w: string)
    requires 0 < j < |t| && t[j] != t[0] && |w| < |t|
    ensures ReplaceAll(t[..j] + (t + w), t, PLACEHOLDER) == t[..j] + (PLACEHOLDER + w)
  {
    forall m | 0 <= m < |t[..j]| ensures !OccursAt(t[..j] + (t + w), t, m) { FirstAtJ(t, j, w, m); }
    CopiesBefore(t[..j], t + w, t);
    RedactedFirst(t, w);
  }

  lemma RedactedFirst(t: string, w: string)
    requires t != "" && |w| < |t|
    ensures ReplaceAll(t + w, t, PLACEHOLDER) == PLACEHOLDER + w
  {
    assert (t + w)[..|t|] == t && (t + w)[|t|..] == w && OccursAt(t + w, t, 0);
    Shorter(w, t);
  }

  lemma Rebuilt(t: string, j: nat, w: string)
    requires j < |t| && Agree(t[j..], PLACEHOLDER)
    requires w == if |t| - j > |PLACEHOLDER| then t[j + |PLACEHOLDER|..] else ""
    ensures OccursAt(t[..j] + (PLACEHOLDER + w), t, 0)
  {
    var r := t[..j] + (PLACEHOLDER + w);
    forall m | 0 <= m < |t| ensures r[m] == t[m] {
      if j <= m < j + |PLACEHOLDER| { assert t[j..][m - j] == PLACEHOLDER[m - j]; }
    }
    assert r[0..|t|] == t;
  }

  /** A tail of the secret agrees with the placeholder: the text before it, followed by the secret, puts it back. */
  lemma HeadRestores(t: string, j: nat) returns (s: string)
    requires 0 < j < |t| && Agree(t[j..], PLACEHOLDER) && t[0] != '*'
    ensures Contains(ReplaceAll(s, t, PLACEHOLDER), t)
  {
    var w := if |t| - j > |PLACEHOLDER| then t[j + |PLACEHOLDER|..] else "";
    assert t[j..][0] == PLACEHOLDER[0] == '*';
    RedactedAtJ(t, j, w);
    Rebuilt(t, j, w);
    s := t[..j] + (t + w);
  }

  lemma NotApartSurvives(t: string) returns (s: string)
    requires t != "" && !Apart(t)
    ensures Contains(ReplaceAll(s, t, PLACEHOLDER), t)
  {
    if i: nat :| i < |PLACEHOLDER| && Agree(PLACEHOLDER[i..], t) {
      s := TailRestores(t, i);
    } else {
      var j :| 0 <= j < |t| && Agree(t[j..], PLACEHOLDER);
      assert PLACEHOLDER[0..] == PLACEHOLDER && t[0..] == t;
      assert PLACEHOLDER[|PLACEHOLDER| - 1..] == "*";
      assert !Agree(PLACEHOLDER[0..], t) && !Agree(PLACEHOLDER[|PLACEHOLDER| - 1..], t);
      s := HeadRestores(t, j);
    }
  }

  ghost predicate Removes(t: string, s: string)
    requires t != ""
  {
    !Contains(ReplaceAll(s, t, PLACEHOLDER), t)
  }

  /** Redacting one secret leaves no occurrence of it, whatever the text, if and only if it is apart from the placeholder. */
  lemma OneSecretIff(t: string)
    requires t != ""
    ensures (forall s :: Removes(t, s)) <==> Apart(t)
  {
    if Apart(t) {
      forall s ensures Removes(t, s) { PassRemovesAll(s, t); }
    } else {
      var s := NotApartSurvives(t);
      assert !Removes(t, s);
    }
  }

  /** The same for the whole function, called with that one secret. */
  lemma RedactOneIff(t: string)
    requires t != ""
    ensures (forall s :: Clean(Passes(s, [t]), [t])) <==> Apart(t)
  {
    OneSecretIff(t);
    if forall s :: Clean(Passes(s, [t]), [t]) {
      forall s ensures Removes(t, s) {
        assert Clean(Passes(s, [t]), [t]);
        OnePass(s, t);
      }
    } else {
      var s :| !Clean(Passes(s, [t]), [t]);
      OnePass(s, t);
      assert !Removes(t, s);
    }
  }

  lemma OnePass(s: string, t: string)
    requires t != ""
    ensures Clean(Passes(s, [t]), [t]) <==> Removes(t, s)
  {
    assert [t][..0] == [] && t in [t];
    assert Passes(s, [t]) == ReplaceAll(s, t, PLACEHOLDER);
  }

  // ------------------------------------------------------- secrets without a star

  predicate StarFree(t: string) {
    '*' !in t
  }

  /** Without a star, being apart from the placeholder is not being part of its letters. */
  lemma StarFreeApartIff(t: string)
    requires t != "" && StarFree(t)
    ensures Apart(t) <==> !Contains(CORE, t)
  {
    assert PLACEHOLDER == "***" + CORE + "***" && |CORE| == 8;
    forall j | 0 <= j < |t| ensures !Agree(t[j..], PLACEHOLDER) {
      assert t[j] in t && t[j..][0] == t[j];
    }
    if Contains(CORE, t) {
      var i: nat :| OccursAt(CORE, t, i);
      forall k | 0 <= k < |PLACEHOLDER[i + 3..]| && k < |t| ensures PLACEHOLDER[i + 3..][k] == t[k] {
        assert CORE[i..i + |t|][k] == t[k];
      }
      assert Agree(PLACEHOLDER[i + 3..], t);
    } else {
      forall i | 0 <= i < |PLACEHOLDER| ensures !Agree(PLACEHOLDER[i..], t) { CoreOrApart(t, i); }
    }
  }

  lemma PlaceholderShape()
    ensures |PLACEHOLDER| == 14 && |CORE| == 8
    ensures forall p | 0 <= p < 14 :: PLACEHOLDER[p] == if 3 <= p < 11 then CORE[p - 3] else '*'
  {
    assert PLACEHOLDER == "***" + CORE + "***";
  }

  /** A star-free text that agrees with a tail of the placeholder starts and ends within its letters ... */
  lemma WithinLetters(mask: string, t: string, i: nat)
    requires |mask| == 14 && i < 14 && (forall p | 0 <= p < 14 && !(3 <= p < 11) :: mask[p] == '*')
    requires t != "" && StarFree(t) && Agree(mask[i..], t)
    ensures 3 <= i && i + |t| <= 11
  {
    assert mask[i..][0] == t[0] && t[0] in t;
    StarEnds(mask, t, i);
  }

  lemma StarEnds(mask: string, t: string, i: nat)
    requires |mask| == 14 && mask[11] == '*' && i < 11
    ensures Agree(mask[i..], t) && |t| > 11 - i ==> '*' in t
  {
    if Agree(mask[i..], t) && |t| > 11 - i {
      assert mask[i..][11 - i] == t[11 - i];
      assert t[11 - i] in t;
    }
  }

  /** ... so it is part of them. */
  lemma CoreOrApart(t: string, i: nat)
    requires t != "" && StarFree(t) && i < |PLACEHOLDER|
    ensures Agree(PLACEHOLDER[i..], t) ==> Contains(CORE, t)
  {
    if Agree(PLACEHOLDER[i..], t) {
      PlaceholderShape();
      WithinLetters(PLACEHOLDER, t, i);
      InLetters(PLACEHOLDER, CORE, t, i);
    }
  }

  lemma InLetters(mask: string, core: string, t: string, i: nat)
    requires |mask| == 14 && |core| == 8 && 3 <= i && i + |t| <= 11 && Agree(mask[i..], t)
    requires forall p | 3 <= p < 11 :: mask[p] == core[p - 3]
    ensures Contains(core, t)
  {
    forall k | 0 <= k < |t| ensures core[i - 3 + k] == t[k] { assert mask[i..][k] == t[k]; }
    assert core[i - 3..i - 3 + |t|] == t;
    assert OccursAt(core, t, i - 3);
  }

  lemma ContainsTransitive(a: string, b: string, c: string)
    requires Contains(a, b) && Contains(b, c)
    ensures Contains(a, c)
  {
    var i: nat :| OccursAt(a, b, i);
    var j: nat :| OccursAt(b, c, j);
    forall k | 0 <= k < |c| ensures a[i + j + k] == c[k] {
      assert a[i..i + |b|][j + k] == b[j + k] && b[j..j + |c|][k] == c[k];
    }
    assert a[i + j..i + j + |c|] == c;
    assert OccursAt(a, c, i + j);
  }

  lemma PlaceholderShowsCore(rest: string)
    ensures Contains(PLACEHOLDER + rest, CORE)
  {
    assert (PLACEHOLDER + rest)[3..3 + |CORE|] == CORE;
    assert OccursAt(PLACEHOLDER + rest, CORE, 3);
  }

  /** A pass that finds its secret leaves a whole placeholder; one that does not leaves the text. */
  lemma {:induction false} PassMarksOrKeeps(s: string, secret: string)
    requires secret != ""
    ensures Contains(s, secret) ==> Contains(ReplaceAll(s, secret, PLACEHOLDER), CORE)
    ensures !Contains(s, secret) ==> ReplaceAll(s, secret, PLACEHOLDER) == s
    decreases |s|
  {
    if |s| >= |secret| {
      if OccursAt(s, secret, 0) {
        PlaceholderShowsCore(ReplaceAll(s[|secret|..], secret, PLACEHOLDER));
      } else {
        var r := ReplaceAll(s, secret, PLACEHOLDER);
        PassMarksOrKeeps(s[1..], secret);
        assert r[1..] == ReplaceAll(s[1..], secret, PLACEHOLDER);
        if i: nat :| OccursAt(s, secret, i) {
          OccursInTail(s, secret, i);
          ContainsInTail(r, 1, CORE);
        } else if Contains(s[1..], secret) {
          ContainsInTail(s, 1, secret);
        }
      }
    }
  }

  /** A secret that is part of the placeholder's letters is put back by its own redaction. */
  lemma {:induction false} CoreSecretSurvives(t: string, secrets: seq<string>)
    requires t != "" && Contains(CORE, t)
    ensures var r := Passes(t, secrets);
      (r == t || Contains(r, CORE)) && (t in secrets ==> Contains(r, CORE))
    decreases |secrets|
  {
    if secrets != [] {
      var init, last := secrets[..|secrets| - 1], secrets[|secrets| - 1];
      var before := Passes(t, init);
      CoreSecretSurvives(t, init);
      assert OccursAt(t, t, 0);
      if Contains(before, CORE) { ContainsTransitive(before, CORE, t); }
      if last != "" { PassMarksOrKeeps(before, last); }
      assert t in secrets ==> t == last || t in init;
    }
  }

  /** For lists of secrets without a star the side condition is exact: every text comes out clean if and only if
      no secret is part of the placeholder's letters. */
  lemma StarFreeRedactionIff(secrets: seq<string>)
    requires forall t | t in secrets :: StarFree(t)
    ensures (forall s :: Clean(Passes(s, secrets), secrets))
       <==> (forall t | t in secrets && t != "" :: !Contains(CORE, t))
  {
    if forall t | t in secrets && t != "" :: !Contains(CORE, t) {
      forall t | t in secrets && t != "" ensures Apart(t) { StarFreeApartIff(t); }
      forall s ensures Clean(Passes(s, secrets), secrets) {
        RedactionIsComplete(s, secrets);
      }
    } else {
      var t :| t in secrets && t != "" && Contains(CORE, t);
      CoreSecretSurvives(t, secrets);
      ContainsTransitive(Passes(t, secrets), CORE, t);
      assert !Clean(Passes(t, secrets), secrets);
    }
  }

  /** A star alone does not matter: this secret has one and is always removed, that one can survive. */
  lemma StarsCanBeApart()
    ensures Apart("a*b") && !Apart("a*")
  {
    assert "a*b"[0] == 'a' && "a*b"[1] == '*' && "a*b"[2] == 'b';
    forall j | 0 <= j < 3 ensures !Agree("a*b"[j..], PLACEHOLDER) {
      assert "a*b"[1..][1] == 'b' && "a*b"[1..][0] == '*' && PLACEHOLDER[1] == '*';
      assert j == 1 ==> "a*b"[j..][1] != PLACEHOLDER[1];
      assert j != 1 ==> "a*b"[j..][0] != PLACEHOLDER[0];
    }
    forall i | 0 <= i < |PLACEHOLDER| ensures !Agree(PLACEHOLDER[i..], "a*b") {
      assert PLACEHOLDER[i..][0] == PLACEHOLDER[i] != 'a';
    }
    assert "a*"[1..] == "*" && Agree("a*"[1..], PLACEHOLDER);
  }
}
