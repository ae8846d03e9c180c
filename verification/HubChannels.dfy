// What the loops over subscriber lists compute, in closed form: closing a list and
// taking one channel off it.
module HubChannels {
  import opened HubModel

  ghost function Closed(channels: Channels, cs: seq<ChanId>): Channels {
    map c | c in channels :: if c in cs then channels[c].(closed := true) else channels[c]
  }

  lemma {:induction false} CloseAllCloses(channels: Channels, cs: seq<ChanId>)
    requires NoDup(cs) && forall c | c in cs :: c in channels && !channels[c].closed
    ensures CloseAll(channels, cs) == Sends(Closed(channels, cs), false)
    decreases |cs|
  {
    if cs == [] {
      assert Closed(channels, cs) == channels;
    } else {
      var channels1 := CloseOne(channels, cs[0]).channels;
      assert forall c | c in cs[1..] :: c in cs && c != cs[0];
      CloseAllCloses(channels1, cs[1..]);
      assert forall c :: c in cs <==> c == cs[0] || c in cs[1..];
      assert Closed(channels1, cs[1..]) == Closed(channels, cs);
    }
  }

  /** Exactly these channels are closed; otherwise nothing happens to any channel. */
  ghost predicate OnlyCloses(channels: Channels, cs: set<ChanId>, channels': Channels) {
    && channels'.Keys == channels.Keys
    && forall c | c in channels ::
         && channels'[c].closed == (channels[c].closed || c in cs)
         && channels'[c].owner == channels[c].owner
         && channels'[c].buffer == channels[c].buffer && channels'[c].sent == channels[c].sent
  }

  lemma {:induction false} CloseAllOnlyCloses(channels: Channels, cs: seq<ChanId>)
    ensures OnlyCloses(channels, (set c | c in cs), CloseAll(channels, cs).channels)
    decreases |cs|
  {
    if cs != [] {
      CloseAllOnlyCloses(CloseOne(channels, cs[0]).channels, cs[1..]);
      assert forall c :: c in cs <==> c == cs[0] || c in cs[1..];
    }
  }

  lemma SwapRemoveCount(s: seq<ChanId>, i: nat)
    requires i < |s|
    ensures multiset(SwapRemove(s, i)) == multiset(s) - multiset{s[i]}
  {
    var n := |s| - 1;
    if i == n {
      assert s == s[..n] + [s[n]] && SwapRemove(s, i) == s[..n];
    } else {
      assert s == s[..i] + [s[i]] + s[i + 1..n] + [s[n]];
      assert SwapRemove(s, i) == s[..i] + [s[n]] + s[i + 1..n];
    }
  }

  /** Taking one element out by swapping the last one in leaves exactly the other elements. */
  lemma SwapRemoveRemoves(s: seq<ChanId>, i: nat)
    requires NoDup(s) && i < |s|
    ensures NoDup(SwapRemove(s, i))
    ensures forall c :: c in SwapRemove(s, i) <==> c in s && c != s[i]
  {
    var r := SwapRemove(s, i);
    forall c | c in s && c != s[i] ensures c in r {
      var k :| 0 <= k < |s| && s[k] == c;
      if k == |s| - 1 { assert r[i] == c; } else { assert r[k] == c; }
    }
    forall c | c in r ensures c in s && c != s[i] {
      var k :| 0 <= k < |r| && r[k] == c;
    }
  }
}
