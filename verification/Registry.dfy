// The replica's gateway registry: a map of mutable gateway entries, changed in
// place under one lock. Each method is proved against the registry transition
// that the protocol model uses.
module Registry {
  import opened HubModel
  import opened HubChannels

  datatype RegistryError = NoError | GatewayNotFound | GatewayAlreadyExists | SubscriberNotFound

  class GatewayEntry {
    const id: GatewayId
    var subscribers: seq<ChanId>
    var knownVersion: Version
    var lastPolled: int

    constructor (id: GatewayId)
      ensures this.id == id && View() == Gateway([], "", 0)
    {
      this.id := id;
      subscribers, knownVersion, lastPolled := [], "", 0;
    }

    function View(): Gateway
      reads this
    {
      Gateway(subscribers, knownVersion, lastPolled)
    }

    /** Moves the last subscriber into the place of the one that goes; an empty list resets the known version. */
    method RemoveAt(i: nat)
      requires i < |subscribers|
      modifies this
      ensures View() == Removed(old(View()), i)
    {
      var last := |subscribers| - 1;
      subscribers := subscribers[i := subscribers[last]];
      subscribers := subscribers[..last];
      if |subscribers| == 0 {
        knownVersion := "";
      }
    }

    /** Stores where a poll ended: the last delivered timestamp and, unless it was blocked, the version. */
    method StorePoll(version: Version, since: int, delivered: seq<Event>, blocked: bool)
      modifies this
      ensures View() == Written(old(View()), version, since, delivered, blocked)
      ensures EndsPoll(old(View()), version, since, delivered, blocked, View())
    {
      if blocked {
        if |delivered| > 0 {
          lastPolled := delivered[|delivered| - 1].processed;
        } else {
          lastPolled := since;
        }
      } else {
        knownVersion := version;
        if |delivered| > 0 {
          lastPolled := delivered[|delivered| - 1].processed;
        }
      }
    }
  }

  /** The first place of the channel on the list, or its length. */
  method Position(list: seq<ChanId>, c: ChanId) returns (i: nat)
    ensures i == IndexOf(list, c)
  {
    i := 0;
    while i < |list|
      invariant 0 <= i <= |list| && forall k | 0 <= k < i :: list[k] != c
    {
      if list[i] == c {
        return;
      }
      i := i + 1;
    }
  }

  /** One subscriber less, the same cursor, and the known version unless nobody is left. */
  ghost predicate OneLess(gw: Gateway, c: ChanId, gw': Gateway) {
    && multiset(gw'.subscribers) == multiset(gw.subscribers) - multiset{c}
    && gw'.lastPolled == gw.lastPolled
    && gw'.knownVersion == if |gw.subscribers| == 1 then "" else gw.knownVersion
  }

  /** The last one takes the place of the one that goes, and the others keep theirs. */
  ghost predicate LastMoves(list: seq<ChanId>, i: nat, list': seq<ChanId>)
    requires i < |list|
  {
    && |list'| == |list| - 1
    && forall k | 0 <= k < |list'| :: list'[k] == if k == i then list[|list| - 1] else list[k]
  }

  lemma RemovedLeaves(gw: Gateway, i: nat)
    requires i < |gw.subscribers|
    ensures OneLess(gw, gw.subscribers[i], Removed(gw, i)) && LastMoves(gw.subscribers, i, Removed(gw, i).subscribers)
  {
    SwapRemoveCount(gw.subscribers, i);
  }

  class GatewayRegistry {
    var gateways: map<GatewayId, GatewayEntry>

    /** Every entry sits under its own id, so no two ids share an entry. */
    ghost predicate Valid()
      reads this, gateways.Values
    {
      forall g | g in gateways :: gateways[g].id == g
    }

    ghost function View(): (v: Gateways)
      reads this, gateways.Values
    {
      map g | g in gateways :: gateways[g].View()
    }

    constructor ()
      ensures Valid() && gateways == map[] && View() == map[]
    {
      gateways := map[];
    }

    method Register(id: GatewayId) returns (err: RegistryError)
      requires Valid()
      modifies this
      ensures Valid() && fresh(gateways.Values - old(gateways.Values)) && old(gateways.Keys) <= gateways.Keys
      ensures err == if id in old(View()) then GatewayAlreadyExists else NoError
      ensures View() == if id in old(View()) then old(View()) else old(View())[id := Gateway([], "", 0)]
    {
      if id in gateways {
        return GatewayAlreadyExists;
      }
      var entry := new GatewayEntry(id);
      gateways := gateways[id := entry];
      return NoError;
    }

    method AddSubscriber(id: GatewayId, ch: ChanId) returns (err: RegistryError)
      requires Valid()
      modifies gateways.Values
      ensures Valid() && gateways == old(gateways)
      ensures err == if id in old(View()) then NoError else GatewayNotFound
      ensures View() == if id !in old(View()) then old(View())
                        else var gw := old(View())[id]; old(View())[id := gw.(subscribers := gw.subscribers + [ch])]
    {
      if id !in gateways {
        return GatewayNotFound;
      }
      var gw := gateways[id];
      gw.subscribers := gw.subscribers + [ch];
      return NoError;
    }

    method RemoveFrom(id: GatewayId, i: nat)
      requires Valid() && id in gateways && i < |gateways[id].subscribers|
      modifies gateways[id]
      ensures Valid() && View() == old(View())[id := Removed(old(View())[id], i)]
    {
      gateways[id].RemoveAt(i);
    }

    /** Takes one channel off the list by moving the last one into its place; a list that
        becomes empty resets the known version and keeps the cursor. */
    method RemoveSubscriber(id: GatewayId, subscriber: ChanId) returns (err: RegistryError)
      requires Valid()
      modifies gateways.Values
      ensures Valid() && gateways == old(gateways)
      ensures err == if id !in old(View()) then GatewayNotFound
                     else if subscriber !in old(View())[id].subscribers then SubscriberNotFound else NoError
      ensures View() == if err != NoError then old(View())
                        else var gw := old(View())[id];
                             old(View())[id := Removed(gw, IndexOf(gw.subscribers, subscriber))]
      ensures err == NoError ==> OneLess(old(View())[id], subscriber, View()[id])
      ensures err == NoError ==>
        var list := old(View())[id].subscribers; LastMoves(list, IndexOf(list, subscriber), View()[id].subscribers)
    {
      if id !in gateways {
        return GatewayNotFound;
      }
      var i := Position(gateways[id].subscribers, subscriber);
      if i == |gateways[id].subscribers| {
        return SubscriberNotFound;
      }
      ghost var before := gateways[id].View();
      RemovedLeaves(before, i);
      RemoveFrom(id, i);
      assert View()[id] == Removed(before, i);
      return NoError;
    }

    method RemoveAllSubscribers(id: GatewayId) returns (removed: seq<ChanId>, err: RegistryError)
      requires Valid()
      modifies gateways.Values
      ensures Valid() && gateways == old(gateways)
      ensures err == if id in old(View()) then NoError else GatewayNotFound
      ensures removed == if id in old(View()) then old(View())[id].subscribers else []
      ensures View() == if id !in old(View()) then old(View())
                        else var gw := old(View())[id]; old(View())[id := gw.(subscribers := [], knownVersion := "")]
    {
      if id !in gateways {
        return [], GatewayNotFound;
      }
      var gw := gateways[id];
      removed := gw.subscribers;
      gw.subscribers := [];
      gw.knownVersion := "";
      return removed, NoError;
    }

    method StorePoll(id: GatewayId, version: Version, since: int, delivered: seq<Event>, blocked: bool)
      requires Valid() && id in gateways
      modifies gateways[id]
      ensures Valid()
      ensures View() == old(View())[id := Written(old(View())[id], version, since, delivered, blocked)]
      ensures EndsPoll(old(View())[id], version, since, delivered, blocked, View()[id])
    {
      gateways[id].StorePoll(version, since, delivered, blocked);
    }

    /** Empties one list when the hub shuts down; the known version is left as it is. */
    method ClearSubscribers(id: GatewayId)
      requires Valid() && id in gateways
      modifies gateways[id]
      ensures Valid() && View() == old(View())[id := old(View())[id].(subscribers := [])]
    {
      gateways[id].subscribers := [];
    }

    /** All ids, each once, in whatever order the map is visited. */
    method GetAll() returns (ids: seq<GatewayId>)
      requires Valid()
      ensures NoDup(ids) && forall g :: g in ids <==> g in View()
    {
      ids := [];
      var left := gateways.Keys;
      while left != {}
        invariant left <= gateways.Keys
        invariant NoDup(ids) && forall g :: g in ids <==> g in gateways && g !in left
        decreases left
      {
        var g :| g in left;
        left := left - {g};
        ids := ids + [g];
      }
    }
  }
}
