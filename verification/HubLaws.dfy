// What single operations of the hub amount to, stated in the caller's terms: which
// rows a poll fetches, when it is skipped, who holds an open channel, and what
// deleting and receiving take away.
module HubLaws {
  import opened Timestamps
  import opened HubModel
  import opened HubChannels
  import opened HubInvariant
  import opened HubDelivery
  import opened HubHandOuts

  // -------------------------------------------------------- what a poll looks at

  /** A row of the page is polled exactly if its gateway is registered and somebody is subscribed, and its version is not
      empty and not the known one; either way it is off the page. */
  lemma PolledIff(s: State, now: int)
    requires Enabled(s, Snapshot(now))
    ensures var t, row := Apply(s, Snapshot(now)), s.page[0];
      && s.page == [row] + t.page && t == s.(page := t.page, poll := t.poll)
      && (t.poll.Idle? || (t.poll.Snapped? && t.poll.id == row.id && t.poll.version == row.version))
      && (t.poll.Snapped? <==>
            && row.id in s.gateways && s.gateways[row.id].subscribers != []
            && row.version != "" && row.version != s.gateways[row.id].knownVersion)
  {
    assert Apply(s, Snapshot(now)) == DoSnapshot(s, now);
  }

  ghost predicate NewVersion(s: State, g: GatewayId, version: Version) {
    && s.poll.Idle? && s.page != [] && s.page[0] == PageRow(g, version)
    && g in s.gateways && s.gateways[g].subscribers != []
    && version != "" && version != s.gateways[g].knownVersion
  }

  ghost function SnapThenFetch(s: State, now: int, result: seq<Event>): State {
    Apply(Apply(s, Snapshot(now)), Fetch(result))
  }

  /** The first poll of a gateway fetches exactly what was stamped in the last 120 seconds. */
  lemma FirstPollFetches(s: State, now: int, g: GatewayId, version: Version, result: seq<Event>)
    requires Inv(s) && NewVersion(s, g, version) && ClockRange(now) && s.gateways[g].lastPolled == 0
    requires Enabled(Apply(s, Snapshot(now)), Fetch(result))
    ensures var t := SnapThenFetch(s, now, result);
      && t.poll.Fetched? && t.poll.id == g && t.poll.version == version
      && TimeOrdered(t.poll.batch) && NoDup(t.poll.batch)
      && (forall e :: e in t.poll.batch <==>
            e in s.rows && e.gatewayId == g && e.processed >= now - 120_000_000_000)
  {
  }

  lemma TrimKeeps(rows: set<Event>, g: GatewayId, boundary: int, result: seq<Event>, e: Event)
    requires IsQueryResult(rows, g, boundary, result)
    ensures e in TrimSingleBoundaryReplay(result, boundary, true) <==>
      && e in rows && e.gatewayId == g
      && (e.processed > boundary || (e.processed == boundary && HasTwin(rows, e)))
  {
    var batch := TrimSingleBoundaryReplay(result, boundary, true);
    if batch != result {
      assert result[0] in result && batch == result[1..];
      assert forall x :: x in result <==> x == result[0] || x in batch;
      forall f | f in rows && f.gatewayId == g && f.processed == boundary ensures f == result[0] {
        TrimmedIsAlone(rows, g, boundary, result, f);
      }
      assert result[0] !in batch;
    } else if e in result && e.processed == boundary {
      NotTrimmed(rows, g, boundary, result, e);
    }
  }

  /** If nothing is trimmed, a row at the boundary is not alone there. */
  lemma NotTrimmed(rows: set<Event>, g: GatewayId, boundary: int, result: seq<Event>, e: Event)
    requires IsQueryResult(rows, g, boundary, result) && TrimSingleBoundaryReplay(result, boundary, true) == result
    requires e in result && e.processed == boundary
    ensures HasTwin(rows, e)
  {
    var k :| 0 <= k < |result| && result[k] == e;
    assert result[0] in result && result[0].processed == boundary;
    assert |result| > 1 && result[1] in result;
    assert result[0] != result[1];
  }

  lemma SnapsAt(s: State, now: int, g: GatewayId, version: Version)
    requires NewVersion(s, g, version) && ClockRange(now)
    ensures var t, gw := Apply(s, Snapshot(now)), s.gateways[g];
      t.poll == Snapped(g, version, WindowStart(gw, now), gw.lastPolled > 0) && t.rows == s.rows
  {
  }

  lemma LaterPollFrom(s: State, now: int, g: GatewayId, version: Version, result: seq<Event>)
    requires Inv(s) && NewVersion(s, g, version) && ClockRange(now) && s.gateways[g].lastPolled != 0
    requires Enabled(Apply(s, Snapshot(now)), Fetch(result))
    ensures var cursor := s.gateways[g].lastPolled;
      && IsQueryResult(s.rows, g, cursor, result)
      && SnapThenFetch(s, now, result).poll
         == Fetched(g, version, cursor, true, TrimSingleBoundaryReplay(result, cursor, true))
  {
    SnapsAt(s, now, g, version);
    CursorInRange(s, g);
    CursorRoundTrip(s.gateways[g].lastPolled);
  }

  /** A later poll fetches exactly what is at the cursor or after it, but for a row that is alone at the cursor. */
  lemma LaterPollFetches(s: State, now: int, g: GatewayId, version: Version, result: seq<Event>)
    requires Inv(s) && NewVersion(s, g, version) && ClockRange(now) && s.gateways[g].lastPolled != 0
    requires Enabled(Apply(s, Snapshot(now)), Fetch(result))
    ensures var t, cursor := SnapThenFetch(s, now, result), s.gateways[g].lastPolled;
      && t.poll.Fetched? && t.poll.id == g && t.poll.version == version
      && (forall e :: e in t.poll.batch <==>
            && e in s.rows && e.gatewayId == g
            && (e.processed > cursor || (e.processed == cursor && HasTwin(s.rows, e))))
  {
    LaterPollFrom(s, now, g, version, result);
    forall e ensures e in TrimSingleBoundaryReplay(result, s.gateways[g].lastPolled, true) <==>
      && e in s.rows && e.gatewayId == g
      && (e.processed > s.gateways[g].lastPolled || (e.processed == s.gateways[g].lastPolled && HasTwin(s.rows, e)))
    {
      TrimKeeps(s.rows, g, s.gateways[g].lastPolled, result, e);
    }
  }

  /** With consumers that keep receiving, a first poll brings everything of the last 120 seconds to the subscribers. */
  lemma FirstPollDelivers(s: State, now: int, g: GatewayId, version: Version, result: seq<Event>)
    returns (during: seq<Step>)
    requires Inv(s) && NewVersion(s, g, version) && ClockRange(now) && s.gateways[g].lastPolled == 0
    requires Enabled(Apply(s, Snapshot(now)), Fetch(result))
    ensures OnlyLoopOrReceive(during)
    ensures var t := Apply(Run(Apply(SnapThenFetch(s, now, result), HandOut), during), WriteBack);
      && g in t.gateways && t.gateways[g].knownVersion == version
      && forall e | e in s.rows && e.gatewayId == g && e.processed >= now - 120_000_000_000 :: e in Received(t.log)
  {
    FirstPollFetches(s, now, g, version, result);
    StepKeepsInv(s, Snapshot(now));
    StepKeepsInv(Apply(s, Snapshot(now)), Fetch(result));
    SnapThenFetchLeaves(s, now, result);
    during := BatchDelivers(SnapThenFetch(s, now, result));
  }

  lemma SnapThenFetchLeaves(s: State, now: int, result: seq<Event>)
    requires Enabled(s, Snapshot(now)) && Enabled(Apply(s, Snapshot(now)), Fetch(result))
    ensures SnapThenFetch(s, now, result).gateways == s.gateways
  {
    PolledIff(s, now);
    var t := Apply(s, Snapshot(now));
    assert SnapThenFetch(s, now, result) == DoFetch(t, result);
  }

  lemma BatchDelivers(f: State) returns (during: seq<Step>)
    requires Inv(f) && f.poll.Fetched? && f.poll.id in f.gateways && f.gateways[f.poll.id].subscribers != []
    ensures OnlyLoopOrReceive(during)
    ensures var t := Apply(Run(Apply(f, HandOut), during), WriteBack);
      && f.poll.id in t.gateways && t.gateways[f.poll.id].knownVersion == f.poll.version
      && forall e | e in f.poll.batch :: e in Received(t.log)
  {
    LockApplies(f);
    during := WholeBatch(f);
    WriteBackEnds(f, Run(DoHandOut(f), during));
  }

  lemma WholeBatch(f: State) returns (during: seq<Step>)
    requires Inv(f) && f.poll.Fetched? && f.poll.id in f.gateways
    ensures OnlyLoopOrReceive(during)
    ensures var u := Run(DoHandOut(f), during); InHandOut(f, u) && u.poll.HandedOut? && !u.poll.blocked
  {
    StepKeepsInv(f, HandOut);
    LockApplies(f);
    during := Completed(DoHandOut(f));
    HandOutBegins(f);
    HandOutGoesOn(f, DoHandOut(f), during);
  }

  lemma WriteBackEnds(f: State, u: State)
    requires InHandOut(f, u) && u.poll.HandedOut? && !u.poll.blocked && f.gateways[f.poll.id].subscribers != []
    ensures var t := Apply(u, WriteBack);
      && f.poll.id in t.gateways && t.gateways[f.poll.id].knownVersion == f.poll.version
      && forall e | e in f.poll.batch :: e in Received(t.log)
  {
    HandedGrows(f.log, u.poll.delivered, f.gateways[f.poll.id].subscribers);
    assert u.poll.delivered == f.poll.batch;
  }

  // -------------------------------------------------------- who holds a channel

  /** An open channel is on the list of a gateway, or waits to be closed. */
  ghost predicate HeldOk(gateways: Gateways, channels: Channels, detached: set<ChanId>) {
    forall c | c in channels && !channels[c].closed :: c in detached || IsListed(gateways, c)
  }

  ghost predicate IsListed(gateways: Gateways, c: ChanId) {
    exists g :: g in gateways && c in gateways[g].subscribers
  }

  ghost predicate HeldInv(s: State) {
    HeldOk(s.gateways, s.channels, s.detached)
  }

  /** Lists only grow, and no channel appears or opens. */
  lemma HeldFrame(gateways: Gateways, channels: Channels, detached: set<ChanId>, gateways': Gateways, channels': Channels)
    requires HeldOk(gateways, channels, detached) && gateways.Keys <= gateways'.Keys
    requires forall g | g in gateways :: gateways'[g].subscribers == gateways[g].subscribers
    requires forall c | c in channels' && !channels'[c].closed :: c in channels && !channels[c].closed
    ensures HeldOk(gateways', channels', detached)
  {
    forall c | c in channels' && !channels'[c].closed && c !in detached ensures IsListed(gateways', c) {
      var g :| g in gateways && c in gateways[g].subscribers;
      assert g in gateways' && c in gateways'[g].subscribers;
    }
  }

  /** One list changes: what goes off it waits to be closed or is closed. */
  lemma HeldChange(gateways: Gateways, channels: Channels, detached: set<ChanId>, id: GatewayId, gw: Gateway,
                   channels': Channels, detached': set<ChanId>)
    requires HeldOk(gateways, channels, detached) && id in gateways && detached <= detached'
    requires forall c | c in channels' && !channels'[c].closed ::
      (c in channels && !channels[c].closed) || c in gw.subscribers
    requires forall c | c in channels' && !channels'[c].closed && c in gateways[id].subscribers ::
      c in gw.subscribers || c in detached'
    ensures HeldOk(gateways[id := gw], channels', detached')
  {
    var gateways' := gateways[id := gw];
    forall c | c in channels' && !channels'[c].closed && c !in detached' ensures IsListed(gateways', c) {
      if c in gw.subscribers {
        assert c in gateways'[id].subscribers;
      } else {
        var g :| g in gateways && c in gateways[g].subscribers;
        assert g != id && c in gateways'[g].subscribers;
      }
    }
  }

  lemma SubscribeKeepsHeld(s: State, id: GatewayId, c: ChanId)
    requires HeldInv(s)
    ensures HeldInv(DoSubscribe(s, id, c))
  {
    var t := DoSubscribe(s, id, c);
    if id in s.gateways {
      HeldChange(s.gateways, s.channels, s.detached, id, t.gateways[id], t.channels, s.detached);
    } else {
      HeldFrame(s.gateways, s.channels, s.detached, s.gateways, t.channels);
    }
  }

  lemma UnsubscribeKeepsHeld(s: State, id: GatewayId, c: ChanId)
    requires HeldInv(s) && ListsOk(s.gateways, s.channels, s.detached)
    ensures HeldInv(DoUnsubscribe(s, id, c))
  {
    if id in s.gateways && c in s.gateways[id].subscribers {
      var t := DoUnsubscribe(s, id, c);
      var list := s.gateways[id].subscribers;
      SwapRemoveRemoves(list, IndexOf(list, c));
      HeldChange(s.gateways, s.channels, s.detached, id, t.gateways[id], s.channels, t.detached);
    }
  }

  lemma UnsubscribeAllKeepsHeld(s: State, id: GatewayId)
    requires HeldInv(s)
    ensures HeldInv(DoUnsubscribeAll(s, id))
  {
    if id in s.gateways {
      var t := DoUnsubscribeAll(s, id);
      HeldChange(s.gateways, s.channels, s.detached, id, t.gateways[id], s.channels, t.detached);
    }
  }

  lemma CloseGatewayKeepsHeld(s: State, id: GatewayId)
    requires HeldInv(s) && id in s.gateways
    ensures HeldInv(DoCloseGateway(s, id))
  {
    var t := DoCloseGateway(s, id);
    CloseAllOnlyCloses(s.channels, s.gateways[id].subscribers);
    HeldChange(s.gateways, s.channels, s.detached, id, t.gateways[id], t.channels, s.detached);
  }

  lemma CloseDetachedKeepsHeld(s: State, c: ChanId)
    requires HeldInv(s)
    ensures HeldInv(DoCloseDetached(s, c))
  {
    var t := DoCloseDetached(s, c);
    assert c in t.channels ==> t.channels[c].closed;
    assert forall k | k in t.channels && !t.channels[k].closed :: k in s.channels && !s.channels[k].closed && k != c;
  }

  lemma RegistryStepKeepsHeld(s: State, step: Step)
    requires HeldInv(s) && ListsOk(s.gateways, s.channels, s.detached) && Enabled(s, step) && RegistryStep(step)
    ensures HeldInv(Do(s, step))
  {
    match step {
      case RegisterLocal(id) => HeldFrame(s.gateways, s.channels, s.detached, DoRegister(s, id).gateways, s.channels);
      case Subscribe(id, c) => SubscribeKeepsHeld(s, id, c);
      case Unsubscribe(id, c) => UnsubscribeKeepsHeld(s, id, c);
      case UnsubscribeAll(id) => UnsubscribeAllKeepsHeld(s, id);
      case CloseGateway(id) => CloseGatewayKeepsHeld(s, id);
    }
  }

  lemma LoopKeepsHeld(s: State, step: Step)
    requires HeldInv(s) && Enabled(s, step) && LoopStep(step)
    ensures HeldInv(Do(s, step))
  {
    HandOutStepFrame(s, step);
    HeldFrame(s.gateways, s.channels, s.detached, s.gateways, Do(s, step).channels);
  }

  lemma WriteBackKeepsHeld(s: State)
    requires HeldInv(s) && Enabled(s, WriteBack)
    ensures HeldInv(DoWriteBack(s))
  {
    HeldFrame(s.gateways, s.channels, s.detached, DoWriteBack(s).gateways, s.channels);
  }

  lemma ReceiveKeepsHeld(s: State, c: ChanId)
    requires HeldInv(s) && Enabled(s, Receive(c))
    ensures HeldInv(DoReceive(s, c))
  {
    HeldFrame(s.gateways, s.channels, s.detached, s.gateways, DoReceive(s, c).channels);
  }

  lemma StepKeepsHeld(s: State, step: Step)
    requires HeldInv(s) && ListsOk(s.gateways, s.channels, s.detached) && Enabled(s, step)
    ensures HeldInv(Do(s, step))
  {
    if RegistryStep(step) {
      RegistryStepKeepsHeld(s, step);
    } else if LoopStep(step) {
      LoopKeepsHeld(s, step);
    } else if step.WriteBack? {
      WriteBackKeepsHeld(s);
    } else if step.Receive? {
      ReceiveKeepsHeld(s, step.chan);
    } else if step.CloseDetached? {
      CloseDetachedKeepsHeld(s, step.chan);
    } else {
      OtherStepKeepsHeld(s, step);
    }
  }

  lemma OtherStepKeepsHeld(s: State, step: Step)
    requires HeldInv(s) && Enabled(s, step) && !RegistryStep(step) && !LoopStep(step)
    requires !step.WriteBack? && !step.Receive? && !step.CloseDetached?
    ensures HeldInv(Do(s, step))
  {
  }

  lemma {:induction false} RunKeepsHeld(s: State, steps: seq<Step>)
    requires Inv(s) && HeldInv(s)
    ensures HeldInv(Run(s, steps))
    decreases |steps|
  {
    if steps != [] {
      StepKeepsInv(s, steps[0]);
      if Enabled(s, steps[0]) { StepKeepsHeld(s, steps[0]); }
      RunKeepsHeld(Apply(s, steps[0]), steps[1..]);
    }
  }

  /** In every run: a channel that is on no list and does not wait to be closed is closed, and one that is listed is open. */
  lemma OpenIffHeld(s0: State, steps: seq<Step>, c: ChanId)
    requires Initial(s0) && c in Run(s0, steps).channels
    ensures var s := Run(s0, steps);
      !s.channels[c].closed <==> c in s.detached || exists g :: g in s.gateways && c in s.gateways[g].subscribers
  {
    InitialInv(s0);
    RunKeepsInv(s0, steps);
    RunKeepsHeld(s0, steps);
    var s := Run(s0, steps);
    if !s.channels[c].closed { assert c in s.detached || IsListed(s.gateways, c); }
  }

  // --------------------------------------------------------- taking things away

  /** Cleanup deletes what was stamped before the cutoff and nothing else ... */
  lemma CleanupDeletes(s: State, cutoff: int, e: Event)
    ensures e in Apply(s, Cleanup(cutoff)).rows <==> e in s.rows && cutoff <= e.processed
  {
    assert Apply(s, Cleanup(cutoff)) == Do(s, Cleanup(cutoff));
  }

  /** ... or of one gateway. */
  lemma CleanupRangeDeletes(s: State, id: GatewayId, cutoff: int, e: Event)
    ensures e in Apply(s, CleanupRange(id, cutoff)).rows <==> e in s.rows && (e.gatewayId != id || cutoff <= e.processed)
  {
    assert Apply(s, CleanupRange(id, cutoff)) == Do(s, CleanupRange(id, cutoff));
  }

  /** A consumer takes the first event that is waiting, and no other channel changes. */
  lemma ReceiveTakesFirst(s: State, c: ChanId)
    requires Enabled(s, Receive(c))
    ensures var t := Apply(s, Receive(c));
      && t == s.(channels := t.channels) && t.channels.Keys == s.channels.Keys
      && s.channels[c].buffer == [s.channels[c].buffer[0]] + t.channels[c].buffer
      && t.channels[c].sent == s.channels[c].sent && t.channels[c].closed == s.channels[c].closed
      && forall k | k in s.channels && k != c :: t.channels[k] == s.channels[k]
  {
  }
}
