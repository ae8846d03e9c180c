// What every step of the event hub keeps, with no assumption about the order in
// which rows are committed or about who is subscribed when. The invariants are
// predicates over the components of the state they speak of.
module HubInvariant {
  import opened Timestamps
  import opened HubModel
  import opened HubChannels

  // --------------------------------------------------------------- invariants

  /** A channel holds, in order, the tail of what was sent on it, within capacity. */
  ghost predicate ChannelOk(ch: Channel) {
    && |ch.buffer| <= |ch.sent|
    && |ch.buffer| <= CHANNEL_CAPACITY
    && ch.buffer == ch.sent[|ch.sent| - |ch.buffer|..]
    && forall e | e in ch.sent :: e.gatewayId == ch.owner
  }

  ghost predicate BuffersOk(channels: Channels) {
    forall c | c in channels :: ChannelOk(channels[c])
  }

  /** Subscriber lists are duplicate-free, hold open channels made for that gateway, and
      share none with the channels that are waiting to be closed. */
  ghost predicate ListsOk(gateways: Gateways, channels: Channels, detached: set<ChanId>) {
    && (forall g | g in gateways :: NoDup(gateways[g].subscribers))
    && (forall g, c | g in gateways && c in gateways[g].subscribers ::
          c in channels && channels[c].owner == g && !channels[c].closed && c !in detached)
    && (forall c | c in detached :: c in channels && !channels[c].closed)
  }

  /** While an event is in hand, the channels that have yet to get it are on the list and have room: consumers only
      take, and nobody else sends. */
  ghost predicate SendingOk(gateways: Gateways, channels: Channels, poll: Poll) {
    poll.Handing? ==>
      && poll.id in gateways && NoDup(poll.todo) && (poll.todo != [] ==> poll.rest != [])
      && forall c | c in poll.todo ::
           c in gateways[poll.id].subscribers && c in channels && |channels[c].buffer| < CHANNEL_CAPACITY
  }

  /** Once a version has been seen that is not the known one, the known one is out of date. */
  ghost predicate SeenOk(versions: map<GatewayId, Version>, stamped: set<Version>, gateways: Gateways,
                         id: GatewayId, version: Version) {
    && id in versions
    && (version != "" ==>
          && version in stamped
          && versions[id] != ""
          && (id in gateways && gateways[id].knownVersion != version ==> gateways[id].knownVersion != versions[id]))
  }

  ghost predicate StampsOk(versions: map<GatewayId, Version>, stamped: set<Version>, gateways: Gateways) {
    && "" !in stamped
    && (forall g | g in versions :: versions[g] == "" || versions[g] in stamped)
    && (forall g | g in gateways :: gateways[g].knownVersion == "" || gateways[g].knownVersion in stamped)
  }

  ghost predicate PageOk(versions: map<GatewayId, Version>, stamped: set<Version>, gateways: Gateways,
                         page: seq<PageRow>, poll: Poll) {
    && (forall i, j | 0 <= i < j < |page| :: page[i].id != page[j].id)
    && (forall r | r in page :: SeenOk(versions, stamped, gateways, r.id, r.version))
    && (!poll.Idle? ==>
          && SeenOk(versions, stamped, gateways, poll.id, poll.version)
          && poll.version != ""
          && forall r | r in page :: r.id != poll.id)
  }

  ghost predicate RowsOk(versions: map<GatewayId, Version>, rows: set<Event>, committed: set<Event>) {
    && rows <= committed
    && (forall e | e in committed ::
          ClockRange(e.processed) && e.gatewayId in versions && versions[e.gatewayId] != "")
    && (forall e, f | e in rows && f in rows && e.gatewayId == f.gatewayId && e.eventId == f.eventId :: e == f)
  }

  /** The cursor is 0 or the timestamp of an event of the gateway that was handed out. */
  ghost predicate CursorOk(gw: Gateway, g: GatewayId, handed: set<Event>) {
    gw.lastPolled == 0
    || exists e :: e in handed && e.gatewayId == g && e.processed == gw.lastPolled
  }

  ghost predicate CursorsOk(gateways: Gateways, handed: set<Event>, origin: map<GatewayId, int>) {
    && (forall g | g in gateways :: CursorOk(gateways[g], g, handed))
    && (forall g | g in gateways :: g in origin <==> gateways[g].lastPolled != 0)
    && origin.Keys <= gateways.Keys
  }

  /** Nothing that was handed out is past the reach of its gateway. */
  ghost predicate HandedOk(gateways: Gateways, poll: Poll, committed: set<Event>, handed: set<Event>) {
    forall e | e in handed ::
      e in committed && e.gatewayId in gateways && e.processed <= Reach(gateways, poll, e.gatewayId)
  }

  /** Everything that was ever put on a channel: what was handed out to the end and the event in hand. */
  ghost function Out(log: seq<Delivery>, poll: Poll): set<Event> {
    Handed(log) + set e | e in Passing(poll)
  }

  /** What was sent on a channel is in time order, and all of it was handed out or is in hand. */
  ghost predicate SentOk(ch: Channel, handed: set<Event>) {
    TimeOrdered(ch.sent) && forall e | e in ch.sent :: e in handed
  }

  ghost predicate OrderOk(channels: Channels, handed: set<Event>) {
    forall c | c in channels :: SentOk(channels[c], handed)
  }

  ghost predicate BatchOk(committed: set<Event>, id: GatewayId, since: int, es: seq<Event>) {
    && TimeOrdered(es)
    && NoDup(es)
    && forall e | e in es :: e in committed && e.gatewayId == id && e.processed >= since
  }

  /** A batch that resumes from a cursor holds a row with the cursor's timestamp only together with another one. */
  ghost predicate BoundaryOk(since: int, resuming: bool, batch: seq<Event>) {
    resuming ==> forall e | e in batch && e.processed == since :: HasTwin((set f | f in batch), e)
  }

  ghost predicate PollOk(gateways: Gateways, poll: Poll, committed: set<Event>, handed: set<Event>) {
    !poll.Idle? ==>
      && poll.id in gateways
      && (poll.resuming <==> gateways[poll.id].lastPolled > 0)
      && (poll.resuming ==> poll.since == gateways[poll.id].lastPolled)
      && (poll.Fetched? ==>
            && BatchOk(committed, poll.id, poll.since, poll.batch)
            && BoundaryOk(poll.since, poll.resuming, poll.batch))
      && (poll.Handing? ==>
            && BatchOk(committed, poll.id, poll.since, poll.delivered + poll.rest)
            && (forall e | e in poll.delivered :: e in handed)
            && (forall e | e in poll.rest && e in handed :: HasTwin(committed, e)))
      && (poll.HandedOut? ==>
            && BatchOk(committed, poll.id, poll.since, poll.delivered)
            && (forall e | e in poll.delivered :: e in handed)
            && (poll.blocked && poll.delivered == [] ==> poll.resuming))
  }

  /** An event that was handed out twice shares its timestamp with another row of its gateway. */
  ghost predicate RepeatsOk(log: seq<Delivery>, committed: set<Event>) {
    forall i, j | 0 <= i < j < |log| && log[i].event == log[j].event :: HasTwin(committed, log[i].event)
  }

  ghost predicate ChannelInv(s: State) {
    && !s.fault && BuffersOk(s.channels) && ListsOk(s.gateways, s.channels, s.detached)
    && SendingOk(s.gateways, s.channels, s.poll)
  }

  ghost predicate VersionInv(s: State) {
    && StampsOk(s.versions, s.stamped, s.gateways)
    && PageOk(s.versions, s.stamped, s.gateways, s.page, s.poll)
    && RowsOk(s.versions, s.rows, s.committed)
  }

  ghost predicate HistoryInv(s: State) {
    && CursorsOk(s.gateways, Handed(s.log), s.origin)
    && HandedOk(s.gateways, s.poll, s.committed, Out(s.log, s.poll))
    && OrderOk(s.channels, Out(s.log, s.poll))
    && PollOk(s.gateways, s.poll, s.committed, Handed(s.log))
    && RepeatsOk(s.log, s.committed)
  }

  ghost predicate Inv(s: State) {
    ChannelInv(s) && VersionInv(s) && HistoryInv(s)
  }

  lemma InitialInv(s: State)
    requires Initial(s)
    ensures Inv(s)
  {
  }

  // ------------------------------------------------------ channels and lists

  /** Steps that leave the lists alone and close no listed or detached channel. */
  lemma ListsFrame(gateways: Gateways, channels: Channels, detached: set<ChanId>, gateways': Gateways, channels': Channels)
    requires ListsOk(gateways, channels, detached)
    requires forall g | g in gateways' ::
      gateways'[g].subscribers == if g in gateways then gateways[g].subscribers else []
    requires forall c | c in channels ::
      c in channels' && channels'[c].owner == channels[c].owner && channels'[c].closed == channels[c].closed
    ensures ListsOk(gateways', channels', detached)
  {
  }

  lemma ListsAdd(gateways: Gateways, channels: Channels, detached: set<ChanId>, id: GatewayId, c: ChanId)
    requires ListsOk(gateways, channels, detached) && id in gateways && c !in channels
    ensures ListsOk(gateways[id := gateways[id].(subscribers := gateways[id].subscribers + [c])],
                    channels[c := Channel(id, [], [], false)], detached)
  {
  }

  lemma ListsRemove(gateways: Gateways, channels: Channels, detached: set<ChanId>, id: GatewayId, i: nat)
    requires ListsOk(gateways, channels, detached) && id in gateways && i < |gateways[id].subscribers|
    ensures ListsOk(gateways[id := Removed(gateways[id], i)], channels, detached + {gateways[id].subscribers[i]})
  {
    SwapRemoveRemoves(gateways[id].subscribers, i);
  }

  lemma ListsRemoveAll(gateways: Gateways, channels: Channels, detached: set<ChanId>, id: GatewayId)
    requires ListsOk(gateways, channels, detached) && id in gateways
    ensures ListsOk(gateways[id := gateways[id].(subscribers := [], knownVersion := "")], channels,
                    detached + set c | c in gateways[id].subscribers)
  {
  }

  lemma ListsCloseDetached(gateways: Gateways, channels: Channels, detached: set<ChanId>, c: ChanId)
    requires ListsOk(gateways, channels, detached) && c in detached
    ensures CloseOne(channels, c) == Sends(channels[c := channels[c].(closed := true)], false)
    ensures ListsOk(gateways, channels[c := channels[c].(closed := true)], detached - {c})
  {
  }

  lemma ListsCloseGateway(gateways: Gateways, channels: Channels, detached: set<ChanId>, id: GatewayId)
    requires ListsOk(gateways, channels, detached) && id in gateways
    ensures var gw := gateways[id];
      && CloseAll(channels, gw.subscribers) == Sends(Closed(channels, gw.subscribers), false)
      && ListsOk(gateways[id := gw.(subscribers := [])], Closed(channels, gw.subscribers), detached)
  {
    CloseAllCloses(channels, gateways[id].subscribers);
  }

  lemma AppendKeepsChannelOk(ch: Channel, es: seq<Event>)
    requires ChannelOk(ch) && |ch.buffer| + |es| <= CHANNEL_CAPACITY
    requires forall e | e in es :: e.gatewayId == ch.owner
    ensures ChannelOk(Append(ch, es))
  {
    var n := |ch.sent| - |ch.buffer|;
    assert ch.sent == ch.sent[..n] + ch.buffer;
    assert (ch.sent + es)[n..] == ch.buffer + es;
  }

  lemma ReceiveKeepsChannelOk(ch: Channel)
    requires ChannelOk(ch) && ch.buffer != []
    ensures ChannelOk(ch.(buffer := ch.buffer[1..]))
  {
  }

  lemma SendingFrame(gateways: Gateways, channels: Channels, poll: Poll, channels': Channels)
    requires SendingOk(gateways, channels, poll)
    requires forall c | c in channels :: c in channels' && |channels'[c].buffer| <= |channels[c].buffer|
    ensures SendingOk(gateways, channels', poll)
  {
  }

  lemma OfferKeepsChannels(s: State)
    requires ChannelInv(s) && Enabled(s, OfferNext)
    ensures ChannelInv(DoOffer(s))
  {
    var subscribers := s.gateways[s.poll.id].subscribers;
    if s.poll.rest != [] && ChannelsAvailable(s.channels, subscribers) {
      forall c | c in subscribers ensures c in s.channels && |s.channels[c].buffer| < CHANNEL_CAPACITY {
        assert ChannelOk(s.channels[c]);
      }
    }
  }

  /** Every send finds an open channel with room. */
  lemma SendFindsRoom(s: State)
    requires ChannelInv(s) && Enabled(s, SendNext)
    ensures var c := s.poll.todo[0];
      HasRoom(s.channels, c) && s.channels[c].owner == s.poll.id && s.poll.todo[0] !in s.poll.todo[1..]
  {
    var c := s.poll.todo[0];
    assert c in s.poll.todo && c in s.gateways[s.poll.id].subscribers;
  }

  lemma SendKeepsSending(gateways: Gateways, channels: Channels, poll: Poll, ch: Channel)
    requires SendingOk(gateways, channels, poll) && poll.Handing? && poll.todo != []
    ensures SendingOk(gateways, channels[poll.todo[0] := ch], poll.(todo := poll.todo[1..]))
  {
    assert forall c | c in poll.todo[1..] :: c in poll.todo && c != poll.todo[0];
  }

  lemma SendKeepsChannels(s: State)
    requires ChannelInv(s) && Enabled(s, SendNext) && s.poll.rest[0].gatewayId == s.poll.id
    ensures ChannelInv(DoSend(s))
  {
    SendFindsRoom(s);
    var c, e := s.poll.todo[0], s.poll.rest[0];
    var channels' := s.channels[c := Append(s.channels[c], [e])];
    AppendKeepsChannelOk(s.channels[c], [e]);
    ListsFrame(s.gateways, s.channels, s.detached, s.gateways, channels');
    SendKeepsSending(s.gateways, s.channels, s.poll, channels'[c]);
  }

  lemma SubscribeKeepsChannels(s: State, id: GatewayId, c: ChanId)
    requires ChannelInv(s) && !s.poll.Handing? && c !in s.channels
    ensures ChannelInv(DoSubscribe(s, id, c))
  {
    if id in s.gateways {
      ListsAdd(s.gateways, s.channels, s.detached, id, c);
    } else {
      ListsFrame(s.gateways, s.channels, s.detached, s.gateways, s.channels[c := Channel(id, [], [], true)]);
    }
  }

  lemma UnsubscribeKeepsChannels(s: State, id: GatewayId, c: ChanId)
    requires ChannelInv(s) && !s.poll.Handing?
    ensures ChannelInv(DoUnsubscribe(s, id, c)) && ChannelInv(DoUnsubscribeAll(s, id))
  {
    if id in s.gateways {
      ListsRemoveAll(s.gateways, s.channels, s.detached, id);
      if c in s.gateways[id].subscribers {
        ListsRemove(s.gateways, s.channels, s.detached, id, IndexOf(s.gateways[id].subscribers, c));
      }
    }
  }

  lemma CloseDetachedKeepsChannels(s: State, c: ChanId)
    requires ChannelInv(s) && c in s.detached
    ensures ChannelInv(DoCloseDetached(s, c))
  {
    ListsCloseDetached(s.gateways, s.channels, s.detached, c);
    SendingFrame(s.gateways, s.channels, s.poll, DoCloseDetached(s, c).channels);
  }

  lemma CloseGatewayKeepsChannels(s: State, id: GatewayId)
    requires ChannelInv(s) && !s.poll.Handing? && id in s.gateways
    ensures ChannelInv(DoCloseGateway(s, id))
  {
    ListsCloseGateway(s.gateways, s.channels, s.detached, id);
  }

  lemma ReceiveKeepsChannels(s: State, c: ChanId)
    requires ChannelInv(s) && c in s.channels && s.channels[c].buffer != []
    ensures ChannelInv(DoReceive(s, c))
  {
    ReceiveKeepsChannelOk(s.channels[c]);
    ListsFrame(s.gateways, s.channels, s.detached, s.gateways, DoReceive(s, c).channels);
    SendingFrame(s.gateways, s.channels, s.poll, DoReceive(s, c).channels);
  }

  lemma WriteBackKeepsChannels(s: State)
    requires ChannelInv(s) && s.poll.HandedOut? && s.poll.id in s.gateways
    ensures ChannelInv(DoWriteBack(s))
  {
    ListsFrame(s.gateways, s.channels, s.detached, DoWriteBack(s).gateways, s.channels);
  }

  lemma RegisterKeepsChannels(s: State, id: GatewayId)
    requires ChannelInv(s) && !s.poll.Handing?
    ensures ChannelInv(DoRegister(s, id))
  {
    ListsFrame(s.gateways, s.channels, s.detached, DoRegister(s, id).gateways, s.channels);
  }

  lemma SameForChannels(s: State, t: State)
    requires ChannelInv(s) && t.channels == s.channels && t.gateways == s.gateways && t.detached == s.detached
    requires t.fault == s.fault && (t.poll == s.poll || !t.poll.Handing? || (t.poll.todo == [] && t.poll.id in t.gateways))
    ensures ChannelInv(t)
  {
  }

  lemma RegistryStepKeepsChannels(s: State, step: Step)
    requires ChannelInv(s) && Enabled(s, step) && RegistryStep(step)
    ensures ChannelInv(Do(s, step))
  {
    match step {
      case Subscribe(id, c) => SubscribeKeepsChannels(s, id, c);
      case Unsubscribe(id, c) => UnsubscribeKeepsChannels(s, id, c);
      case UnsubscribeAll(id) => UnsubscribeKeepsChannels(s, id, 0);
      case CloseGateway(id) => CloseGatewayKeepsChannels(s, id);
      case RegisterLocal(id) => RegisterKeepsChannels(s, id);
    }
  }

  lemma SendStepKeepsChannels(s: State)
    requires ChannelInv(s) && PollOk(s.gateways, s.poll, s.committed, Handed(s.log)) && Enabled(s, SendNext)
    ensures ChannelInv(DoSend(s))
  {
    var p := s.poll;
    assert (p.delivered + p.rest)[|p.delivered|] == p.rest[0];
    SendKeepsChannels(s);
  }

  /** Steps of the poll goroutine that touch neither the registry nor a channel. */
  predicate QuietPollerStep(step: Step) {
    PollerStep(step) && !step.OfferNext? && !step.SendNext? && !step.WriteBack?
  }

  lemma QuietPollerStepFrame(s: State, step: Step)
    requires Enabled(s, step) && QuietPollerStep(step)
    ensures var t := Do(s, step);
      && t.channels == s.channels && t.gateways == s.gateways && t.detached == s.detached && t.fault == s.fault
      && (t.poll.Handing? ==> t.poll.todo == [] && t.poll.id in t.gateways)
  {
    match step {
      case Snapshot(now) => assert Do(s, step) == DoSnapshot(s, now);
      case Fetch(result) => assert Do(s, step) == DoFetch(s, result);
      case HandOut => assert Do(s, step) == DoHandOut(s);
      case ReadPage(_) | SkipRow | AbortFetch | Stop =>
    }
  }

  lemma PollerStepKeepsChannels(s: State, step: Step)
    requires ChannelInv(s) && PollOk(s.gateways, s.poll, s.committed, Handed(s.log)) && Enabled(s, step) && PollerStep(step)
    ensures ChannelInv(Do(s, step))
  {
    if QuietPollerStep(step) {
      QuietPollerStepFrame(s, step);
      SameForChannels(s, Do(s, step));
    } else {
      match step {
        case OfferNext => OfferKeepsChannels(s);
        case SendNext => SendStepKeepsChannels(s);
        case WriteBack => WriteBackKeepsChannels(s);
      }
    }
  }

  lemma StepKeepsChannels(s: State, step: Step)
    requires ChannelInv(s) && PollOk(s.gateways, s.poll, s.committed, Handed(s.log)) && Enabled(s, step)
    ensures ChannelInv(Do(s, step))
  {
    if RegistryStep(step) {
      RegistryStepKeepsChannels(s, step);
    } else if PollerStep(step) {
      PollerStepKeepsChannels(s, step);
    } else {
      match step {
        case CloseDetached(c) => CloseDetachedKeepsChannels(s, c);
        case Receive(c) => ReceiveKeepsChannels(s, c);
        case InsertGateway(_) | Publish(_, _) | Cleanup(_) | CleanupRange(_, _) => SameForChannels(s, Do(s, step));
      }
    }
  }

  // ----------------------------------------------------- versions and rows

  /** Steps that leave known versions alone or reset them. */
  lemma KnownFrame(versions: map<GatewayId, Version>, stamped: set<Version>, gateways: Gateways,
                   page: seq<PageRow>, poll: Poll, gateways': Gateways)
    requires StampsOk(versions, stamped, gateways) && PageOk(versions, stamped, gateways, page, poll)
    requires forall g | g in gateways' ::
      gateways'[g].knownVersion == "" || (g in gateways && gateways'[g].knownVersion == gateways[g].knownVersion)
    ensures StampsOk(versions, stamped, gateways') && PageOk(versions, stamped, gateways', page, poll)
  {
  }

  lemma PublishKeepsStamps(versions: map<GatewayId, Version>, stamped: set<Version>, gateways: Gateways,
                           page: seq<PageRow>, poll: Poll, id: GatewayId, v: Version)
    requires StampsOk(versions, stamped, gateways) && PageOk(versions, stamped, gateways, page, poll)
    requires v != "" && v !in stamped
    ensures StampsOk(versions[id := v], stamped + {v}, gateways)
    ensures PageOk(versions[id := v], stamped + {v}, gateways, page, poll)
  {
  }

  lemma InsertKeepsStamps(versions: map<GatewayId, Version>, stamped: set<Version>, gateways: Gateways,
                          page: seq<PageRow>, poll: Poll, id: GatewayId)
    requires StampsOk(versions, stamped, gateways) && PageOk(versions, stamped, gateways, page, poll)
    requires id !in versions
    ensures StampsOk(versions[id := ""], stamped, gateways)
    ensures PageOk(versions[id := ""], stamped, gateways, page, poll)
  {
  }

  lemma ReadPageKeepsPage(versions: map<GatewayId, Version>, stamped: set<Version>, gateways: Gateways, page: seq<PageRow>)
    requires StampsOk(versions, stamped, gateways)
    requires forall i, j | 0 <= i < j < |page| :: page[i].id != page[j].id
    requires forall r | r in page :: r.id in versions && versions[r.id] == r.version
    ensures PageOk(versions, stamped, gateways, page, Idle)
  {
  }

  /** Taking the first row off the page, to poll its gateway or to skip it. */
  lemma NextRowKeepsPage(versions: map<GatewayId, Version>, stamped: set<Version>, gateways: Gateways,
                         page: seq<PageRow>, poll: Poll)
    requires PageOk(versions, stamped, gateways, page, Idle) && page != []
    requires poll.Idle? || (poll.id == page[0].id && poll.version == page[0].version && poll.version != "")
    ensures PageOk(versions, stamped, gateways, page[1..], poll)
  {
    assert forall r | r in page[1..] :: r in page;
  }

  lemma WriteBackKeepsStamps(versions: map<GatewayId, Version>, stamped: set<Version>, gateways: Gateways,
                             page: seq<PageRow>, poll: Poll, gw: Gateway)
    requires StampsOk(versions, stamped, gateways) && PageOk(versions, stamped, gateways, page, poll)
    requires poll.HandedOut? && poll.id in gateways
    requires gw.knownVersion == poll.version || gw.knownVersion == gateways[poll.id].knownVersion
    ensures StampsOk(versions, stamped, gateways[poll.id := gw])
    ensures PageOk(versions, stamped, gateways[poll.id := gw], page, Idle)
  {
  }

  lemma PublishKeepsRows(versions: map<GatewayId, Version>, rows: set<Event>, committed: set<Event>, e: Event, v: Version)
    requires RowsOk(versions, rows, committed) && ClockRange(e.processed) && v != ""
    requires forall r | r in rows :: !(r.gatewayId == e.gatewayId && r.eventId == e.eventId)
    ensures RowsOk(versions[e.gatewayId := v], rows + {e}, committed + {e})
  {
  }

  lemma CleanupKeepsRows(versions: map<GatewayId, Version>, rows: set<Event>, committed: set<Event>, rows': set<Event>)
    requires RowsOk(versions, rows, committed) && rows' <= rows
    ensures RowsOk(versions, rows', committed)
  {
  }

  /** Cursors stay, and a known version stays or is reset; new gateways start fresh. */
  ghost predicate RegistryFrame(gateways: Gateways, gateways': Gateways) {
    && gateways.Keys <= gateways'.Keys
    && (forall g | g in gateways' ::
          gateways'[g].knownVersion == "" || (g in gateways && gateways'[g].knownVersion == gateways[g].knownVersion))
    && (forall g | g in gateways' ::
          gateways'[g].lastPolled == if g in gateways then gateways[g].lastPolled else 0)
  }

  lemma OneGatewayChanged(gateways: Gateways, id: GatewayId, gw: Gateway)
    requires gw.knownVersion == "" || (id in gateways && gw.knownVersion == gateways[id].knownVersion)
    requires gw.lastPolled == if id in gateways then gateways[id].lastPolled else 0
    ensures RegistryFrame(gateways, gateways[id := gw])
  {
  }

  lemma RegistryStepFrame(s: State, step: Step)
    requires Enabled(s, step) && RegistryStep(step)
    ensures RegistryFrame(s.gateways, Do(s, step).gateways)
  {
    var s' := Do(s, step);
    if step.id in s'.gateways && s'.gateways != s.gateways {
      OneGatewayChanged(s.gateways, step.id, s'.gateways[step.id]);
    }
  }

  lemma RegistryStepKeepsVersions(s: State, step: Step)
    requires VersionInv(s) && Enabled(s, step) && RegistryStep(step)
    ensures VersionInv(Do(s, step))
  {
    RegistryStepFrame(s, step);
    KnownFrame(s.versions, s.stamped, s.gateways, s.page, s.poll, Do(s, step).gateways);
  }

  lemma DatabaseStepKeepsVersions(s: State, step: Step)
    requires VersionInv(s) && Enabled(s, step) && DatabaseStep(step)
    ensures VersionInv(Do(s, step))
  {
    match step {
      case InsertGateway(id) =>
        if id !in s.versions { InsertKeepsStamps(s.versions, s.stamped, s.gateways, s.page, s.poll, id); }
      case Publish(e, v) =>
        PublishKeepsStamps(s.versions, s.stamped, s.gateways, s.page, s.poll, e.gatewayId, v);
        PublishKeepsRows(s.versions, s.rows, s.committed, e, v);
      case Cleanup(_) => CleanupKeepsRows(s.versions, s.rows, s.committed, Do(s, step).rows);
      case CleanupRange(_, _) => CleanupKeepsRows(s.versions, s.rows, s.committed, Do(s, step).rows);
    }
  }

  /** The hand-out leaves the tables, the registry and the page alone and stays with its gateway. */
  ghost predicate StaysWithPoll(s: State, s': State) {
    && s'.versions == s.versions && s'.stamped == s.stamped && s'.gateways == s.gateways && s'.page == s.page
    && s'.rows == s.rows && s'.committed == s.committed && s'.origin == s.origin && s'.detached == s.detached
    && s'.stopped == s.stopped
    && !s.poll.Idle? && (s'.poll.Handing? || s'.poll.HandedOut?) && s'.poll.id == s.poll.id
    && s'.poll.version == s.poll.version && s'.poll.since == s.poll.since && s'.poll.resuming == s.poll.resuming
  }

  lemma PassStays(s: State)
    requires s.poll.Handing? && s.poll.id in s.gateways && s.poll.rest != []
    ensures StaysWithPoll(s, DoPass(s))
  {
  }

  lemma OfferStays(s: State)
    requires s.poll.Handing? && s.poll.id in s.gateways
    ensures StaysWithPoll(s, DoOffer(s))
  {
    var p, subscribers := s.poll, s.gateways[s.poll.id].subscribers;
    if p.rest == [] || !ChannelsAvailable(s.channels, subscribers) {
      assert DoOffer(s) == s.(poll := HandedOut(p.id, p.version, p.since, p.resuming, p.delivered, p.rest != []));
    } else if subscribers == [] {
      PassStays(s);
    } else {
      assert DoOffer(s) == s.(poll := p.(todo := subscribers));
    }
  }

  lemma SendStays(s: State)
    requires s.poll.Handing? && s.poll.id in s.gateways && s.poll.todo != [] && s.poll.rest != []
    ensures StaysWithPoll(s, DoSend(s))
  {
  }

  lemma HandOutStepFrame(s: State, step: Step)
    requires Enabled(s, step) && (step.HandOut? || step.OfferNext? || step.SendNext?)
    ensures StaysWithPoll(s, Do(s, step))
  {
    match step {
      case OfferNext => OfferStays(s);
      case SendNext => SendStays(s);
      case _ =>
    }
  }

  lemma SamePollPage(versions: map<GatewayId, Version>, stamped: set<Version>, gateways: Gateways,
                     page: seq<PageRow>, poll: Poll, poll': Poll)
    requires PageOk(versions, stamped, gateways, page, poll)
    requires poll'.Idle? || (!poll.Idle? && poll'.id == poll.id && poll'.version == poll.version)
    ensures PageOk(versions, stamped, gateways, page, poll')
  {
  }

  /** Steps of the poll goroutine. */
  lemma PollerStepKeepsVersions(s: State, step: Step)
    requires VersionInv(s) && Enabled(s, step) && PollerStep(step)
    ensures VersionInv(Do(s, step))
  {
    match step {
      case ReadPage(rows) => ReadPageKeepsPage(s.versions, s.stamped, s.gateways, rows);
      case SkipRow => NextRowKeepsPage(s.versions, s.stamped, s.gateways, s.page, Idle);
      case Snapshot(now) => NextRowKeepsPage(s.versions, s.stamped, s.gateways, s.page, DoSnapshot(s, now).poll);
      case WriteBack =>
        WriteBackKeepsStamps(s.versions, s.stamped, s.gateways, s.page, s.poll, DoWriteBack(s).gateways[s.poll.id]);
      case Fetch(_) | AbortFetch => SamePollPage(s.versions, s.stamped, s.gateways, s.page, s.poll, Do(s, step).poll);
      case HandOut | OfferNext | SendNext =>
        HandOutStepFrame(s, step);
        SamePollPage(s.versions, s.stamped, s.gateways, s.page, s.poll, Do(s, step).poll);
      case _ =>
    }
  }

  lemma StepKeepsVersions(s: State, step: Step)
    requires VersionInv(s) && Enabled(s, step)
    ensures VersionInv(Do(s, step))
  {
    if PollerStep(step) {
      PollerStepKeepsVersions(s, step);
    } else if RegistryStep(step) {
      RegistryStepKeepsVersions(s, step);
    } else if DatabaseStep(step) {
      DatabaseStepKeepsVersions(s, step);
    }
  }

  // ----------------------------------------------------------------- history

  lemma LogGrows(log: seq<Delivery>, e: Event, receivers: seq<ChanId>)
    ensures Handed(log + [Delivery(e, receivers)]) == Handed(log) + {e}
    ensures Received(log + [Delivery(e, receivers)]) == Received(log) + (if receivers != [] then {e} else {})
  {
    var d := Delivery(e, receivers);
    assert d in log + [d];
    assert forall x | x in log + [d] :: x in log || x == d;
    assert forall x | x in log :: x in log + [d];
  }

  lemma CommittedGrows(s: State, committed: set<Event>)
    requires HistoryInv(s) && s.committed <= committed
    ensures HandedOk(s.gateways, s.poll, committed, Out(s.log, s.poll))
    ensures PollOk(s.gateways, s.poll, committed, Handed(s.log))
    ensures RepeatsOk(s.log, committed)
  {
    assert forall e | HasTwin(s.committed, e) :: HasTwin(committed, e);
  }

  lemma RegistryFrameKeepsHistory(gateways: Gateways, poll: Poll, committed: set<Event>, handed: set<Event>,
                                  out: set<Event>, origin: map<GatewayId, int>, gateways': Gateways)
    requires RegistryFrame(gateways, gateways')
    requires CursorsOk(gateways, handed, origin) && HandedOk(gateways, poll, committed, out)
    requires PollOk(gateways, poll, committed, handed)
    ensures CursorsOk(gateways', handed, origin) && HandedOk(gateways', poll, committed, out)
    ensures PollOk(gateways', poll, committed, handed)
  {
    forall g | g in gateways' ensures CursorOk(gateways'[g], g, handed) {
      if g in gateways { assert CursorOk(gateways[g], g, handed); }
    }
  }

  /** Steps that put nothing on a channel. */
  lemma SentFrame(channels: Channels, handed: set<Event>, channels': Channels)
    requires OrderOk(channels, handed)
    requires SameSent(channels, channels')
    ensures OrderOk(channels', handed)
  {
    forall c | c in channels' ensures SentOk(channels'[c], handed) {
      if c in channels { assert SentOk(channels[c], handed); }
    }
  }

  ghost predicate SameSent(channels: Channels, channels': Channels) {
    forall c | c in channels' :: channels'[c].sent == if c in channels then channels[c].sent else []
  }

  lemma CloseGatewaySent(s: State, id: GatewayId)
    requires ChannelInv(s) && Enabled(s, CloseGateway(id))
    ensures SameSent(s.channels, DoCloseGateway(s, id).channels)
  {
    CloseAllCloses(s.channels, s.gateways[id].subscribers);
  }

  lemma RegistryStepSent(s: State, step: Step)
    requires ChannelInv(s) && Enabled(s, step) && RegistryStep(step)
    ensures SameSent(s.channels, Do(s, step).channels)
  {
    match step {
      case CloseGateway(id) => CloseGatewaySent(s, id);
      case _ =>
    }
  }

  lemma CallerStepSent(s: State, step: Step)
    requires ChannelInv(s) && Enabled(s, step) && !PollerStep(step)
    ensures SameSent(s.channels, Do(s, step).channels)
  {
    if RegistryStep(step) { RegistryStepSent(s, step); }
  }

  /** An established cursor is a clock instant, so it survives its encoding. */
  lemma CursorInRange(s: State, g: GatewayId)
    requires VersionInv(s) && HistoryInv(s) && g in s.gateways
    ensures s.gateways[g].lastPolled == 0 || ClockRange(s.gateways[g].lastPolled)
  {
    assert CursorOk(s.gateways[g], g, Handed(s.log));
  }

  lemma StartPoll(gateways: Gateways, committed: set<Event>, handed: set<Event>, poll: Poll)
    requires HandedOk(gateways, Idle, committed, handed) && poll.Snapped? && poll.id in gateways
    requires poll.resuming <==> gateways[poll.id].lastPolled > 0
    requires poll.resuming ==> poll.since == gateways[poll.id].lastPolled
    ensures HandedOk(gateways, poll, committed, handed) && PollOk(gateways, poll, committed, handed)
  {
  }

  lemma SnapshotKeepsHistory(s: State, now: int)
    requires VersionInv(s) && HistoryInv(s) && s.poll.Idle? && s.page != []
    ensures HistoryInv(DoSnapshot(s, now))
  {
    var poll := DoSnapshot(s, now).poll;
    if poll.Snapped? {
      CursorInRange(s, poll.id);
      StartPoll(s.gateways, s.committed, Handed(s.log), poll);
    }
    NothingSentYet(s, poll, s.page[1..]);
  }

  lemma NothingSentYet(s: State, poll: Poll, page: seq<PageRow>)
    requires HistoryInv(s) && s.poll.Idle? && (poll.Idle? || poll.Snapped?)
    requires poll.Snapped? ==>
      HandedOk(s.gateways, poll, s.committed, Handed(s.log)) && PollOk(s.gateways, poll, s.committed, Handed(s.log))
    ensures HistoryInv(s.(poll := poll, page := page))
  {
    assert Out(s.log, poll) == Handed(s.log) == Out(s.log, s.poll);
  }

  /** The trimmed answer keeps the order, and keeps a boundary row only next to another one. */
  lemma TrimKeepsBatch(committed: set<Event>, id: GatewayId, since: int, resuming: bool, result: seq<Event>)
    requires BatchOk(committed, id, since, result)
    ensures var batch := TrimSingleBoundaryReplay(result, since, resuming);
      BatchOk(committed, id, since, batch) && BoundaryOk(since, resuming, batch)
  {
    var batch := TrimSingleBoundaryReplay(result, since, resuming);
    assert forall e | e in batch :: e in result;
    if resuming {
      forall e | e in batch && e.processed == since ensures HasTwin((set f | f in batch), e) {
        var k :| 0 <= k < |batch| && batch[k] == e;
        assert batch[0] in batch && batch[0].processed == since;
        assert batch == result && |batch| > 1 && batch[1].processed == since;
        var f := if k == 0 then batch[1] else batch[0];
        assert f in batch && f != e;
      }
    }
  }

  /** A poll that goes on without putting anything on a channel. */
  lemma SameReach(gateways: Gateways, poll: Poll, committed: set<Event>, out: set<Event>, poll': Poll)
    requires HandedOk(gateways, poll, committed, out) && !poll.Idle? && !poll'.Idle? && poll'.id == poll.id
    requires Passing(poll') == Passing(poll)
    ensures HandedOk(gateways, poll', committed, out)
  {
  }

  lemma FetchKeepsPoll(gateways: Gateways, poll: Poll, committed: set<Event>, handed: set<Event>, result: seq<Event>)
    requires PollOk(gateways, poll, committed, handed) && poll.Snapped?
    requires BatchOk(committed, poll.id, poll.since, result)
    ensures PollOk(gateways, Fetched(poll.id, poll.version, poll.since, poll.resuming,
                                     TrimSingleBoundaryReplay(result, poll.since, poll.resuming)), committed, handed)
  {
    TrimKeepsBatch(committed, poll.id, poll.since, poll.resuming, result);
  }

  lemma FetchKeepsHistory(s: State, result: seq<Event>)
    requires VersionInv(s) && HistoryInv(s) && Enabled(s, Fetch(result))
    ensures HistoryInv(DoFetch(s, result))
  {
    FetchKeepsPoll(s.gateways, s.poll, s.committed, Handed(s.log), result);
    SameReach(s.gateways, s.poll, s.committed, Out(s.log, s.poll), DoFetch(s, result).poll);
  }

  // The hand-out, check by check and send by send.

  /** The batch of the poll in flight. */
  function Batch(poll: Poll): seq<Event> {
    match poll
    case Fetched(_, _, _, _, batch) => batch
    case Handing(_, _, _, _, delivered, rest, _) => delivered + rest
    case _ => []
  }

  /** Nothing in the batch is before the cursor. */
  lemma BatchStartsAtCursor(s: State)
    requires VersionInv(s) && HistoryInv(s) && (s.poll.Fetched? || s.poll.Handing?)
    ensures s.poll.id in s.gateways
    ensures forall e | e in Batch(s.poll) :: s.gateways[s.poll.id].lastPolled <= e.processed
  {
    CursorInRange(s, s.poll.id);
  }

  /** An event of the batch that was handed out before has the cursor's timestamp, and so does another row of the batch. */
  lemma RedeliveryOnlyAtBoundary(s: State, e: Event)
    requires VersionInv(s) && HistoryInv(s) && s.poll.Fetched?
    requires e in s.poll.batch && e in Handed(s.log)
    ensures s.poll.resuming && e.processed == s.gateways[s.poll.id].lastPolled
    ensures HasTwin((set f | f in s.poll.batch), e)
  {
    BatchStartsAtCursor(s);
  }

  lemma RepeatsHaveTwins(s: State)
    requires VersionInv(s) && HistoryInv(s) && s.poll.Fetched?
    ensures forall e | e in s.poll.batch && e in Handed(s.log) :: HasTwin(s.committed, e)
  {
    forall e | e in s.poll.batch && e in Handed(s.log) ensures HasTwin(s.committed, e) {
      RedeliveryOnlyAtBoundary(s, e);
      var f :| f in s.poll.batch && f != e && f.gatewayId == e.gatewayId && f.processed == e.processed;
      assert f in s.committed;
    }
  }

  lemma HandOutKeepsPoll(gateways: Gateways, poll: Poll, committed: set<Event>, handed: set<Event>)
    requires PollOk(gateways, poll, committed, handed) && poll.Fetched?
    requires forall e | e in poll.batch && e in handed :: HasTwin(committed, e)
    ensures PollOk(gateways, Handing(poll.id, poll.version, poll.since, poll.resuming, [], poll.batch, []), committed, handed)
  {
    assert [] + poll.batch == poll.batch;
  }

  lemma HandOutKeepsHistory(s: State)
    requires VersionInv(s) && HistoryInv(s) && s.poll.Fetched?
    ensures HistoryInv(DoHandOut(s))
  {
    RepeatsHaveTwins(s);
    HandOutKeepsPoll(s.gateways, s.poll, s.committed, Handed(s.log));
    SameReach(s.gateways, s.poll, s.committed, Out(s.log, s.poll), DoHandOut(s).poll);
  }

  /** Taking up the next event moves the reach to its timestamp. */
  lemma ReachGrows(gateways: Gateways, poll: Poll, committed: set<Event>, out: set<Event>, poll': Poll)
    requires HandedOk(gateways, poll, committed, out) && poll.Handing? && poll.rest != [] && poll.id in gateways
    requires BatchOk(committed, poll.id, poll.since, poll.delivered + poll.rest)
    requires forall e | e in poll.delivered + poll.rest :: gateways[poll.id].lastPolled <= e.processed
    requires poll'.Handing? && poll'.id == poll.id && Passing(poll') == poll.delivered + [poll.rest[0]]
    ensures HandedOk(gateways, poll', committed, out + {poll.rest[0]})
  {
    var batch, n := poll.delivered + poll.rest, |poll.delivered|;
    assert batch[n] == poll.rest[0] && batch[n] in batch;
    if poll.delivered != [] { assert batch[n - 1] == poll.delivered[n - 1]; }
  }

  lemma OrderMonotone(channels: Channels, out: set<Event>, out': set<Event>)
    requires OrderOk(channels, out) && out <= out'
    ensures OrderOk(channels, out')
  {
    forall c | c in channels ensures SentOk(channels[c], out') { assert SentOk(channels[c], out); }
  }

  lemma MoreLogKeepsRepeats(log: seq<Delivery>, committed: set<Event>, d: Delivery)
    requires RepeatsOk(log, committed)
    requires d.event in Handed(log) ==> HasTwin(committed, d.event)
    ensures RepeatsOk(log + [d], committed)
  {
    var all := log + [d];
    forall i, j | 0 <= i < j < |all| && all[i].event == all[j].event ensures HasTwin(committed, all[i].event) {
      if j == |log| { assert log[i] in log; }
    }
  }

  lemma PassKeepsPoll(gateways: Gateways, poll: Poll, committed: set<Event>, handed: set<Event>)
    requires PollOk(gateways, poll, committed, handed) && poll.Handing? && poll.rest != []
    ensures PollOk(gateways, poll.(delivered := poll.delivered + [poll.rest[0]], rest := poll.rest[1..], todo := []),
                   committed, handed + {poll.rest[0]})
  {
    var e, rest := poll.rest[0], poll.rest[1..];
    var batch, n := poll.delivered + poll.rest, |poll.delivered|;
    assert (poll.delivered + [e]) + rest == batch;
    forall x | x in rest ensures x in poll.rest && x != e {
      var k :| 0 <= k < |rest| && rest[k] == x;
      assert batch[n] == e && batch[n + 1 + k] == x;
    }
  }

  lemma PassKeepsHistory(s: State)
    requires VersionInv(s) && HistoryInv(s) && s.poll.Handing? && s.poll.rest != []
    ensures s.poll.id in s.gateways && HistoryInv(DoPass(s))
  {
    var p, e, out := s.poll, s.poll.rest[0], Out(s.log, s.poll);
    var s' := DoPass(s);
    LogGrows(s.log, e, s.gateways[p.id].subscribers);
    BatchStartsAtCursor(s);
    PassKeepsPoll(s.gateways, p, s.committed, Handed(s.log));
    ReachGrows(s.gateways, p, s.committed, out, s'.poll);
    assert Out(s'.log, s'.poll) == out + {e};
    OrderMonotone(s.channels, out, out + {e});
    CursorsMonotone(s.gateways, Handed(s.log), s.origin, Handed(s'.log));
    assert e in p.rest;
    MoreLogKeepsRepeats(s.log, s.committed, Delivery(e, s.gateways[p.id].subscribers));
  }

  lemma TakeUpKeepsHistory(s: State, todo: seq<ChanId>)
    requires VersionInv(s) && HistoryInv(s) && s.poll.Handing? && s.poll.rest != [] && todo != []
    ensures HistoryInv(s.(poll := s.poll.(todo := todo)))
  {
    var p, out := s.poll, Out(s.log, s.poll);
    var p' := p.(todo := todo);
    BatchStartsAtCursor(s);
    ReachGrows(s.gateways, p, s.committed, out, p');
    assert Out(s.log, p') == out + {p.rest[0]};
    OrderMonotone(s.channels, out, out + {p.rest[0]});
  }

  /** A full buffer shows that something was put on it for its gateway. */
  lemma FullBufferWasHanded(ch: Channel, out: set<Event>)
    requires ChannelOk(ch) && SentOk(ch, out) && ch.buffer != []
    ensures exists e :: e in out && e.gatewayId == ch.owner
  {
    assert ch.sent[0] in ch.sent;
  }

  /** A poll that can deliver nothing resumes from a cursor: on a first poll every buffer is empty. */
  lemma FirstPollNeverStuck(s: State, c: ChanId)
    requires ChannelInv(s) && VersionInv(s) && HistoryInv(s) && s.poll.Handing? && Passing(s.poll) == []
    requires c in s.gateways[s.poll.id].subscribers && s.channels[c].buffer != []
    ensures s.poll.resuming
  {
    assert ChannelOk(s.channels[c]) && SentOk(s.channels[c], Out(s.log, s.poll));
    FullBufferWasHanded(s.channels[c], Out(s.log, s.poll));
    CursorInRange(s, s.poll.id);
  }

  lemma EndKeepsPoll(gateways: Gateways, poll: Poll, committed: set<Event>, handed: set<Event>, blocked: bool)
    requires PollOk(gateways, poll, committed, handed) && poll.Handing?
    requires blocked && poll.delivered == [] ==> poll.resuming
    ensures PollOk(gateways, HandedOut(poll.id, poll.version, poll.since, poll.resuming, poll.delivered, blocked),
                   committed, handed)
  {
    PrefixKeepsBatch(committed, poll.id, poll.since, poll.delivered + poll.rest, poll.delivered);
  }

  lemma EndKeepsHistory(s: State, blocked: bool)
    requires HistoryInv(s) && s.poll.Handing? && s.poll.todo == []
    requires blocked && s.poll.delivered == [] ==> s.poll.resuming
    ensures var p := s.poll;
      HistoryInv(s.(poll := HandedOut(p.id, p.version, p.since, p.resuming, p.delivered, blocked)))
  {
    var p := s.poll;
    var p' := HandedOut(p.id, p.version, p.since, p.resuming, p.delivered, blocked);
    EndKeepsPoll(s.gateways, p, s.committed, Handed(s.log), blocked);
    SameReach(s.gateways, p, s.committed, Out(s.log, p), p');
  }

  lemma OfferKeepsHistory(s: State)
    requires Inv(s) && Enabled(s, OfferNext)
    ensures HistoryInv(DoOffer(s))
  {
    var subscribers := s.gateways[s.poll.id].subscribers;
    if s.poll.rest == [] {
      EndKeepsHistory(s, false);
    } else if !ChannelsAvailable(s.channels, subscribers) {
      var c :| c in subscribers && c in s.channels && |s.channels[c].buffer| == CHANNEL_CAPACITY;
      if s.poll.delivered == [] { FirstPollNeverStuck(s, c); }
      EndKeepsHistory(s, true);
    } else if subscribers == [] {
      PassKeepsHistory(s);
    } else {
      TakeUpKeepsHistory(s, subscribers);
    }
  }

  lemma AppendStaysOrdered(ch: Channel, out: set<Event>, e: Event)
    requires SentOk(ch, out) && e in out && forall x | x in ch.sent :: x.processed <= e.processed
    ensures SentOk(Append(ch, [e]), out)
  {
    var all := ch.sent + [e];
    assert forall i | 0 <= i < |ch.sent| :: all[i] == ch.sent[i] && all[i] in ch.sent;
  }

  /** What is on the channel so far is not later than the event in hand. */
  lemma SendKeepsOrder(s: State)
    requires ChannelInv(s) && VersionInv(s) && HistoryInv(s) && Enabled(s, SendNext)
    ensures HistoryInv(s.(channels := Send(s.channels, s.poll.todo[0], s.poll.rest[0]).channels))
  {
    SendFindsRoom(s);
    var c, e, out := s.poll.todo[0], s.poll.rest[0], Out(s.log, s.poll);
    assert e in Passing(s.poll);
    assert ChannelOk(s.channels[c]) && SentOk(s.channels[c], out);
    AppendStaysOrdered(s.channels[c], out, e);
    var channels' := s.channels[c := Append(s.channels[c], [e])];
    forall k | k in channels' ensures SentOk(channels'[k], out) {
      if k != c { assert SentOk(s.channels[k], out); }
    }
  }

  lemma SendKeepsHistory(s: State)
    requires Inv(s) && Enabled(s, SendNext)
    ensures HistoryInv(DoSend(s))
  {
    SendKeepsOrder(s);
    var m := s.(channels := Send(s.channels, s.poll.todo[0], s.poll.rest[0]).channels);
    SendFindsRoom(s);
    if |s.poll.todo| == 1 {
      PassKeepsHistory(m);
    } else {
      FewerToGo(m);
    }
  }

  lemma FewerToGo(s: State)
    requires HistoryInv(s) && s.poll.Handing? && |s.poll.todo| > 1
    ensures HistoryInv(s.(poll := s.poll.(todo := s.poll.todo[1..])))
  {
    SameReach(s.gateways, s.poll, s.committed, Out(s.log, s.poll), s.poll.(todo := s.poll.todo[1..]));
  }

  lemma CursorsMonotone(gateways: Gateways, handed: set<Event>, origin: map<GatewayId, int>, handed': set<Event>)
    requires CursorsOk(gateways, handed, origin) && handed <= handed'
    ensures CursorsOk(gateways, handed', origin)
  {
    forall g | g in gateways ensures CursorOk(gateways[g], g, handed') {
      assert CursorOk(gateways[g], g, handed);
    }
  }

  lemma PrefixKeepsBatch(committed: set<Event>, id: GatewayId, since: int, batch: seq<Event>, es: seq<Event>)
    requires BatchOk(committed, id, since, batch) && es <= batch
    ensures BatchOk(committed, id, since, es)
  {
    assert forall e | e in es :: e in batch;
  }

  lemma WrittenCursor(gw: Gateway, poll: Poll)
    requires poll.HandedOut? && (poll.blocked && poll.delivered == [] ==> poll.since == gw.lastPolled)
    ensures Written(gw, poll.version, poll.since, poll.delivered, poll.blocked).lastPolled
         == NextCursor(gw.lastPolled, poll.delivered)
  {
  }

  /** The write-back moves the cursor to the reach. */
  lemma WriteBackReachesReach(s: State)
    requires VersionInv(s) && HistoryInv(s) && s.poll.HandedOut?
    ensures s.poll.id in s.gateways
    ensures DoWriteBack(s).gateways[s.poll.id].lastPolled == Reach(s.gateways, s.poll, s.poll.id)
    ensures s.gateways[s.poll.id].lastPolled <= Reach(s.gateways, s.poll, s.poll.id)
  {
    CursorInRange(s, s.poll.id);
    WrittenCursor(s.gateways[s.poll.id], s.poll);
    if s.poll.delivered != [] {
      assert s.poll.delivered[|s.poll.delivered| - 1] in s.poll.delivered;
    }
  }

  lemma WriteBackKeepsCursors(s: State)
    requires VersionInv(s) && HistoryInv(s) && s.poll.HandedOut?
    ensures CursorsOk(DoWriteBack(s).gateways, Handed(s.log), DoWriteBack(s).origin)
  {
    var s' := DoWriteBack(s);
    WriteBackReachesReach(s);
    forall g | g in s'.gateways ensures CursorOk(s'.gateways[g], g, Handed(s.log)) {
      assert CursorOk(s.gateways[g], g, Handed(s.log));
      if g == s.poll.id && s.poll.delivered != [] {
        assert s.poll.delivered[|s.poll.delivered| - 1] in s.poll.delivered;
      }
    }
  }

  lemma WriteBackKeepsHistory(s: State)
    requires VersionInv(s) && HistoryInv(s) && s.poll.HandedOut?
    ensures HistoryInv(DoWriteBack(s))
  {
    WriteBackReachesReach(s);
    WriteBackKeepsCursors(s);
    WriteBackKeepsReach(s.gateways, s.poll, s.committed, Out(s.log, s.poll), DoWriteBack(s).gateways[s.poll.id]);
    assert Out(s.log, Idle) == Out(s.log, s.poll);
  }

  lemma WriteBackKeepsReach(gateways: Gateways, poll: Poll, committed: set<Event>, out: set<Event>, gw: Gateway)
    requires HandedOk(gateways, poll, committed, out) && poll.HandedOut? && poll.id in gateways
    requires gw.lastPolled == Reach(gateways, poll, poll.id)
    ensures HandedOk(gateways[poll.id := gw], Idle, committed, out)
  {
  }

  lemma PollerStepKeepsHistory(s: State, step: Step)
    requires Inv(s) && Enabled(s, step) && PollerStep(step)
    ensures HistoryInv(Do(s, step))
  {
    match step {
      case Snapshot(now) => SnapshotKeepsHistory(s, now);
      case Fetch(result) => FetchKeepsHistory(s, result);
      case HandOut => HandOutKeepsHistory(s);
      case OfferNext => OfferKeepsHistory(s);
      case SendNext => SendKeepsHistory(s);
      case WriteBack => WriteBackKeepsHistory(s);
      case _ =>
    }
  }

  lemma CallerStepKeepsSent(s: State, step: Step)
    requires Inv(s) && Enabled(s, step) && !PollerStep(step)
    ensures OrderOk(Do(s, step).channels, Out(s.log, s.poll))
  {
    CallerStepSent(s, step);
    SentFrame(s.channels, Out(s.log, s.poll), Do(s, step).channels);
  }

  lemma RegistryStepLeaves(s: State, step: Step)
    requires Enabled(s, step) && RegistryStep(step)
    ensures var t := Do(s, step);
      && t.log == s.log && t.poll == s.poll && t.committed == s.committed && t.origin == s.origin && t.rows == s.rows
      && t.versions == s.versions
  {
    match step {
      case RegisterLocal(id) => assert Do(s, step) == DoRegister(s, id);
      case Subscribe(id, c) => assert Do(s, step) == DoSubscribe(s, id, c);
      case Unsubscribe(id, c) => assert Do(s, step) == DoUnsubscribe(s, id, c);
      case UnsubscribeAll(id) => assert Do(s, step) == DoUnsubscribeAll(s, id);
      case CloseGateway(id) => assert Do(s, step) == DoCloseGateway(s, id);
    }
  }

  lemma HistoryFrom(s: State, t: State)
    requires t.log == s.log && t.poll == s.poll && t.committed == s.committed && t.origin == s.origin
    requires CursorsOk(t.gateways, Handed(s.log), s.origin)
    requires HandedOk(t.gateways, s.poll, s.committed, Out(s.log, s.poll))
    requires OrderOk(t.channels, Out(s.log, s.poll)) && PollOk(t.gateways, s.poll, s.committed, Handed(s.log))
    requires RepeatsOk(s.log, s.committed)
    ensures HistoryInv(t)
  {
  }

  lemma RegistryStepKeepsHistory(s: State, step: Step)
    requires Inv(s) && Enabled(s, step) && RegistryStep(step)
    ensures HistoryInv(Do(s, step))
  {
    var t := Do(s, step);
    CallerStepKeepsSent(s, step);
    RegistryStepLeaves(s, step);
    RegistryStepFrame(s, step);
    RegistryFrameKeepsHistory(s.gateways, s.poll, s.committed, Handed(s.log), Out(s.log, s.poll), s.origin, t.gateways);
    HistoryFrom(s, t);
  }

  lemma CallerStepKeepsHistory(s: State, step: Step)
    requires Inv(s) && Enabled(s, step) && !PollerStep(step)
    ensures HistoryInv(Do(s, step))
  {
    if RegistryStep(step) {
      RegistryStepKeepsHistory(s, step);
    } else {
      CallerStepKeepsSent(s, step);
      CommittedGrows(s, Do(s, step).committed);
    }
  }

  lemma StepKeepsInv(s: State, step: Step)
    requires Inv(s)
    ensures Inv(Apply(s, step))
  {
    if Enabled(s, step) {
      StepKeepsChannels(s, step);
      StepKeepsVersions(s, step);
      if PollerStep(step) {
        PollerStepKeepsHistory(s, step);
      } else {
        CallerStepKeepsHistory(s, step);
      }
    }
  }

  /** The invariant holds in every state of every run. */
  lemma {:induction false} RunKeepsInv(s: State, steps: seq<Step>)
    requires Inv(s)
    ensures Inv(Run(s, steps))
    decreases |steps|
  {
    if steps != [] {
      StepKeepsInv(s, steps[0]);
      RunKeepsInv(Apply(s, steps[0]), steps[1..]);
    }
  }
}
