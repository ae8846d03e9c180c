// The event hub as a state machine: the shared database (gateway versions and
// event rows), one replica's registry, the subscriber channels and the single
// poll goroutine. Every critical section of the program is one step, except for the
// hand-out: it holds only the read lock, so it is a step for every check and every
// single send, and consumers and other replicas act in between. Steps of different
// goroutines interleave freely.
module HubModel {
  import opened Timestamps

  type GatewayId = string
  type Version = string
  type ChanId = nat

  const CHANNEL_CAPACITY := 100
  const SKEW_WINDOW := 120 * 1_000_000_000

  datatype Payload = Payload(originated: int, eventType: string, action: string, entityId: string, eventData: string)

  datatype Event = Event(gatewayId: GatewayId, processed: int, eventId: string, payload: Payload)

  /** A subscriber channel. `sent` is everything ever put on it and `owner` the
      gateway it was made for; `buffer` is what the consumer has yet to take. */
  datatype Channel = Channel(owner: GatewayId, buffer: seq<Event>, sent: seq<Event>, closed: bool)

  type Channels = map<ChanId, Channel>

  datatype Gateway = Gateway(subscribers: seq<ChanId>, knownVersion: Version, lastPolled: int)

  type Gateways = map<GatewayId, Gateway>

  /** Where the poll goroutine stands with the gateway it is polling. While it hands out it holds the read lock;
      `delivered` has gone to everybody, `rest` is to come, and `todo` are the channels that have yet to get the
      first event of `rest` (none between two events). */
  datatype Poll =
    | Idle
    | Snapped(id: GatewayId, version: Version, since: int, resuming: bool)
    | Fetched(id: GatewayId, version: Version, since: int, resuming: bool, batch: seq<Event>)
    | Handing(id: GatewayId, version: Version, since: int, resuming: bool, delivered: seq<Event>, rest: seq<Event>,
              todo: seq<ChanId>)
    | HandedOut(id: GatewayId, version: Version, since: int, resuming: bool, delivered: seq<Event>, blocked: bool)

  /** One entry of the history: an event and the subscriber list it was handed to. */
  datatype Delivery = Delivery(event: Event, receivers: seq<ChanId>)

  datatype PageRow = PageRow(id: GatewayId, version: Version)

  /** `committed`, `stamped`, `log` and `origin` are history: all rows ever committed, all
      versions ever stamped, all hand-outs in order, and for a gateway with an established
      cursor the start of the window that its first delivering poll replayed. `detached`
      holds channels taken off a list by a goroutine that has yet to close them. `fault`
      records a runtime panic or a send that would block. */
  datatype State = State(
    versions: map<GatewayId, Version>,
    rows: set<Event>,
    gateways: Gateways,
    channels: Channels,
    detached: set<ChanId>,
    page: seq<PageRow>,
    poll: Poll,
    stopped: bool,
    fault: bool,
    committed: set<Event>,
    stamped: set<Version>,
    log: seq<Delivery>,
    origin: map<GatewayId, int>)

  datatype Step =
    | InsertGateway(id: GatewayId)
    | RegisterLocal(id: GatewayId)
    | Publish(event: Event, version: Version)
    | Subscribe(id: GatewayId, chan: ChanId)
    | Unsubscribe(id: GatewayId, chan: ChanId)
    | UnsubscribeAll(id: GatewayId)
    | CloseDetached(chan: ChanId)
    | Receive(chan: ChanId)
    | Cleanup(cutoff: int)
    | CleanupRange(id: GatewayId, cutoff: int)
    | ReadPage(rows: seq<PageRow>)
    | SkipRow
    | Snapshot(now: int)
    | Fetch(result: seq<Event>)
    | AbortFetch
    | HandOut
    | OfferNext
    | SendNext
    | WriteBack
    | Stop
    | CloseGateway(id: GatewayId)

  /** Steps of the poll goroutine. */
  predicate PollerStep(step: Step) {
    match step
    case ReadPage(_) | SkipRow | Snapshot(_) | Fetch(_) | AbortFetch | HandOut | OfferNext | SendNext | WriteBack
      | Stop => true
    case _ => false
  }

  /** Steps of callers on the registry; all take its write lock. */
  predicate RegistryStep(step: Step) {
    match step
    case RegisterLocal(_) | Subscribe(_, _) | Unsubscribe(_, _) | UnsubscribeAll(_) | CloseGateway(_) => true
    case _ => false
  }

  /** Steps of any replica on the shared database. */
  predicate DatabaseStep(step: Step) {
    match step
    case InsertGateway(_) | Publish(_, _) | Cleanup(_) | CleanupRange(_, _) => true
    case _ => false
  }

  // ---------------------------------------------------------------- sequences

  ghost predicate NoDup<T(!new)>(s: seq<T>) {
    forall i, j | 0 <= i < j < |s| :: s[i] != s[j]
  }

  ghost predicate TimeOrdered(es: seq<Event>) {
    forall i, j | 0 <= i < j < |es| :: es[i].processed <= es[j].processed
  }

  /** `s` without position `i`, its place taken by the last element. */
  function SwapRemove<T>(s: seq<T>, i: nat): seq<T>
    requires i < |s|
  {
    s[i := s[|s| - 1]][..|s| - 1]
  }

  /** First position of `x`, or `|s|` when it is absent. */
  function IndexOf<T(==)>(s: seq<T>, x: T): (i: nat)
    ensures i <= |s|
    ensures i < |s| ==> s[i] == x
    ensures forall k | 0 <= k < i :: s[k] != x
    ensures i == |s| <==> x !in s
  {
    if s == [] then 0 else if s[0] == x then 0 else 1 + IndexOf(s[1..], x)
  }

  // ----------------------------------------------------------------- channels

  datatype Sends = Sends(channels: Channels, fault: bool)

  predicate HasRoom(channels: Channels, c: ChanId) {
    c in channels && !channels[c].closed && |channels[c].buffer| < CHANNEL_CAPACITY
  }

  function Append(ch: Channel, es: seq<Event>): Channel {
    ch.(buffer := ch.buffer + es, sent := ch.sent + es)
  }

  /** A send panics on a closed channel and would block on a full one. */
  function Send(channels: Channels, c: ChanId, e: Event): Sends {
    if HasRoom(channels, c) then Sends(channels[c := Append(channels[c], [e])], false)
    else Sends(channels, true)
  }

  predicate ChannelsAvailable(channels: Channels, subscribers: seq<ChanId>) {
    forall c | c in subscribers && c in channels :: |channels[c].buffer| != CHANNEL_CAPACITY
  }

  /** Closing a closed channel panics. */
  function CloseOne(channels: Channels, c: ChanId): Sends {
    if c in channels && !channels[c].closed then Sends(channels[c := channels[c].(closed := true)], false)
    else Sends(channels, true)
  }

  function CloseAll(channels: Channels, cs: seq<ChanId>): Sends
    decreases |cs|
  {
    if cs == [] then Sends(channels, false)
    else
      var first := CloseOne(channels, cs[0]);
      var rest := CloseAll(first.channels, cs[1..]);
      Sends(rest.channels, first.fault || rest.fault)
  }

  // -------------------------------------------------------------- poll pieces

  /** Any answer the database may give to the event query: the gateway's rows from `since`
      on, once each, in timestamp order; rows with equal timestamps come in any order. */
  ghost predicate IsQueryResult(rows: set<Event>, id: GatewayId, since: int, result: seq<Event>) {
    && TimeOrdered(result)
    && NoDup(result)
    && forall e :: e in result <==> e in rows && e.gatewayId == id && e.processed >= since
  }

  function TrimSingleBoundaryReplay(events: seq<Event>, boundary: int, enabled: bool): seq<Event> {
    if !enabled || |events| == 0 || events[0].processed != boundary then events
    else if |events| == 1 || events[1].processed != boundary then events[1..]
    else events
  }

  function WindowStart(gw: Gateway, now: int): int {
    if gw.lastPolled > 0 then UnixTimestampToTime(gw.lastPolled) else now - SKEW_WINDOW
  }

  /** The registry entry after the write-back of a poll. */
  function Written(gw: Gateway, version: Version, since: int, delivered: seq<Event>, blocked: bool): Gateway {
    if blocked then
      gw.(lastPolled := if delivered != [] then delivered[|delivered| - 1].processed else since)
    else
      gw.(knownVersion := version,
          lastPolled := if delivered != [] then delivered[|delivered| - 1].processed else gw.lastPolled)
  }

  /** A poll that was not blocked leaves its version, one that delivered leaves its last timestamp, and one that was blocked
      before the first event goes on where it started. */
  ghost predicate EndsPoll(gw: Gateway, version: Version, since: int, delivered: seq<Event>, blocked: bool, gw': Gateway) {
    && gw'.subscribers == gw.subscribers
    && gw'.knownVersion == (if blocked then gw.knownVersion else version)
    && (delivered != [] ==> gw'.lastPolled == delivered[|delivered| - 1].processed)
    && (delivered == [] ==> gw'.lastPolled == if blocked then since else gw.lastPolled)
  }

  // -------------------------------------------------------------- transitions

  /** The hand-out keeps the write lock away; everything else may happen at any time its own data allows. */
  ghost predicate Enabled(s: State, step: Step) {
    (RegistryStep(step) ==> !s.poll.Handing?) && Possible(s, step)
  }

  ghost predicate Possible(s: State, step: Step) {
    match step
    case Publish(e, v) =>
      && ClockRange(e.processed)
      && v != "" && v !in s.stamped
      && forall r | r in s.rows :: !(r.gatewayId == e.gatewayId && r.eventId == e.eventId)
    case Subscribe(_, c) => c !in s.channels
    case CloseDetached(c) => c in s.detached
    case Receive(c) => c in s.channels && s.channels[c].buffer != []
    case ReadPage(rows) =>
      && s.poll.Idle? && s.page == [] && !s.stopped
      && (forall i, j | 0 <= i < j < |rows| :: rows[i].id != rows[j].id)
      && forall r | r in rows :: r.id in s.versions && s.versions[r.id] == r.version
    case SkipRow => s.poll.Idle? && s.page != []
    case Snapshot(now) => s.poll.Idle? && s.page != [] && ClockRange(now)
    case Fetch(result) => s.poll.Snapped? && IsQueryResult(s.rows, s.poll.id, s.poll.since, result)
    case AbortFetch => s.poll.Snapped?
    case HandOut => s.poll.Fetched? && s.poll.id in s.gateways
    case OfferNext => s.poll.Handing? && s.poll.id in s.gateways && s.poll.todo == []
    case SendNext => s.poll.Handing? && s.poll.id in s.gateways && s.poll.todo != [] && s.poll.rest != []
    case WriteBack => s.poll.HandedOut? && s.poll.id in s.gateways
    case Stop => s.poll.Idle?
    case CloseGateway(id) => s.stopped && id in s.gateways
    case _ => true
  }

  function DoRegister(s: State, id: GatewayId): State {
    if id in s.gateways then s else s.(gateways := s.gateways[id := Gateway([], "", 0)])
  }

  function DoPublish(s: State, e: Event, v: Version): State {
    s.(versions := s.versions[e.gatewayId := v], rows := s.rows + {e},
       committed := s.committed + {e}, stamped := s.stamped + {v})
  }

  function DoReceive(s: State, c: ChanId): State
    requires c in s.channels && s.channels[c].buffer != []
  {
    var ch := s.channels[c];
    s.(channels := s.channels[c := ch.(buffer := ch.buffer[1..])])
  }

  function DoSnapshot(s: State, now: int): State
    requires s.page != []
  {
    var row := s.page[0];
    var s' := s.(page := s.page[1..]);
    if row.id !in s.gateways then s'
    else
      var gw := s.gateways[row.id];
      if gw.subscribers == [] || row.version == gw.knownVersion || row.version == "" then s'
      else s'.(poll := Snapped(row.id, row.version, WindowStart(gw, now), gw.lastPolled > 0))
  }

  function DoFetch(s: State, result: seq<Event>): State
    requires s.poll.Snapped?
  {
    var p := s.poll;
    s.(poll := Fetched(p.id, p.version, p.since, p.resuming,
                       TrimSingleBoundaryReplay(result, p.since, p.resuming)))
  }

  function DoHandOut(s: State): State
    requires s.poll.Fetched?
  {
    var p := s.poll;
    s.(poll := Handing(p.id, p.version, p.since, p.resuming, [], p.batch, []))
  }

  /** The event in hand has gone to everybody on the list. */
  function DoPass(s: State): State
    requires s.poll.Handing? && s.poll.id in s.gateways && s.poll.rest != []
  {
    var p := s.poll;
    s.(log := s.log + [Delivery(p.rest[0], s.gateways[p.id].subscribers)],
       poll := p.(delivered := p.delivered + [p.rest[0]], rest := p.rest[1..], todo := []))
  }

  /** The head of the delivery loop: end with the batch, end at a full buffer, or take up the next event. */
  function DoOffer(s: State): State
    requires s.poll.Handing? && s.poll.id in s.gateways
  {
    var p := s.poll;
    var subscribers := s.gateways[p.id].subscribers;
    if p.rest == [] || !ChannelsAvailable(s.channels, subscribers) then
      s.(poll := HandedOut(p.id, p.version, p.since, p.resuming, p.delivered, p.rest != []))
    else if subscribers == [] then DoPass(s)
    else s.(poll := p.(todo := subscribers))
  }

  /** One send of the event in hand; the last one completes its delivery. */
  function DoSend(s: State): State
    requires s.poll.Handing? && s.poll.id in s.gateways && s.poll.todo != [] && s.poll.rest != []
  {
    var p := s.poll;
    var r := Send(s.channels, p.todo[0], p.rest[0]);
    var s' := s.(channels := r.channels, fault := s.fault || r.fault, poll := p.(todo := p.todo[1..]));
    if |p.todo| == 1 then DoPass(s') else s'
  }

  function DoWriteBack(s: State): State
    requires s.poll.HandedOut? && s.poll.id in s.gateways
  {
    var p := s.poll;
    var gw := s.gateways[p.id];
    var gw' := Written(gw, p.version, p.since, p.delivered, p.blocked);
    s.(gateways := s.gateways[p.id := gw'],
       origin := if gw.lastPolled == 0 && gw'.lastPolled != 0 then s.origin[p.id := p.since] else s.origin,
       poll := Idle)
  }

  function DoSubscribe(s: State, id: GatewayId, c: ChanId): State {
    if id in s.gateways then
      var gw := s.gateways[id];
      s.(channels := s.channels[c := Channel(id, [], [], false)],
         gateways := s.gateways[id := gw.(subscribers := gw.subscribers + [c])])
    else
      s.(channels := s.channels[c := Channel(id, [], [], true)])
  }

  /** The registry entry after one subscriber has been taken off the list. */
  function Removed(gw: Gateway, i: nat): Gateway
    requires i < |gw.subscribers|
  {
    var rest := SwapRemove(gw.subscribers, i);
    gw.(subscribers := rest, knownVersion := if rest == [] then "" else gw.knownVersion)
  }

  function DoUnsubscribe(s: State, id: GatewayId, c: ChanId): State {
    if id in s.gateways && c in s.gateways[id].subscribers then
      var gw := s.gateways[id];
      s.(gateways := s.gateways[id := Removed(gw, IndexOf(gw.subscribers, c))],
         detached := s.detached + {c})
    else s
  }

  function DoUnsubscribeAll(s: State, id: GatewayId): State {
    if id in s.gateways then
      var gw := s.gateways[id];
      s.(gateways := s.gateways[id := gw.(subscribers := [], knownVersion := "")],
         detached := s.detached + set c | c in gw.subscribers)
    else s
  }

  function DoCloseDetached(s: State, c: ChanId): State {
    var r := CloseOne(s.channels, c);
    s.(channels := r.channels, fault := s.fault || r.fault, detached := s.detached - {c})
  }

  function DoCloseGateway(s: State, id: GatewayId): State
    requires id in s.gateways
  {
    var gw := s.gateways[id];
    var r := CloseAll(s.channels, gw.subscribers);
    s.(channels := r.channels, fault := s.fault || r.fault,
       gateways := s.gateways[id := gw.(subscribers := [])])
  }

  /** What an enabled step does. */
  ghost function Do(s: State, step: Step): State
    requires Enabled(s, step)
  {
    match step
    case InsertGateway(id) => if id in s.versions then s else s.(versions := s.versions[id := ""])
    case RegisterLocal(id) => DoRegister(s, id)
    case Publish(e, v) => DoPublish(s, e, v)
    case Subscribe(id, c) => DoSubscribe(s, id, c)
    case Unsubscribe(id, c) => DoUnsubscribe(s, id, c)
    case UnsubscribeAll(id) => DoUnsubscribeAll(s, id)
    case CloseDetached(c) => DoCloseDetached(s, c)
    case Receive(c) => DoReceive(s, c)
    case Cleanup(cutoff) => s.(rows := set e | e in s.rows && e.processed >= cutoff)
    case CleanupRange(id, cutoff) =>
      s.(rows := set e | e in s.rows && !(e.gatewayId == id && e.processed < cutoff))
    case ReadPage(rows) => s.(page := rows)
    case SkipRow => s.(page := s.page[1..])
    case Snapshot(now) => DoSnapshot(s, now)
    case Fetch(result) => DoFetch(s, result)
    case AbortFetch => s.(poll := Idle)
    case HandOut => DoHandOut(s)
    case OfferNext => DoOffer(s)
    case SendNext => DoSend(s)
    case WriteBack => DoWriteBack(s)
    case Stop => s.(stopped := true, page := [])
    case CloseGateway(id) => DoCloseGateway(s, id)
  }

  /** A step that is not enabled leaves the state alone, so every step sequence is a run. */
  ghost function Apply(s: State, step: Step): State {
    if Enabled(s, step) then Do(s, step) else s
  }

  ghost function Run(s: State, steps: seq<Step>): State
    decreases |steps|
  {
    if steps == [] then s else Run(Apply(s, steps[0]), steps[1..])
  }

  /** The predicate holds of every state of the run and the step taken there. */
  ghost predicate Throughout(s: State, steps: seq<Step>, p: (State, Step) -> bool)
    decreases |steps|
  {
    steps == [] || (p(s, steps[0]) && Throughout(Apply(s, steps[0]), steps[1..], p))
  }

  /** A replica that has just started on a database with some earlier content. */
  ghost predicate Initial(s: State) {
    && s.gateways == map[] && s.channels == map[] && s.detached == {}
    && s.page == [] && s.poll == Idle && !s.stopped && !s.fault
    && s.committed == s.rows && s.log == [] && s.origin == map[]
    && "" !in s.stamped
    && (forall id | id in s.versions :: s.versions[id] == "" || s.versions[id] in s.stamped)
    && (forall e | e in s.rows ::
          ClockRange(e.processed) && e.gatewayId in s.versions && s.versions[e.gatewayId] != "")
    && (forall e, f | e in s.rows && f in s.rows && e.gatewayId == f.gatewayId && e.eventId == f.eventId :: e == f)
  }

  // -------------------------------------------------------- history functions

  /** Events handed out, to whatever subscriber list. */
  function Handed(log: seq<Delivery>): set<Event> {
    set d | d in log :: d.event
  }

  /** Events handed out to at least one subscriber. */
  function Received(log: seq<Delivery>): set<Event> {
    set d | d in log && d.receivers != [] :: d.event
  }

  /** Another row of the set has the same gateway and timestamp. */
  ghost predicate HasTwin(rows: set<Event>, e: Event) {
    exists f :: f in rows && f != e && f.gatewayId == e.gatewayId && f.processed == e.processed
  }

  /** What the poll in flight has put on some channel so far: the delivered events and the one in hand. */
  function Passing(poll: Poll): seq<Event> {
    match poll
    case HandedOut(_, _, _, _, delivered, _) => delivered
    case Handing(_, _, _, _, delivered, rest, todo) => if todo != [] && rest != [] then delivered + [rest[0]] else delivered
    case _ => []
  }

  /** Where a poll leaves the cursor: at the last event, or where it was. */
  function NextCursor(cursor: int, es: seq<Event>): int {
    if es != [] then es[|es| - 1].processed else cursor
  }

  /** The timestamp that the cursor of a gateway has, or would have after what is in flight. */
  function Reach(gateways: Gateways, poll: Poll, id: GatewayId): int
    requires id in gateways
  {
    if !poll.Idle? && poll.id == id then NextCursor(gateways[id].lastPolled, Passing(poll))
    else gateways[id].lastPolled
  }
}
