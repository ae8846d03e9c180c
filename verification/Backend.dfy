// One replica of the SQL event hub, method by method. The poll of a gateway is cut
// at its locks, and the hand-out at every check and send; in between, other replicas,
// consumers and callers of this replica act as a schedule says. Each method is proved
// to be a step, or a run of steps, of the protocol.
module Backend {
  import opened Timestamps
  import opened HubModel
  import opened HubRuns
  import opened HubChannels
  import opened HubInvariant
  import opened HubHandOuts
  import opened Registry
  import opened GoStrings
  import opened Publishing
  import opened Paging
  import opened Interleavings
  import opened PollRuns

  class SqlBackend {
    const registry: GatewayRegistry
    // What everybody else does when this goroutine pauses for the k-th time.
    const others: nat -> seq<Step>
    var tick: nat
    // The shared tables, and all versions ever stamped: a new UUID is none of them.
    var versions: map<GatewayId, Version>
    var rows: set<Event>
    var stamped: set<Version>
    // The channels, the next one `make(chan)` will return, and those that callers have yet to close.
    var channels: Channels
    var nextChan: ChanId
    var detached: set<ChanId>
    // The poll goroutine's page and local variables.
    var page: seq<PageRow>
    var poll: Poll
    var stopped: bool
    // The gateway ids in use.
    ghost var ids: set<GatewayId>
    // History.
    ghost var fault: bool
    ghost var committed: set<Event>
    ghost var log: seq<Delivery>
    ghost var origin: map<GatewayId, int>

    ghost predicate Valid()
      reads this, registry, registry.gateways.Values
    {
      && registry.Valid() && ChannelsNumbered(channels, nextChan) && Scheduled(others, ids) && versions.Keys <= ids
      && (poll.Idle? || poll.id in registry.gateways)
    }

    ghost function View(): State
      reads this, registry, registry.gateways.Values
    {
      State(versions, rows, registry.View(), channels, detached, page, poll, stopped, fault,
            committed, stamped, log, origin)
    }

    /** What is new in the registry was made since. */
    twostate predicate Grown()
      reads this, registry
    {
      fresh(registry.gateways.Values - old(registry.gateways.Values))
    }

    /** A new replica starts with an empty registry on whatever the database holds. */
    constructor (versions: map<GatewayId, Version>, rows: set<Event>, others: nat -> seq<Step>, ghost ids: set<GatewayId>)
      requires Scheduled(others, ids) && versions.Keys <= ids
      ensures Valid() && fresh(registry) && fresh(registry.gateways.Values)
      ensures View().versions == versions && View().rows == rows
      ensures RowsOk(versions, rows, rows) ==> Initial(View())
    {
      registry := new GatewayRegistry();
      this.others, tick, this.ids := others, 0, ids;
      this.versions, this.rows := versions, rows;
      stamped := versions.Values - {""};
      channels, nextChan, page, poll, stopped := map[], 0, [], Idle, false;
      detached, fault, committed, log, origin := {}, false, rows, [], map[];
    }

    // ---------------------------------------------------------- other parties

    method InsertRow(id: GatewayId)
      requires Valid() && id in ids
      modifies this`versions
      ensures Valid() && View() == Apply(old(View()), InsertGateway(id))
    {
      if id !in versions {
        versions := versions[id := ""];
      }
    }

    /** A publish that another replica commits. */
    method CommitRow(e: Event, v: Version)
      requires Valid() && e.gatewayId in ids
      modifies this`versions, this`rows, this`stamped, this`committed
      ensures Valid() && View() == Apply(old(View()), Step.Publish(e, v))
    {
      PublishIs(View(), e, v);
      if ClockRange(e.processed) && v != "" && v !in stamped && !HasEvent(rows, e.gatewayId, e.eventId) {
        CommitTransaction(versions[e.gatewayId := v], rows + {e}, e, v);
      }
    }

    method DeleteRows(cutoff: int)
      requires Valid()
      modifies this`rows
      ensures Valid() && View() == Apply(old(View()), Cleanup(cutoff))
    {
      rows := set e | e in rows && e.processed >= cutoff;
    }

    method DeleteRange(id: GatewayId, cutoff: int)
      requires Valid()
      modifies this`rows
      ensures Valid() && View() == Apply(old(View()), CleanupRange(id, cutoff))
    {
      rows := set e | e in rows && !(e.gatewayId == id && e.processed < cutoff);
    }

    /** A consumer takes the next event off its channel. */
    method Take(c: ChanId)
      requires Valid()
      modifies this`channels
      ensures Valid() && View() == Apply(old(View()), Receive(c))
    {
      if c in channels && channels[c].buffer != [] {
        channels := channels[c := channels[c].(buffer := channels[c].buffer[1..])];
      }
    }

    /** A caller registers a gateway with this replica; like every change of the registry it waits for the read lock. */
    method RegisterHere(id: GatewayId)
      requires Valid()
      modifies registry
      ensures Valid() && Grown() && View() == Apply(old(View()), RegisterLocal(id))
    {
      if !poll.Handing? {
        var _ := registry.Register(id);
      }
    }

    method SubscribeHere(id: GatewayId, c: ChanId)
      requires Valid()
      modifies this`channels, this`nextChan, registry.gateways.Values
      ensures Valid() && registry.gateways == old(registry.gateways) && View() == Apply(old(View()), Step.Subscribe(id, c))
    {
      if !poll.Handing? && c !in channels {
        var _ := AddChannel(id, c);
      }
    }

    method UnsubscribeHere(id: GatewayId, c: ChanId)
      requires Valid()
      modifies this`detached, registry.gateways.Values
      ensures Valid() && registry.gateways == old(registry.gateways) && View() == Apply(old(View()), Step.Unsubscribe(id, c))
    {
      if !poll.Handing? {
        var _ := Detach(id, c);
      }
    }

    method UnsubscribeAllHere(id: GatewayId)
      requires Valid()
      modifies this`detached, registry.gateways.Values
      ensures Valid() && registry.gateways == old(registry.gateways) && View() == Apply(old(View()), Step.UnsubscribeAll(id))
    {
      if !poll.Handing? {
        var _, _ := DetachAll(id);
      }
    }

    method CloseHere(c: ChanId)
      requires Valid()
      modifies this`channels, this`fault, this`detached
      ensures Valid() && View() == Apply(old(View()), CloseDetached(c))
    {
      if c in detached {
        CloseChannel(c);
      }
    }

    method CloseGatewayHere(id: GatewayId)
      requires Valid()
      modifies this`channels, this`fault, registry.gateways.Values
      ensures Valid() && registry.gateways == old(registry.gateways) && View() == Apply(old(View()), CloseGateway(id))
    {
      CloseGatewayApplies(View(), id);
      if !poll.Handing? && stopped && id in registry.gateways {
        CloseSubscribersOf(id);
      }
    }

    method PerformOnTables(step: Step)
      requires Valid() && DatabaseStep(step) && Among(ids, step)
      modifies this`versions, this`rows, this`stamped, this`committed
      ensures Valid() && View() == Apply(old(View()), step)
    {
      match step {
        case InsertGateway(id) => InsertRow(id);
        case Publish(e, v) => CommitRow(e, v);
        case Cleanup(cutoff) => DeleteRows(cutoff);
        case CleanupRange(id, cutoff) => DeleteRange(id, cutoff);
      }
    }

    method PerformHere(step: Step)
      requires Valid() && RegistryStep(step)
      modifies this`channels, this`nextChan, this`detached, this`fault, registry, registry.gateways.Values
      ensures Valid() && Grown() && View() == Apply(old(View()), step)
    {
      match step {
        case RegisterLocal(id) => RegisterHere(id);
        case Subscribe(id, c) => SubscribeHere(id, c);
        case Unsubscribe(id, c) => UnsubscribeHere(id, c);
        case UnsubscribeAll(id) => UnsubscribeAllHere(id);
        case CloseGateway(id) => CloseGatewayHere(id);
      }
    }

    method Perform(step: Step)
      requires Valid() && Foreign(step) && Among(ids, step)
      modifies this`versions, this`rows, this`stamped, this`committed, this`channels, this`nextChan, this`detached, this`fault
      modifies registry, registry.gateways.Values
      ensures Valid() && Grown() && View() == Apply(old(View()), step)
    {
      if DatabaseStep(step) {
        PerformOnTables(step);
      } else if RegistryStep(step) {
        PerformHere(step);
      } else {
        match step {
          case Receive(c) => Take(c);
          case CloseDetached(c) => CloseHere(c);
        }
      }
    }

    method PerformNext(ghost s0: State, acts: seq<Step>, i: nat)
      requires Valid() && i < |acts| && (forall act | act in acts :: Foreign(act) && Among(ids, act))
      requires View() == Run(s0, acts[..i])
      modifies this`versions, this`rows, this`stamped, this`committed, this`channels, this`nextChan, this`detached, this`fault
      modifies registry, registry.gateways.Values
      ensures Valid() && Grown() && View() == Run(s0, acts[..i + 1])
    {
      RunThenStep(s0, acts[..i], acts[i]);
      assert acts[..i + 1] == acts[..i] + [acts[i]];
      Perform(acts[i]);
    }

    method PerformAll(acts: seq<Step>)
      requires Valid() && forall act | act in acts :: Foreign(act) && Among(ids, act)
      modifies this`versions, this`rows, this`stamped, this`committed, this`channels, this`nextChan, this`detached, this`fault
      modifies registry, registry.gateways.Values
      ensures Valid() && Grown() && View() == Run(old(View()), acts)
    {
      ghost var s0 := View();
      var i := 0;
      assert acts[..0] == [];
      while i < |acts|
        invariant 0 <= i <= |acts| && Valid() && Grown() && View() == Run(s0, acts[..i])
      {
        PerformNext(s0, acts, i);
        i := i + 1;
      }
      assert acts[..i] == acts;
    }

    /** This goroutine pauses and the others act. */
    method Yield() returns (ghost steps: seq<Step>)
      requires Valid()
      modifies this`versions, this`rows, this`stamped, this`committed, this`channels, this`nextChan, this`detached, this`fault
      modifies this`tick, registry, registry.gateways.Values
      ensures Valid() && Grown()
      ensures View() == Run(old(View()), steps) && steps == others(old(tick)) && tick == old(tick) + 1
      ensures AllForeign(steps)
    {
      var acts := NextActs();
      steps := acts;
      PerformAll(acts);
    }

    /** What the schedule has for this pause. */
    method NextActs() returns (acts: seq<Step>)
      requires Valid()
      modifies this`tick
      ensures Valid() && View() == old(View()) && tick == old(tick) + 1 && acts == others(old(tick))
      ensures forall act | act in acts :: Foreign(act) && Among(ids, act)
    {
      acts := others(tick);
      tick := tick + 1;
    }

    // ------------------------------------------------------------ subscribing

    /** Like every change of the registry, this waits until no hand-out holds the read lock. */
    method Subscribe(id: GatewayId) returns (ch: ChanId, ok: bool)
      requires Valid() && !poll.Handing?
      modifies this, registry.gateways.Values
      ensures Valid() && ch !in old(View()).channels && ok == (id in old(View()).gateways)
      ensures View() == DoSubscribe(old(View()), id, ch)
      ensures channels == old(channels)[ch := Channel(id, [], [], !ok)]
      ensures ok ==> View().gateways[id].subscribers == old(View()).gateways[id].subscribers + [ch]
      ensures forall g | g in old(View()).gateways ::
        g in View().gateways && View().gateways[g].knownVersion == old(View()).gateways[g].knownVersion
        && View().gateways[g].lastPolled == old(View()).gateways[g].lastPolled
        && (g != id ==> View().gateways[g].subscribers == old(View()).gateways[g].subscribers)
    {
      ch := nextChan;
      ok := AddChannel(id, ch);
    }

    /** The channel goes on the list of the gateway, or is closed at once if there is no such gateway. */
    method AddChannel(id: GatewayId, ch: ChanId) returns (ok: bool)
      requires Valid() && ch !in channels
      modifies this`channels, this`nextChan, registry.gateways.Values
      ensures Valid() && registry.gateways == old(registry.gateways) && ok == (id in old(View()).gateways)
      ensures View() == DoSubscribe(old(View()), id, ch)
    {
      var made := Channel(id, [], [], false);
      ok := PutOnList(id, ch);
      if !ok {
        made := made.(closed := true);
      }
      MakeChannel(ch, made);
    }

    method MakeChannel(ch: ChanId, made: Channel)
      requires Valid()
      modifies this`channels, this`nextChan
      ensures Valid() && View() == old(View()).(channels := old(channels)[ch := made])
    {
      channels := channels[ch := made];
      if ch >= nextChan {
        nextChan := ch + 1;
      }
    }

    method PutOnList(id: GatewayId, ch: ChanId) returns (ok: bool)
      requires Valid()
      modifies registry.gateways.Values
      ensures Valid() && registry.gateways == old(registry.gateways) && ok == (id in old(View()).gateways)
      ensures registry.View() == DoSubscribe(old(View()), id, ch).gateways
    {
      var err := registry.AddSubscriber(id, ch);
      ok := err == NoError;
    }

    method CloseChannel(ch: ChanId)
      requires Valid()
      modifies this`channels, this`fault, this`detached
      ensures Valid() && View() == DoCloseDetached(old(View()), ch)
    {
      if ch in channels && !channels[ch].closed {
        channels := channels[ch := channels[ch].(closed := true)];
      } else {
        fault := true;
      }
      detached := detached - {ch};
      assert registry.View() == old(registry.View());
    }

    method Unsubscribe(id: GatewayId, subscriber: ChanId) returns (err: RegistryError)
      requires Valid() && !poll.Handing?
      modifies this, registry.gateways.Values
      ensures Valid()
      ensures err == if id !in old(View()).gateways then GatewayNotFound
                     else if subscriber !in old(View()).gateways[id].subscribers then SubscriberNotFound else NoError
      ensures View() == if err != NoError then old(View())
                        else Run(old(View()), [Step.Unsubscribe(id, subscriber), CloseDetached(subscriber)])
      ensures err == NoError ==>
        && OnlyCloses(old(channels), {subscriber}, channels)
        && multiset(View().gateways[id].subscribers) == multiset(old(View()).gateways[id].subscribers) - multiset{subscriber}
    {
      err := Detach(id, subscriber);
      if err != NoError {
        return;
      }
      CloseChannel(subscriber);
      RemoveThenClose(old(View()), id, subscriber);
      CloseOneCloses(old(channels), subscriber);
      RemovedOnce(old(View()), id, subscriber);
    }

    method Detach(id: GatewayId, subscriber: ChanId) returns (err: RegistryError)
      requires Valid()
      modifies this`detached, registry.gateways.Values
      ensures Valid() && registry.gateways == old(registry.gateways)
      ensures err == if id !in old(View()).gateways then GatewayNotFound
                     else if subscriber !in old(View()).gateways[id].subscribers then SubscriberNotFound else NoError
      ensures View() == DoUnsubscribe(old(View()), id, subscriber)
    {
      err := TakeOffList(id, subscriber);
      if err == NoError {
        MarkDetached({subscriber});
      }
    }

    method MarkDetached(cs: set<ChanId>)
      requires Valid()
      modifies this`detached
      ensures Valid() && View() == old(View()).(detached := old(detached) + cs)
    {
      detached := detached + cs;
    }

    method TakeOffList(id: GatewayId, subscriber: ChanId) returns (err: RegistryError)
      requires Valid()
      modifies registry.gateways.Values
      ensures Valid() && registry.gateways == old(registry.gateways)
      ensures err == if id !in old(View()).gateways then GatewayNotFound
                     else if subscriber !in old(View()).gateways[id].subscribers then SubscriberNotFound else NoError
      ensures registry.View() == DoUnsubscribe(old(View()), id, subscriber).gateways
    {
      err := registry.RemoveSubscriber(id, subscriber);
    }

    /** Closes channels that have been taken off a list. */
    method CloseChannels(cs: seq<ChanId>)
      requires Valid() && NoDup(cs) && forall c | c in cs :: c in detached
      modifies this
      ensures Valid() && View() == Run(old(View()), CloseSteps(cs))
    {
      ghost var taken := View();
      assert cs[..0] == [];
      var i := 0;
      while i < |cs|
        invariant 0 <= i <= |cs| && Valid()
        invariant forall k | i <= k < |cs| :: cs[k] in detached
        invariant View() == Run(taken, CloseSteps(cs[..i]))
      {
        CloseOneMore(taken, cs, i);
        CloseChannel(cs[i]);
        i := i + 1;
      }
      assert cs[..i] == cs;
    }

    method DetachAll(id: GatewayId) returns (removed: seq<ChanId>, err: RegistryError)
      requires Valid()
      modifies this`detached, registry.gateways.Values
      ensures Valid() && registry.gateways == old(registry.gateways)
      ensures removed == if id in old(View()).gateways then old(View()).gateways[id].subscribers else []
      ensures err == if id in old(View()).gateways then NoError else GatewayNotFound
      ensures View() == DoUnsubscribeAll(old(View()), id) && forall c | c in removed :: c in detached
    {
      removed, err := registry.RemoveAllSubscribers(id);
      MarkDetached(set c | c in removed);
    }

    /** Takes every channel off the list under the lock, then closes them one by one. */
    method UnsubscribeAll(id: GatewayId) returns (removed: seq<ChanId>, err: RegistryError)
      requires Valid() && !poll.Handing? && ListsOk(View().gateways, View().channels, View().detached)
      modifies this, registry.gateways.Values
      ensures Valid() && removed == if id in old(View()).gateways then old(View()).gateways[id].subscribers else []
      ensures err == if id in old(View()).gateways then NoError else GatewayNotFound
      ensures View() == Run(old(View()), [Step.UnsubscribeAll(id)] + CloseSteps(removed))
      ensures OnlyCloses(old(channels), (set c | c in removed), channels)
    {
      assert ListsOk(View().gateways, View().channels, View().detached);
      removed, err := DetachAll(id);
      RemoveAllThenClose(old(View()), id, removed);
      CloseStepsClose(View(), removed);
      CloseChannels(removed);
    }

    // -------------------------------------------------------------- publishing

    /** All or nothing: the replica's tables see the whole publish step or nothing of it. When the insert fails, others may
        act between the rollback and the check whether the event is there. Success means that a row with the id exists. */
    method Publish(gatewayId: GatewayId, eventId: string, payload: Payload,
                   version: Version, generated: string, now: int, env: Outcomes)
      returns (err: PublishError, ghost meanwhile: seq<Step>)
      requires Valid() && ClockRange(now) && version != "" && version !in stamped
      modifies this`versions, this`rows, this`stamped, this`committed, this`channels, this`nextChan, this`detached, this`fault
      modifies this`tick, this`ids, registry, registry.gateways.Values
      ensures Valid() && Grown() && meanwhile == others(old(tick))
      ensures var id := if AllSpace(eventId) then generated else TrimSpace(eventId);
        var data := if AllSpace(payload.eventData) then "{}" else TrimSpace(payload.eventData);
        var e := Event(gatewayId, now, id,
                       Payload(payload.originated, payload.eventType, payload.action, payload.entityId, data));
        var duplicate := HasEvent(old(rows), gatewayId, e.eventId);
        var applied := env.begin && env.ensure && env.insert && !duplicate && env.update && !env.commit.Refused?;
        var undone := env.begin && env.ensure && (duplicate || !env.insert) && env.rollback;
        && View() == (if applied then Apply(old(View()), Step.Publish(e, version))
                      else if undone then Run(old(View()), meanwhile) else old(View()))
        && err == (if !env.begin then BeginFailed
                   else if !env.ensure then EnsureFailed
                   else if undone then (if !env.check then CheckFailed
                                        else if HasEvent(rows, gatewayId, e.eventId) then Ok else InsertFailed)
                   else if duplicate || !env.insert then RollbackFailed
                   else if !env.update then UpdateFailed
                   else if env.commit.Done? then Ok else CommitFailed)
        && (err.Ok? ==> HasEvent(rows, gatewayId, e.eventId))
        && (applied ==> rows == old(rows) + {e} && versions == old(versions)[gatewayId := version])
    {
      BlankIff(eventId);
      BlankIff(payload.eventData);
      meanwhile := others(tick);
      NoteGateway(gatewayId);
      var id := TrimSpace(eventId);
      if id == "" {
        id := generated;
      }
      var data := TrimSpace(payload.eventData);
      if data == "" {
        data := "{}";
      }
      var e := Event(gatewayId, now, id, payload.(eventData := data));
      if !env.begin {
        return BeginFailed, meanwhile;
      }
      if !env.ensure {
        return EnsureFailed, meanwhile;
      }
      err, meanwhile := InTransaction(e, version, env);
    }

    ghost method NoteGateway(id: GatewayId)
      requires Valid()
      modifies this`ids
      ensures Valid() && ids == old(ids) + {id} && View() == old(View())
    {
      ScheduledAmongMore(others, ids, ids + {id});
      ids := ids + {id};
    }

    /** The transaction from the insert on; the gateway's row is there. */
    method InTransaction(e: Event, version: Version, env: Outcomes) returns (err: PublishError, ghost meanwhile: seq<Step>)
      requires Valid() && e.gatewayId in ids && ClockRange(e.processed) && version != "" && version !in stamped
      modifies this`versions, this`rows, this`stamped, this`committed, this`channels, this`nextChan, this`detached, this`fault
      modifies this`tick, registry, registry.gateways.Values
      ensures Valid() && Grown() && meanwhile == others(old(tick))
      ensures var duplicate := HasEvent(old(rows), e.gatewayId, e.eventId);
        var applied := env.insert && !duplicate && env.update && !env.commit.Refused?;
        var undone := (duplicate || !env.insert) && env.rollback;
        && View() == (if applied then Apply(old(View()), Step.Publish(e, version))
                      else if undone then Run(old(View()), meanwhile) else old(View()))
        && err == (if undone then (if !env.check then CheckFailed
                                   else if HasEvent(rows, e.gatewayId, e.eventId) then Ok else InsertFailed)
                   else if duplicate || !env.insert then RollbackFailed
                   else if !env.update then UpdateFailed
                   else if env.commit.Done? then Ok else CommitFailed)
        && (err.Ok? ==> HasEvent(rows, e.gatewayId, e.eventId))
        && (applied ==> rows == old(rows) + {e} && versions == old(versions)[e.gatewayId := version])
    {
      meanwhile := others(tick);
      var txVersions, txRows := versions, rows;
      if e.gatewayId !in txVersions {
        txVersions := txVersions[e.gatewayId := ""];
      }
      if HasEvent(txRows, e.gatewayId, e.eventId) || !env.insert {
        if !env.rollback {
          return RollbackFailed, meanwhile;
        }
        err, meanwhile := CheckExisting(e.gatewayId, e.eventId, env.check);
        return;
      }
      txRows := txRows + {e};
      if !env.update {
        return UpdateFailed, meanwhile;
      }
      txVersions := txVersions[e.gatewayId := version];
      if env.commit.Refused? {
        return CommitFailed, meanwhile;
      }
      PublishIs(View(), e, version);
      CommitTransaction(txVersions, txRows, e, version);
      assert e in rows;
      err := if env.commit.LostReply? then CommitFailed else Ok;
    }

    /** The insert failed and was rolled back: others may act, then the row is looked for. */
    method CheckExisting(gatewayId: GatewayId, id: string, check: bool) returns (err: PublishError, ghost meanwhile: seq<Step>)
      requires Valid()
      modifies this`versions, this`rows, this`stamped, this`committed, this`channels, this`nextChan, this`detached, this`fault
      modifies this`tick, registry, registry.gateways.Values
      ensures Valid() && Grown() && meanwhile == others(old(tick)) && View() == Run(old(View()), meanwhile)
      ensures err == if !check then CheckFailed else if HasEvent(rows, gatewayId, id) then Ok else InsertFailed
    {
      meanwhile := Yield();
      if !check {
        return CheckFailed, meanwhile;
      }
      err := if HasEvent(rows, gatewayId, id) then Ok else InsertFailed;
    }

    method CommitTransaction(txVersions: map<GatewayId, Version>, txRows: set<Event>, e: Event, version: Version)
      requires Valid() && e.gatewayId in ids && txVersions == versions[e.gatewayId := version] && txRows == rows + {e}
      modifies this`versions, this`rows, this`stamped, this`committed
      ensures Valid() && View() == DoPublish(old(View()), e, version) && rows == txRows
    {
      versions, rows, stamped, committed := txVersions, txRows, stamped + {version}, committed + {e};
      assert registry.View() == old(registry.View());
    }

    // ---------------------------------------------------------------- polling

    method ChannelsHaveRoom(subscribers: seq<ChanId>) returns (available: bool)
      ensures available == ChannelsAvailable(channels, subscribers)
    {
      var i := 0;
      while i < |subscribers|
        invariant 0 <= i <= |subscribers|
        invariant forall k | 0 <= k < i && subscribers[k] in channels ::
          |channels[subscribers[k]].buffer| != CHANNEL_CAPACITY
      {
        if subscribers[i] in channels && |channels[subscribers[i]].buffer| == CHANNEL_CAPACITY {
          return false;
        }
        i := i + 1;
      }
      return true;
    }

    /** Phase 1: read the registry entry of the next row of the page. */
    method TakeSnapshot(now: int)
      requires Valid() && poll.Idle? && page != [] && ClockRange(now)
      modifies this`page, this`poll
      ensures Valid() && View() == DoSnapshot(old(View()), now) && page == old(page)[1..]
      ensures poll.Idle? || poll.Snapped?
    {
      var row := page[0];
      page := page[1..];
      if row.id !in registry.gateways {
        return;
      }
      var gw := registry.gateways[row.id];
      if |gw.subscribers| == 0 || row.version == gw.knownVersion || row.version == "" {
        return;
      }
      poll := Snapped(row.id, row.version, WindowStart(gw.View(), now), gw.lastPolled > 0);
    }

    /** Phase 2: ask the database and trim the replayed boundary row. */
    method FetchEvents(query: EventQuery) returns (answer: seq<Event>)
      requires Valid() && poll.Snapped? && Answering(query)
      modifies this`poll
      ensures Valid() && IsQueryResult(rows, old(poll.id), old(poll.since), answer)
      ensures View() == DoFetch(old(View()), answer) && poll.Fetched? && poll.id == old(poll.id)
    {
      answer := query(rows, poll.id, poll.since);
      var events := answer;
      if poll.resuming && |events| > 0 && events[0].processed == poll.since
         && (|events| == 1 || events[1].processed != poll.since) {
        events := events[1..];
      }
      poll := Fetched(poll.id, poll.version, poll.since, poll.resuming, events);
    }

    /** Takes the read lock. */
    method LockList()
      requires Valid() && poll.Fetched?
      modifies this`poll
      ensures Valid() && View() == DoHandOut(old(View())) && poll.Handing? && poll.todo == [] && poll.id == old(poll.id)
    {
      poll := Handing(poll.id, poll.version, poll.since, poll.resuming, [], poll.batch, []);
    }

    /** The event in hand has gone to everybody. */
    method PassEvent(ghost subscribers: seq<ChanId>)
      requires Valid() && poll.Handing? && poll.rest != []
      requires subscribers == View().gateways[poll.id].subscribers
      modifies this`poll, this`log
      ensures Valid() && View() == DoPass(old(View()))
    {
      log := log + [Delivery(poll.rest[0], subscribers)];
      poll := poll.(delivered := poll.delivered + [poll.rest[0]], rest := poll.rest[1..], todo := []);
    }

    /** The loop is over; `blocked` tells why. */
    method EndLoop(blocked: bool)
      requires Valid() && poll.Handing?
      modifies this`poll
      ensures Valid()
      ensures var p := old(poll);
        View() == old(View()).(poll := HandedOut(p.id, p.version, p.since, p.resuming, p.delivered, blocked))
    {
      poll := HandedOut(poll.id, poll.version, poll.since, poll.resuming, poll.delivered, blocked);
    }

    /** The event in hand has these channels to go. */
    method TakeUp(todo: seq<ChanId>)
      requires Valid() && poll.Handing?
      modifies this`poll
      ensures Valid() && View() == old(View()).(poll := old(poll).(todo := todo))
    {
      poll := poll.(todo := todo);
    }

    /** The head of the delivery loop. */
    method OfferNextEvent()
      requires Valid() && poll.Handing? && poll.todo == []
      modifies this`poll, this`log
      ensures Valid() && View() == DoOffer(old(View()))
    {
      var subscribers := registry.gateways[poll.id].subscribers;
      var available := ChannelsHaveRoom(subscribers);
      if |poll.rest| == 0 || !available {
        EndLoop(|poll.rest| > 0);
      } else if |subscribers| == 0 {
        PassEvent(subscribers);
      } else {
        TakeUp(subscribers);
      }
    }

    /** A send into the buffer; it would panic on a closed channel and block on a full one. */
    method PutOnChannel(c: ChanId, e: Event)
      requires Valid()
      modifies this`channels, this`fault
      ensures Valid()
      ensures var r := Send(old(channels), c, e);
        View() == old(View()).(channels := r.channels, fault := old(fault) || r.fault)
    {
      if HasRoom(channels, c) {
        channels := channels[c := Append(channels[c], [e])];
      } else {
        fault := true;
      }
    }

    /** One send, and with the last one the event has gone to everybody. */
    method SendToNextChannel()
      requires Valid() && poll.Handing? && poll.todo != [] && poll.rest != []
      modifies this`channels, this`fault, this`poll, this`log
      ensures Valid() && View() == DoSend(old(View()))
    {
      PutOnChannel(poll.todo[0], poll.rest[0]);
      TakeUp(poll.todo[1..]);
      if |poll.todo| == 0 {
        PassEvent(View().gateways[poll.id].subscribers);
      }
    }

    /** The others act, then the loop's check. */
    method OfferStep(ghost s0: State, ghost steps: seq<Step>, ghost own: seq<Step>, ghost loop: seq<Step>)
      returns (ghost steps': seq<Step>)
      requires Valid() && poll.Handing? && poll.todo == [] && InLoop(s0, View(), steps, own, loop)
      modifies this`versions, this`rows, this`stamped, this`committed, this`channels, this`nextChan, this`detached, this`fault
      modifies this`tick, this`poll, this`log, registry, registry.gateways.Values
      ensures Valid() && Grown() && InLoop(s0, View(), steps', own, loop + [OfferNext]) && Offered(old(poll), poll)
    {
      ghost var s := View();
      ghost var acts := Yield();
      OfferApplies(View());
      OfferNextEvent();
      steps' := LoopExtended(s0, s, steps, own, loop, acts, OfferNext);
    }

    /** The others act, then one send. */
    method SendStep(ghost s0: State, ghost steps: seq<Step>, ghost own: seq<Step>, ghost loop: seq<Step>)
      returns (ghost steps': seq<Step>)
      requires Valid() && poll.Handing? && poll.todo != [] && poll.rest != [] && InLoop(s0, View(), steps, own, loop)
      modifies this`versions, this`rows, this`stamped, this`committed, this`channels, this`nextChan, this`detached, this`fault
      modifies this`tick, this`poll, this`log, registry, registry.gateways.Values
      ensures Valid() && Grown() && InLoop(s0, View(), steps', own, loop + [SendNext]) && SentOne(old(poll), poll)
    {
      ghost var s := View();
      ghost var acts := Yield();
      SendApplies(View());
      SendToNextChannel();
      steps' := LoopExtended(s0, s, steps, own, loop, acts, SendNext);
    }

    /** The inner loop: the event in hand to every channel of the list. */
    method SendToAll(ghost s0: State, ghost steps: seq<Step>, ghost own: seq<Step>, ghost loop: seq<Step>)
      returns (ghost steps': seq<Step>, ghost loop': seq<Step>)
      requires Valid() && poll.Handing? && poll.todo != [] && poll.rest != [] && InLoop(s0, View(), steps, own, loop)
      modifies this`versions, this`rows, this`stamped, this`committed, this`channels, this`nextChan, this`detached, this`fault
      modifies this`tick, this`poll, this`log, registry, registry.gateways.Values
      ensures Valid() && Grown() && InLoop(s0, View(), steps', own, loop')
      ensures poll.Handing? && poll.todo == [] && |poll.rest| < |old(poll.rest)|
    {
      steps', loop' := steps, loop;
      while |poll.todo| > 0
        invariant Valid() && Grown() && poll.Handing?
        invariant if poll.todo == [] then |poll.rest| < |old(poll.rest)| else poll.rest == old(poll.rest)
        invariant InLoop(s0, View(), steps', own, loop')
        decreases |poll.todo|
      {
        steps' := SendStep(s0, steps', own, loop');
        loop' := loop' + [SendNext];
      }
    }

    /** The others act, then the lock is taken. */
    method LockStep(ghost s0: State, ghost steps: seq<Step>, ghost own: seq<Step>) returns (ghost steps': seq<Step>)
      requires Valid() && poll.Fetched? && View() == Run(s0, steps) && Traced(steps, own)
      modifies this`versions, this`rows, this`stamped, this`committed, this`channels, this`nextChan, this`detached, this`fault
      modifies this`tick, this`poll, registry, registry.gateways.Values
      ensures Valid() && Grown() && InLoop(s0, View(), steps', own + [HandOut], []) && poll.Handing? && poll.todo == []
    {
      ghost var acts := Yield();
      LockApplies(View());
      LockList();
      steps' := Extended(s0, steps, own, acts, HandOut);
      assert own + [HandOut] + [] == own + [HandOut];
    }

    /** One round of the delivery loop: the check, and the sends if there is an event to hand out. */
    method DeliverNext(ghost s0: State, ghost steps: seq<Step>, ghost own: seq<Step>, ghost loop: seq<Step>)
      returns (ghost steps': seq<Step>, ghost loop': seq<Step>)
      requires Valid() && poll.Handing? && poll.todo == [] && InLoop(s0, View(), steps, own, loop)
      modifies this`versions, this`rows, this`stamped, this`committed, this`channels, this`nextChan, this`detached, this`fault
      modifies this`tick, this`poll, this`log, registry, registry.gateways.Values
      ensures Valid() && Grown() && InLoop(s0, View(), steps', own, loop')
      ensures poll.HandedOut? || (poll.Handing? && poll.todo == [] && |poll.rest| < |old(poll.rest)|)
    {
      steps' := OfferStep(s0, steps, own, loop);
      loop' := loop + [OfferNext];
      if poll.Handing? && |poll.todo| > 0 {
        steps', loop' := SendToAll(s0, steps', own, loop');
      }
    }

    method DeliverAll(ghost s0: State, ghost steps: seq<Step>, ghost own: seq<Step>)
      returns (ghost steps': seq<Step>, ghost loop: seq<Step>)
      requires Valid() && poll.Handing? && poll.todo == [] && InLoop(s0, View(), steps, own, [])
      modifies this`versions, this`rows, this`stamped, this`committed, this`channels, this`nextChan, this`detached, this`fault
      modifies this`tick, this`poll, this`log, registry, registry.gateways.Values
      ensures Valid() && Grown() && InLoop(s0, View(), steps', own, loop) && poll.HandedOut?
    {
      steps', loop := steps, [];
      while poll.Handing?
        invariant Valid() && Grown() && (poll.HandedOut? || (poll.Handing? && poll.todo == []))
        invariant InLoop(s0, View(), steps', own, loop)
        decreases poll.Handing?, if poll.Handing? then |poll.rest| else 0
      {
        steps', loop := DeliverNext(s0, steps', own, loop);
      }
    }

    /** Phase 3: under the read lock, hand the batch out; the others act before every check and every send. */
    method HandOutBatch(ghost s0: State, ghost steps: seq<Step>, ghost own: seq<Step>)
      returns (ghost steps': seq<Step>, ghost loop: seq<Step>)
      requires Valid() && poll.Fetched? && View() == Run(s0, steps) && Traced(steps, own)
      modifies this`versions, this`rows, this`stamped, this`committed, this`channels, this`nextChan, this`detached, this`fault
      modifies this`tick, this`poll, this`log, registry, registry.gateways.Values
      ensures Valid() && Grown() && View() == Run(s0, steps') && Traced(steps', own + [HandOut] + loop) && OnlyLoop(loop)
      ensures poll.HandedOut?
    {
      steps' := LockStep(s0, steps, own);
      steps', loop := DeliverAll(s0, steps', own + [HandOut]);
    }

    /** Phase 4: under the write lock, store the cursor and, unless blocked, the version. */
    method WriteBackCursor()
      requires Valid() && poll.HandedOut?
      modifies this`poll, this`origin, registry.gateways[poll.id]
      ensures Valid() && View() == DoWriteBack(old(View())) && poll.Idle?
      ensures var p := old(poll);
        EndsPoll(old(View()).gateways[p.id], p.version, p.since, p.delivered, p.blocked, View().gateways[p.id])
    {
      ghost var s := View();
      StoreCursor();
      origin := DoWriteBack(s).origin;
      poll := Idle;
    }

    method StoreCursor()
      requires Valid() && poll.HandedOut?
      modifies registry.gateways[poll.id]
      ensures Valid() && registry.View() == DoWriteBack(old(View())).gateways
      ensures EndsPoll(old(View()).gateways[poll.id], poll.version, poll.since, poll.delivered, poll.blocked,
                       registry.View()[poll.id])
    {
      registry.StorePoll(poll.id, poll.version, poll.since, poll.delivered, poll.blocked);
    }

    method AbandonPoll()
      requires Valid()
      modifies this`poll
      ensures Valid() && View() == old(View()).(poll := Idle)
    {
      poll := Idle;
    }

    method FetchStep(query: EventQuery, ghost s0: State, ghost steps: seq<Step>, ghost own: seq<Step>)
      returns (ghost steps': seq<Step>, answer: seq<Event>)
      requires Valid() && poll.Snapped? && Answering(query)
      requires View() == Run(s0, steps) && Traced(steps, own)
      modifies this`versions, this`rows, this`stamped, this`committed, this`channels, this`nextChan, this`detached, this`fault
      modifies this`tick, this`poll, registry, registry.gateways.Values
      ensures Valid() && Grown() && View() == Run(s0, steps') && Traced(steps', own + [Fetch(answer)])
      ensures poll.Fetched?
    {
      ghost var acts := Yield();
      ghost var t := View();
      answer := FetchEvents(query);
      FetchApplies(t, answer);
      steps' := Extended(s0, steps, own, acts, Fetch(answer));
    }

    method WriteBackStep(ghost s0: State, ghost steps: seq<Step>, ghost own: seq<Step>) returns (ghost steps': seq<Step>)
      requires Valid() && poll.HandedOut?
      requires View() == Run(s0, steps) && Traced(steps, own)
      modifies this`versions, this`rows, this`stamped, this`committed, this`channels, this`nextChan, this`detached, this`fault
      modifies this`tick, this`poll, this`origin, registry, registry.gateways.Values
      ensures Valid() && Grown() && View() == Run(s0, steps') && Traced(steps', own + [WriteBack]) && poll.Idle?
    {
      ghost var acts := Yield();
      WriteBackApplies(View());
      WriteBackCursor();
      steps' := Extended(s0, steps, own, acts, WriteBack);
    }

    method AbortStep(ghost s0: State, ghost steps: seq<Step>, ghost own: seq<Step>) returns (ghost steps': seq<Step>)
      requires Valid() && poll.Snapped? && View() == Run(s0, steps) && Traced(steps, own)
      modifies this`versions, this`rows, this`stamped, this`committed, this`channels, this`nextChan, this`detached, this`fault
      modifies this`tick, this`poll, registry, registry.gateways.Values
      ensures Valid() && Grown() && View() == Run(s0, steps') && Traced(steps', own + [AbortFetch]) && poll.Idle?
    {
      ghost var acts := Yield();
      AbortApplies(View());
      AbandonPoll();
      steps' := Extended(s0, steps, own, acts, AbortFetch);
    }

    method FetchAndHandOut(query: EventQuery, ghost s0: State, ghost steps: seq<Step>, ghost own: seq<Step>)
      returns (ghost steps': seq<Step>, ghost answer: seq<Event>, ghost loop: seq<Step>)
      requires Valid() && poll.Snapped? && Answering(query) && View() == Run(s0, steps) && Traced(steps, own)
      modifies this`versions, this`rows, this`stamped, this`committed, this`channels, this`nextChan, this`detached, this`fault
      modifies this`tick, this`poll, this`log, registry, registry.gateways.Values
      ensures Valid() && Grown() && poll.HandedOut? && View() == Run(s0, steps')
      ensures Traced(steps', own + [Fetch(answer)] + [HandOut] + loop) && OnlyLoop(loop)
    {
      steps', answer := FetchStep(query, s0, steps, own);
      steps', loop := HandOutBatch(s0, steps', own + [Fetch(answer)]);
    }

    /** From the fetch to the write-back. */
    method FinishPoll(query: EventQuery, ghost s0: State, ghost steps: seq<Step>, ghost own: seq<Step>)
      returns (ghost steps': seq<Step>, ghost more: seq<Step>)
      requires Valid() && poll.Snapped? && Answering(query) && View() == Run(s0, steps) && Traced(steps, own)
      modifies this`versions, this`rows, this`stamped, this`committed, this`channels, this`nextChan, this`detached, this`fault
      modifies this`tick, this`poll, this`log, this`origin, registry, registry.gateways.Values
      ensures Valid() && Grown() && View() == Run(s0, steps') && Traced(steps', own + more) && PollTail(more) && poll.Idle?
    {
      ghost var answer, loop;
      steps', answer, loop := FetchAndHandOut(query, s0, steps, own);
      steps' := WriteBackStep(s0, steps', own + [Fetch(answer)] + [HandOut] + loop);
      more := WholePoll(own, answer, loop);
    }

    /** The others act, then the registry entry is read. */
    method SnapshotStep(now: int) returns (ghost steps: seq<Step>)
      requires Valid() && poll.Idle? && page != [] && ClockRange(now)
      modifies this`versions, this`rows, this`stamped, this`committed, this`channels, this`nextChan, this`detached, this`fault
      modifies this`tick, this`page, this`poll, registry, registry.gateways.Values
      ensures Valid() && Grown() && page == old(page)[1..] && (poll.Idle? || poll.Snapped?)
      ensures View() == Run(old(View()), steps) && Traced(steps, [Snapshot(now)])
    {
      ghost var s0 := View();
      ghost var acts := Yield();
      SnapshotApplies(View(), now);
      TakeSnapshot(now);
      steps := BeginsWith(s0, acts, Snapshot(now));
    }

    method AbortOrFinish(queryFails: bool, query: EventQuery, ghost s0: State, ghost steps: seq<Step>, ghost own: seq<Step>)
      returns (ghost steps': seq<Step>, ghost more: seq<Step>)
      requires Valid() && poll.Snapped? && Answering(query)
      requires View() == Run(s0, steps) && Traced(steps, own)
      modifies this`versions, this`rows, this`stamped, this`committed, this`channels, this`nextChan, this`detached, this`fault
      modifies this`tick, this`poll, this`log, this`origin, registry, registry.gateways.Values
      ensures Valid() && Grown() && View() == Run(s0, steps') && Traced(steps', own + more) && poll.Idle?
      ensures if queryFails then more == [AbortFetch] else PollTail(more)
    {
      if queryFails {
        steps' := AbortStep(s0, steps, own);
        more := [AbortFetch];
      } else {
        steps', more := FinishPoll(query, s0, steps, own);
      }
    }

    /** One poll of the gateway on the next row of the page, with the others acting before each of its phases, checks and
        sends: a run of the protocol whose own steps are a snapshot alone (the gateway is skipped), a snapshot and an abort
        (the query failed), or snapshot, fetch, hand-out and write-back. */
    method PollGatewayWithState(now: int, queryFails: bool, query: EventQuery)
      returns (ghost steps: seq<Step>, ghost more: seq<Step>)
      requires Valid() && poll.Idle? && page != [] && ClockRange(now) && Answering(query)
      modifies this`versions, this`rows, this`stamped, this`committed, this`channels, this`nextChan, this`detached, this`fault
      modifies this`tick, this`poll, this`log, this`origin, this`page, registry, registry.gateways.Values
      ensures Valid() && Grown() && poll.Idle? && page == old(page)[1..]
      ensures View() == Run(old(View()), steps) && Traced(steps, [Snapshot(now)] + more)
      ensures more == [] || if queryFails then more == [AbortFetch] else PollTail(more)
    {
      ghost var s0 := View();
      steps := SnapshotStep(now);
      more := [];
      assert [Snapshot(now)] + more == [Snapshot(now)];
      if !poll.Idle? {
        steps, more := AbortOrFinish(queryFails, query, s0, steps, [Snapshot(now)]);
      }
    }

    // ------------------------------------------------------------- one round

    /** The next row of the page: polled if its gateway was registered when the round began, skipped otherwise. */
    method PollRow(registered: set<GatewayId>, now: int, queryFails: bool, query: EventQuery,
                   ghost s0: State, ghost t: RoundTrace) returns (ghost t': RoundTrace)
      requires Valid() && poll.Idle? && page != [] && ClockRange(now) && Answering(query)
      requires Recorded(s0, View(), t, page, registered)
      modifies this`versions, this`rows, this`stamped, this`committed, this`channels, this`nextChan, this`detached, this`fault
      modifies this`tick, this`poll, this`log, this`origin, this`page, registry, registry.gateways.Values
      ensures Valid() && Grown() && poll.Idle? && page == old(page)[1..]
      ensures Recorded(s0, View(), t', page, registered) && t'.tables == t.tables && t'.taken == t.taken + [old(page)[0]]
    {
      ghost var row, s := page[0], View();
      if page[0].id in registered {
        ghost var steps, more := PollGatewayWithState(now, queryFails, query);
        t' := RecordPolled(s0, s, t, s.page, registered, View(), steps, now, more);
      } else {
        SkipApplies(View());
        page := page[1..];
        t' := RecordSkipped(s0, s, t, s.page, registered);
      }
    }

    /** The others act, then a page is read. */
    method ReadNextPage(less: Order, limit: nat, query: PageQuery, cursor: GatewayId,
                        ghost registered: set<GatewayId>, ghost s0: State, ghost t: RoundTrace)
      returns (reply: Reply, ghost t': RoundTrace)
      requires Valid() && poll.Idle? && page == [] && !stopped && StrictTotal(less) && Answers(less, limit, query)
      requires Recorded(s0, View(), t, [], registered) && cursor == LastId(t.taken)
      modifies this`versions, this`rows, this`stamped, this`committed, this`channels, this`nextChan, this`detached, this`fault
      modifies this`tick, this`page, registry, registry.gateways.Values
      ensures Valid() && Grown() && Recorded(s0, View(), t', page, registered) && t'.taken == t.taken
      ensures reply.QueryError? ==> page == [] && t'.tables == t.tables && FailedRead(query, tick, versions, t')
      ensures reply.Rows? ==> page == reply.rows && t'.tables == t.tables + [versions]
      ensures reply.Rows? ==> IsPage(less, versions, cursor, limit, reply.rows)
    {
      ghost var acts := Yield();
      t' := RecordOthers(s0, t, registered, acts);
      reply := query(tick - 1, versions, cursor);
      if reply.Rows? {
        t' := TakePage(less, limit, cursor, reply.rows, registered, s0, t');
      }
    }

    method TakePage(ghost less: Order, ghost limit: nat, ghost cursor: GatewayId, rows: seq<PageRow>,
                    ghost registered: set<GatewayId>, ghost s0: State, ghost t: RoundTrace) returns (ghost t': RoundTrace)
      requires Valid() && poll.Idle? && page == [] && !stopped && StrictTotal(less)
      requires IsPage(less, versions, cursor, limit, rows) && Recorded(s0, View(), t, [], registered)
      modifies this`page
      ensures Valid() && page == rows && Recorded(s0, View(), t', rows, registered)
      ensures t'.taken == t.taken && t'.tables == t.tables + [versions]
    {
      PageIsEnabled(less, View(), cursor, limit, rows);
      t' := RecordPage(s0, View(), t, registered, rows);
      page := rows;
    }

    /** The rows of one page, in order. */
    method PollPage(registered: set<GatewayId>, clock: nat -> int, fails: nat -> bool, query: EventQuery,
                    ghost s0: State, ghost t: RoundTrace) returns (ghost t': RoundTrace)
      requires Valid() && poll.Idle? && (forall k :: ClockRange(clock(k))) && Answering(query)
      requires Recorded(s0, View(), t, page, registered)
      modifies this`versions, this`rows, this`stamped, this`committed, this`channels, this`nextChan, this`detached, this`fault
      modifies this`tick, this`poll, this`log, this`origin, this`page, registry, registry.gateways.Values
      ensures Valid() && Grown() && poll.Idle? && page == []
      ensures Recorded(s0, View(), t', [], registered) && t'.tables == t.tables && t'.taken == t.taken + old(page)
    {
      t' := t;
      ghost var all := t.taken + page;
      while |page| > 0
        invariant Valid() && Grown() && poll.Idle? && Recorded(s0, View(), t', page, registered)
        invariant t'.tables == t.tables && t'.taken + page == all
        decreases |page|
      {
        Shift(t'.taken, page);
        t' := PollRow(registered, clock(tick), fails(tick), query, s0, t');
      }
      assert t'.taken + [] == t'.taken;
    }

    /** Reads one page and polls its rows. */
    method NextPage(registered: set<GatewayId>, less: Order, limit: nat, pages: PageQuery, clock: nat -> int,
                    fails: nat -> bool, query: EventQuery, cursor: GatewayId, ghost s0: State, ghost t: RoundTrace)
      returns (reply: Reply, ghost t': RoundTrace)
      requires Valid() && poll.Idle? && page == [] && !stopped && (forall k :: ClockRange(clock(k))) && Answering(query)
      requires StrictTotal(less) && limit > 0 && Answers(less, limit, pages)
      requires Recorded(s0, View(), t, [], registered) && UpTo(less, cursor, t)
      modifies this`versions, this`rows, this`stamped, this`committed, this`channels, this`nextChan, this`detached, this`fault
      modifies this`tick, this`poll, this`log, this`origin, this`page, registry, registry.gateways.Values
      ensures Valid() && Grown() && poll.Idle? && page == [] && Recorded(s0, View(), t', [], registered)
      ensures Went(less, limit, ids, cursor, t, reply, t')
      ensures reply.QueryError? ==> FailedRead(pages, tick, versions, t')
    {
      reply, t' := ReadNextPage(less, limit, pages, cursor, registered, s0, t);
      ghost var table := versions;
      if reply.Rows? {
        t' := PollPage(registered, clock, fails, query, s0, t');
        PageWent(less, limit, ids, table, cursor, t, reply.rows, t');
      } else {
        NoPageWent(less, limit, ids, cursor, t, t');
      }
    }

    /** Page after page, until one is short or a read fails. */
    method PollPages(registered: set<GatewayId>, less: Order, limit: nat, pages: PageQuery, clock: nat -> int,
                     fails: nat -> bool, query: EventQuery) returns (complete: bool, ghost t: RoundTrace)
      requires Valid() && poll.Idle? && page == [] && !stopped && (forall k :: ClockRange(clock(k))) && Answering(query)
      requires StrictTotal(less) && limit > 0 && Answers(less, limit, pages)
      modifies this`versions, this`rows, this`stamped, this`committed, this`channels, this`nextChan, this`detached, this`fault
      modifies this`tick, this`poll, this`log, this`origin, this`page, registry, registry.gateways.Values
      ensures Valid() && Grown() && poll.Idle? && page == []
      ensures Recorded(old(View()), View(), t, [], registered) && InOrder(less, t)
      ensures if complete then AllVisited(less, t.tables, t.taken) else FailedRead(pages, tick, versions, t)
    {
      ghost var s0 := View();
      var cursor := "";
      complete, t := true, RoundTrace([], [], [], []);
      RecordNothing(s0, less, registered);
      while true
        invariant Valid() && Grown() && poll.Idle? && page == [] && complete
        invariant Recorded(s0, View(), t, [], registered) && UpTo(less, cursor, t)
        decreases Ahead(less, ids, cursor)
      {
        var reply;
        reply, t := NextPage(registered, less, limit, pages, clock, fails, query, cursor, s0, t);
        if reply.QueryError? {
          complete := false;
          return;
        }
        if |reply.rows| < limit {
          return;
        }
        cursor := reply.rows[|reply.rows| - 1].id;
      }
    }

    /** One round. It ends; it is a run of the protocol that reads page after page and polls or skips each of their rows
        once; ids are visited in order and none twice, each with a version from a table of this round; every non-empty id
        that is present throughout is visited, unless the read after the last visited id failed; and the rows that are
        polled are those whose gateways were registered when the round began. */
    method PollGateways(configured: int, less: Order, pages: PageQuery, clock: nat -> int, fails: nat -> bool,
                        query: EventQuery) returns (complete: bool, ghost t: RoundTrace)
      requires Valid() && poll.Idle? && page == [] && !stopped && (forall k :: ClockRange(clock(k))) && Answering(query)
      requires StrictTotal(less) && Answers(less, PageSize(configured), pages)
      modifies this`versions, this`rows, this`stamped, this`committed, this`channels, this`nextChan, this`detached, this`fault
      modifies this`tick, this`poll, this`log, this`origin, this`page, registry, registry.gateways.Values
      ensures Valid() && Grown() && poll.Idle? && page == []
      ensures Recorded(old(View()), View(), t, [], old(View()).gateways.Keys) && InOrder(less, t)
      ensures old(View()).gateways.Keys == {} ==> complete && t.own == []
      ensures old(View()).gateways.Keys != {} ==>
        if complete then AllVisited(less, t.tables, t.taken) else FailedRead(pages, tick, versions, t)
    {
      var registered := RegisteredIds();
      if registered == {} {
        complete, t := true, RoundTrace([], [], [], []);
        RecordNothing(View(), less, registered);
      } else {
        complete, t := PollPages(registered, less, PageSize(configured), pages, clock, fails, query);
      }
    }

    method RegisteredIds() returns (registered: set<GatewayId>)
      requires Valid()
      ensures registered == View().gateways.Keys
    {
      var all := registry.GetAll();
      registered := set id | id in all;
    }

    // ---------------------------------------------------------------- closing

    method CloseList(cs: seq<ChanId>)
      requires forall c | c in channels :: c < nextChan
      modifies this`channels, this`fault
      ensures Sends(channels, fault)
           == var r := CloseAll(old(channels), cs); Sends(r.channels, old(fault) || r.fault)
      ensures forall c | c in channels :: c < nextChan
    {
      var i := 0;
      while i < |cs|
        invariant 0 <= i <= |cs|
        invariant forall c | c in channels :: c < nextChan
        invariant CloseAll(old(channels), cs).channels == CloseAll(channels, cs[i..]).channels
        invariant (old(fault) || CloseAll(old(channels), cs).fault) == (fault || CloseAll(channels, cs[i..]).fault)
      {
        assert cs[i..][1..] == cs[i + 1..];
        if cs[i] in channels && !channels[cs[i]].closed {
          channels := channels[cs[i] := channels[cs[i]].(closed := true)];
        } else {
          fault := true;
        }
        i := i + 1;
      }
    }

    /** Closes every channel on one list and empties it, under the lock. */
    method CloseSubscribersOf(id: GatewayId)
      requires Valid() && id in registry.gateways
      modifies this`channels, this`fault, registry.gateways[id]
      ensures Valid() && View() == DoCloseGateway(old(View()), id)
    {
      ghost var s := View();
      CloseList(registry.gateways[id].subscribers);
      assert registry.View() == s.gateways;
      registry.ClearSubscribers(id);
      assert registry.View() == DoCloseGateway(s, id).gateways && channels == DoCloseGateway(s, id).channels;
    }

    /** Shuts down once the poll goroutine has ended: every registered gateway's list is closed, in some order. */
    method Close() returns (ids: seq<GatewayId>)
      requires Valid() && poll.Idle?
      modifies this, registry.gateways.Values
      ensures Valid() && NoDup(ids) && forall g :: g in ids <==> g in old(View()).gateways
      ensures View() == Run(old(View()), [Stop] + CloseGateways(ids))
      ensures stopped && OnlyEmpties(old(View()).gateways, old(View()).gateways.Keys, View().gateways)
      ensures OnlyCloses(old(channels), Listed(old(View()).gateways, old(View()).gateways.Keys), channels)
    {
      Halt();
      ids := CloseRegistered();
      StopThenClose(old(View()), ids);
    }

    method CloseRegistered() returns (ids: seq<GatewayId>)
      requires Valid() && stopped && poll.Idle?
      modifies this`channels, this`fault, registry.gateways.Values
      ensures Valid() && NoDup(ids) && forall g :: g in ids <==> g in old(View()).gateways
      ensures View() == Run(old(View()), CloseGateways(ids)) && ShutDown(old(View()), old(View()).gateways.Keys, View())
    {
      ids := registry.GetAll();
      CloseGatewaysClose(View(), ids);
      assert (set g | g in ids) == View().gateways.Keys;
      CloseEach(ids);
    }

    method Halt()
      requires Valid()
      modifies this`stopped, this`page
      ensures Valid() && stopped && View() == old(View()).(stopped := true, page := [])
    {
      stopped, page := true, [];
    }

    method CloseEach(ids: seq<GatewayId>)
      requires Valid() && stopped && poll.Idle? && forall id | id in ids :: id in registry.gateways
      modifies this`channels, this`fault, registry.gateways.Values
      ensures Valid() && View() == Run(old(View()), CloseGateways(ids))
    {
      assert ids[..0] == [];
      var i := 0;
      while i < |ids|
        invariant 0 <= i <= |ids| && Valid()
        invariant View() == Run(old(View()), CloseGateways(ids[..i]))
      {
        CloseOneMoreGateway(old(View()), ids, i);
        CloseSubscribersOf(ids[i]);
        i := i + 1;
      }
      assert ids[..i] == ids;
    }
  }
}
