// Progress of the poller: with a subscriber, an established cursor and channels
// drained before each round, when does a round hand out something new, and when can
// a gateway stall? Consumers may go on receiving during the hand-out.
module HubProgress {
  import opened Timestamps
  import opened HubModel
  import opened HubInvariant
  import opened HubDelivery
  import opened HubExactness
  import opened HubHandOuts
  import opened HubRuns

  /** Rows of the gateway with one timestamp. */
  ghost function Group(rows: set<Event>, g: GatewayId, t: int): set<Event> {
    set r | r in rows && r.gatewayId == g && r.processed == t
  }

  /** Rows from `cursor` on that have not been handed out. */
  ghost function UndeliveredIn(rows: set<Event>, g: GatewayId, handed: set<Event>, cursor: int): set<Event> {
    set r | r in rows && r.gatewayId == g && r.processed >= cursor && r !in handed
  }

  ghost function Undelivered(s: State, g: GatewayId): set<Event>
    requires g in s.gateways
  {
    UndeliveredIn(s.rows, g, Handed(s.log), s.gateways[g].lastPolled)
  }

  ghost predicate Drained(s: State, g: GatewayId)
    requires g in s.gateways
  {
    forall c | c in s.gateways[g].subscribers && c in s.channels :: s.channels[c].buffer == []
  }

  /** Between two rounds: nothing in flight, somebody subscribed, the cursor established. */
  ghost predicate Ready(s: State, g: GatewayId) {
    && Inv(s) && WakeInv(s)
    && s.poll.Idle? && s.page == [] && !s.stopped
    && g in s.gateways && s.gateways[g].subscribers != [] && s.gateways[g].lastPolled != 0
    && g in s.versions && s.versions[g] != ""
  }

  ghost predicate CaughtUp(s: State, g: GatewayId)
    requires Ready(s, g)
  {
    s.gateways[g].knownVersion == s.versions[g]
  }

  /** One poll of the gateway; `during` is what happens between the lock of the hand-out and the write-back. */
  ghost function RoundSteps(s: State, g: GatewayId, now: int, result: seq<Event>, during: seq<Step>): seq<Step>
    requires g in s.versions
  {
    [ReadPage([PageRow(g, s.versions[g])]), Snapshot(now), Fetch(result), HandOut] + during + [WriteBack]
  }

  ghost predicate RoundInput(s: State, g: GatewayId, now: int, result: seq<Event>)
    requires g in s.gateways
  {
    ClockRange(now) && IsQueryResult(s.rows, g, s.gateways[g].lastPolled, result)
  }

  ghost function AtFetch(s: State, g: GatewayId, result: seq<Event>): State
    requires g in s.gateways && g in s.versions
  {
    var cursor := s.gateways[g].lastPolled;
    s.(poll := Fetched(g, s.versions[g], cursor, true, TrimSingleBoundaryReplay(result, cursor, true)))
  }

  ghost predicate RoundVia(s: State, s': State, g: GatewayId, now: int, result: seq<Event>, during: seq<Step>) {
    && g in s.gateways && g in s.versions && RoundInput(s, g, now, result)
    && OnlyLoopOrReceive(during)
    && s' == Run(s, RoundSteps(s, g, now, result, during)) && s'.poll.Idle?
  }

  /** A whole poll of the gateway, for some answer of the database, while consumers may receive. */
  ghost predicate Round(s: State, s': State, g: GatewayId) {
    exists now, result, during :: RoundVia(s, s', g, now, result, during)
  }

  /** A whole poll of the gateway during which no consumer receives. */
  ghost predicate UndisturbedRound(s: State, s': State, g: GatewayId) {
    exists now, result, during ::
      RoundVia(s, s', g, now, result, during) && OnlyLoop(during)
  }

  ghost predicate HandsOutNew(s: State, s': State) {
    exists e :: e in Handed(s'.log) && e !in Handed(s.log)
  }

  // -------------------------------------------------------- what a round does

  lemma RoundReads(s: State, g: GatewayId)
    requires s.poll.Idle? && s.page == [] && !s.stopped && g in s.versions
    ensures Apply(s, ReadPage([PageRow(g, s.versions[g])])) == s.(page := [PageRow(g, s.versions[g])])
  {
  }

  lemma RoundSnaps(s: State, g: GatewayId, now: int)
    requires s.poll.Idle? && s.page == [] && g in s.versions && g in s.gateways && ClockRange(now)
    requires s.gateways[g].subscribers != [] && s.versions[g] != "" && ClockRange(s.gateways[g].lastPolled)
    ensures Apply(s.(page := [PageRow(g, s.versions[g])]), Snapshot(now))
         == if s.gateways[g].knownVersion == s.versions[g] then s
            else s.(poll := Snapped(g, s.versions[g], s.gateways[g].lastPolled, true))
  {
    assert [PageRow(g, s.versions[g])][1..] == [];
  }

  lemma FetchReaches(s: State, g: GatewayId, result: seq<Event>)
    requires g in s.gateways && g in s.versions && IsQueryResult(s.rows, g, s.gateways[g].lastPolled, result)
    ensures Apply(s.(poll := Snapped(g, s.versions[g], s.gateways[g].lastPolled, true)), Fetch(result))
         == AtFetch(s, g, result)
  {
  }

  lemma RoundStops(s: State)
    requires s.poll.Idle?
    ensures forall result :: Apply(s, Fetch(result)) == s
    ensures Apply(s, HandOut) == s && Apply(s, WriteBack) == s
  {
  }

  /** Up to the lock. */
  lemma RoundLocks(s: State, g: GatewayId, now: int, result: seq<Event>)
    requires Ready(s, g) && RoundInput(s, g, now, result)
    ensures Run(s, [ReadPage([PageRow(g, s.versions[g])]), Snapshot(now), Fetch(result), HandOut])
         == if CaughtUp(s, g) then s else DoHandOut(AtFetch(s, g, result))
  {
    RunFour(s, ReadPage([PageRow(g, s.versions[g])]), Snapshot(now), Fetch(result), HandOut);
    CursorInRange(s, g);
    RoundReads(s, g);
    RoundSnaps(s, g, now);
    if CaughtUp(s, g) {
      RoundStops(s);
    } else {
      FetchReaches(s, g, result);
      LockApplies(AtFetch(s, g, result));
    }
  }

  lemma RoundEffect(s: State, g: GatewayId, now: int, result: seq<Event>, during: seq<Step>)
    requires Ready(s, g) && RoundInput(s, g, now, result)
    ensures Run(s, RoundSteps(s, g, now, result, during))
         == Apply(Run(if CaughtUp(s, g) then s else DoHandOut(AtFetch(s, g, result)), during), WriteBack)
  {
    var lock := [ReadPage([PageRow(g, s.versions[g])]), Snapshot(now), Fetch(result), HandOut];
    RoundLocks(s, g, now, result);
    RunConcat(s, lock, during);
    RunThenStep(s, lock + during, WriteBack);
  }

  lemma PollerStepKeepsAll(s: State, step: Step)
    requires Inv(s) && WakeInv(s) && PollerStep(step)
    ensures Inv(Apply(s, step)) && WakeInv(Apply(s, step))
  {
    StepKeepsInv(s, step);
    if Enabled(s, step) { PollerStepKeepsWake(s, step); }
  }

  lemma FetchKeepsInv(s: State, g: GatewayId, now: int, result: seq<Event>)
    requires Ready(s, g) && RoundInput(s, g, now, result) && !CaughtUp(s, g)
    ensures Inv(AtFetch(s, g, result)) && WakeInv(AtFetch(s, g, result))
  {
    var read := ReadPage([PageRow(g, s.versions[g])]);
    CursorInRange(s, g);
    RoundReads(s, g);
    RoundSnaps(s, g, now);
    FetchReaches(s, g, result);
    PollerStepKeepsAll(s, read);
    PollerStepKeepsAll(Apply(s, read), Snapshot(now));
    PollerStepKeepsAll(Apply(Apply(s, read), Snapshot(now)), Fetch(result));
  }

  // ------------------------------------------------ how full the buffers get

  /** How many events of this hand-out the channel has got. */
  ghost function Level(poll: Poll, c: ChanId): nat
    requires poll.Handing?
  {
    |poll.delivered| + if poll.todo != [] && c !in poll.todo then 1 else 0
  }

  ghost function Filled(channels: Channels, c: ChanId): nat {
    if c in channels then |channels[c].buffer| else 0
  }

  lemma OfferKeepsLevel(s: State, c: ChanId)
    requires ChannelInv(s) && Enabled(s, OfferNext) && c in s.gateways[s.poll.id].subscribers && DoOffer(s).poll.Handing?
    ensures DoOffer(s).channels == s.channels && Level(DoOffer(s).poll, c) == Level(s.poll, c)
  {
  }

  lemma SendKeepsLevel(s: State, c: ChanId)
    requires ChannelInv(s) && Enabled(s, SendNext) && c in s.gateways[s.poll.id].subscribers
    ensures DoSend(s).poll.Handing?
    ensures Filled(DoSend(s).channels, c) - Level(DoSend(s).poll, c) == Filled(s.channels, c) - Level(s.poll, c)
  {
    SendFindsRoom(s);
    var todo := s.poll.todo;
    assert forall x | x in todo :: x == todo[0] || x in todo[1..];
  }

  /** No channel holds more than it has got, and a blocked hand-out has put a full channel's worth out. */
  ghost predicate AtMost(s: State, subscribers: seq<ChanId>) {
    && (s.poll.Handing? ==> forall c | c in subscribers :: Filled(s.channels, c) <= Level(s.poll, c))
    && (s.poll.HandedOut? && s.poll.blocked ==> |s.poll.delivered| >= CHANNEL_CAPACITY)
  }

  /** If nobody receives, every channel holds what it has got. */
  ghost predicate Exactly(s: State, subscribers: seq<ChanId>) {
    && (s.poll.Handing? ==> forall c | c in subscribers :: Filled(s.channels, c) == Level(s.poll, c))
    && (s.poll.HandedOut? ==> |s.poll.delivered| <= CHANNEL_CAPACITY)
  }

  /** The hand-out has this list and keeps within these bounds; `quiet` says that nobody receives. */
  ghost predicate Bounds(s: State, subscribers: seq<ChanId>, quiet: bool) {
    && (s.poll.Handing? || s.poll.HandedOut?)
    && (s.poll.Handing? ==> s.poll.id in s.gateways && s.gateways[s.poll.id].subscribers == subscribers)
    && AtMost(s, subscribers) && (quiet ==> Exactly(s, subscribers))
  }

  lemma OfferKeepsBounds(s: State, subscribers: seq<ChanId>, quiet: bool)
    requires ChannelInv(s) && Enabled(s, OfferNext) && Bounds(s, subscribers, quiet) && subscribers != []
    ensures Bounds(DoOffer(s), subscribers, quiet)
  {
    OfferStays(s);
    if DoOffer(s).poll.Handing? {
      forall c | c in subscribers
        ensures DoOffer(s).channels == s.channels && Level(DoOffer(s).poll, c) == Level(s.poll, c)
      {
        OfferKeepsLevel(s, c);
      }
    } else {
      var c0 := subscribers[0];
      assert c0 in subscribers && ChannelOk(s.channels[c0]);
    }
  }

  lemma SendKeepsBounds(s: State, subscribers: seq<ChanId>, quiet: bool)
    requires ChannelInv(s) && Enabled(s, SendNext) && Bounds(s, subscribers, quiet) && subscribers != []
    ensures Bounds(DoSend(s), subscribers, quiet)
  {
    SendStays(s);
    forall c | c in subscribers
      ensures DoSend(s).poll.Handing?
      ensures Filled(DoSend(s).channels, c) - Level(DoSend(s).poll, c) == Filled(s.channels, c) - Level(s.poll, c)
    {
      SendKeepsLevel(s, c);
    }
    assert subscribers[0] in subscribers;
  }

  lemma ReceiveKeepsBounds(s: State, c: ChanId, subscribers: seq<ChanId>)
    requires Bounds(s, subscribers, false) && Enabled(s, Receive(c))
    ensures Bounds(DoReceive(s, c), subscribers, false)
  {
  }

  lemma LoopStepKeepsBounds(s: State, step: Step, subscribers: seq<ChanId>, quiet: bool)
    requires ChannelInv(s) && Bounds(s, subscribers, quiet) && subscribers != [] && LoopStep(step)
    ensures Bounds(Apply(s, step), subscribers, quiet)
  {
    if step.OfferNext? {
      if Enabled(s, OfferNext) { OfferKeepsBounds(s, subscribers, quiet); }
    } else {
      if Enabled(s, SendNext) { SendKeepsBounds(s, subscribers, quiet); }
    }
  }

  lemma StepKeepsBounds(s: State, step: Step, subscribers: seq<ChanId>, quiet: bool)
    requires ChannelInv(s) && Bounds(s, subscribers, quiet) && subscribers != []
    requires LoopOrReceive(step) && (quiet ==> LoopStep(step))
    ensures Bounds(Apply(s, step), subscribers, quiet)
  {
    if LoopStep(step) {
      LoopStepKeepsBounds(s, step, subscribers, quiet);
    } else if Enabled(s, step) {
      ReceiveKeepsBounds(s, step.chan, subscribers);
    }
  }

  lemma {:induction false} RunKeepsBounds(s: State, steps: seq<Step>, subscribers: seq<ChanId>, quiet: bool)
    requires Inv(s) && Bounds(s, subscribers, quiet) && subscribers != []
    requires OnlyLoopOrReceive(steps) && (quiet ==> OnlyLoop(steps))
    ensures Bounds(Run(s, steps), subscribers, quiet)
    decreases |steps|
  {
    if steps != [] {
      StepKeepsInv(s, steps[0]);
      StepKeepsBounds(s, steps[0], subscribers, quiet);
      RunKeepsBounds(Apply(s, steps[0]), steps[1..], subscribers, quiet);
    }
  }

  // ------------------------------------------------------------- one round

  /** The state at the lock is like the one before the round, but for the poll. */
  lemma HandOutOfRound(s: State, g: GatewayId, now: int, result: seq<Event>, during: seq<Step>)
    requires Ready(s, g) && RoundInput(s, g, now, result) && !CaughtUp(s, g)
    requires OnlyLoopOrReceive(during)
    ensures var f := AtFetch(s, g, result);
      var u := Run(DoHandOut(f), during);
      && Inv(f) && Inv(u) && WakeInv(u) && InHandOut(f, u) && StaysWithPoll(f, u)
  {
    var f := AtFetch(s, g, result);
    var h := DoHandOut(f);
    FetchKeepsInv(s, g, now, result);
    LoopStays(h, during);
    StaysTransitive(f, h, Run(h, during));
    LoopIsClean(h, during);
    WholeHandOut(f, during);
  }

  lemma LoopIsClean(s: State, steps: seq<Step>)
    requires OnlyLoopOrReceive(steps)
    ensures Throughout(s, steps, AfterCleanup)
  {
    ThroughoutOf(s, steps, AfterCleanup);
  }

  lemma RoundEnds(s: State, s': State, g: GatewayId, now: int, result: seq<Event>, during: seq<Step>)
    requires Ready(s, g) && !CaughtUp(s, g) && RoundVia(s, s', g, now, result, during)
    ensures var f := AtFetch(s, g, result);
      var u := Run(DoHandOut(f), during);
      && Inv(f) && Inv(u) && WakeInv(u) && InHandOut(f, u) && StaysWithPoll(f, u)
      && u.poll.HandedOut? && s' == DoWriteBack(u)
  {
    RoundEffect(s, g, now, result, during);
    HandOutOfRound(s, g, now, result, during);
    WriteBackIs(Run(DoHandOut(AtFetch(s, g, result)), during));
  }

  lemma WriteBackIs(u: State)
    requires (u.poll.Handing? || u.poll.HandedOut?) && u.poll.id in u.gateways
    ensures Apply(u, WriteBack) == if u.poll.HandedOut? then DoWriteBack(u) else u
  {
  }

  lemma WriteBackLeaves(u: State)
    requires u.poll.HandedOut? && u.poll.id in u.gateways
    ensures var t := DoWriteBack(u);
      && t.poll.Idle? && t.page == u.page && t.stopped == u.stopped && t.rows == u.rows && t.versions == u.versions
      && t.committed == u.committed
      && u.poll.id in t.gateways && t.gateways[u.poll.id].subscribers == u.gateways[u.poll.id].subscribers
      && (!u.poll.blocked ==> t.gateways[u.poll.id].knownVersion == u.poll.version)
  {
  }

  lemma WriteBackKeepsReady(s: State, u: State, g: GatewayId)
    requires Ready(s, g) && Inv(u) && WakeInv(u) && u.poll.HandedOut? && u.poll.id == g && u.poll.version == s.versions[g]
    requires u.gateways == s.gateways && u.versions == s.versions && u.page == [] && !u.stopped
    ensures var t := DoWriteBack(u);
      && Ready(t, g) && s.gateways[g].lastPolled <= t.gateways[g].lastPolled && t.rows == u.rows
      && t.committed == u.committed
      && (!u.poll.blocked ==> CaughtUp(t, g))
  {
    PollerStepKeepsAll(u, WriteBack);
    WriteBackIs(u);
    WriteBackLeaves(u);
    WriteBackReachesReach(u);
    CursorMoves(s, u, g);
  }

  lemma CursorMoves(s: State, u: State, g: GatewayId)
    requires Ready(s, g) && u.gateways == s.gateways && g in u.gateways && u.poll.HandedOut? && u.poll.id == g
    requires u.gateways[g].lastPolled <= Reach(u.gateways, u.poll, g)
    ensures Reach(u.gateways, u.poll, g) != 0
  {
    CursorInRange(s, g);
  }

  lemma HandOutStartsEmpty(s: State, g: GatewayId, result: seq<Event>)
    requires Ready(s, g) && Drained(s, g)
    ensures Bounds(DoHandOut(AtFetch(s, g, result)), s.gateways[g].subscribers, true)
  {
    var h := DoHandOut(AtFetch(s, g, result));
    forall c | c in s.gateways[g].subscribers ensures Filled(h.channels, c) == 0 {
    }
  }

  /** The prefix of the batch that went out, and what it leaves. */
  ghost predicate Leaves(s: State, s': State, g: GatewayId, batch: seq<Event>, delivered: seq<Event>)
    requires g in s.gateways
  {
    && Ready(s', g) && s'.rows == s.rows && s'.committed == s.committed
    && s.gateways[g].lastPolled <= s'.gateways[g].lastPolled
    && s'.gateways[g].lastPolled == NextCursor(s.gateways[g].lastPolled, delivered)
    && Handed(s'.log) == Handed(s.log) + (set e | e in delivered)
    && delivered <= batch && (delivered == batch ==> CaughtUp(s', g))
  }

  lemma RoundLeaves(s: State, s': State, g: GatewayId, now: int, result: seq<Event>, during: seq<Step>) returns (p: Poll)
    requires Ready(s, g) && !CaughtUp(s, g) && RoundVia(s, s', g, now, result, during)
    ensures p == Run(DoHandOut(AtFetch(s, g, result)), during).poll && p.HandedOut?
    ensures Leaves(s, s', g, AtFetch(s, g, result).poll.batch, p.delivered)
    ensures !p.blocked ==> p.delivered == AtFetch(s, g, result).poll.batch
  {
    var f := AtFetch(s, g, result);
    var u := Run(DoHandOut(f), during);
    RoundEnds(s, s', g, now, result, during);
    HandOutEnds(f, u);
    WriteBackKeepsReady(s, u, g);
    p := u.poll;
  }

  /** What a round does when the channels are drained before it: the whole batch goes out, or at least a full channel's
      worth of it, and no more than that if nobody receives meanwhile. */
  lemma RoundOutcome(s: State, s': State, g: GatewayId, now: int, result: seq<Event>, during: seq<Step>)
    returns (delivered: seq<Event>)
    requires Ready(s, g) && Drained(s, g) && !CaughtUp(s, g) && RoundVia(s, s', g, now, result, during)
    ensures Leaves(s, s', g, AtFetch(s, g, result).poll.batch, delivered)
    ensures delivered == AtFetch(s, g, result).poll.batch || |delivered| >= CHANNEL_CAPACITY
    ensures OnlyLoop(during) ==> |delivered| <= CHANNEL_CAPACITY
  {
    var p := RoundLeaves(s, s', g, now, result, during);
    RoundBounds(s, g, now, result, during, p);
    delivered := p.delivered;
  }

  lemma RoundBounds(s: State, g: GatewayId, now: int, result: seq<Event>, during: seq<Step>, p: Poll)
    requires Ready(s, g) && Drained(s, g) && RoundInput(s, g, now, result) && !CaughtUp(s, g)
    requires OnlyLoopOrReceive(during)
    requires p == Run(DoHandOut(AtFetch(s, g, result)), during).poll && p.HandedOut?
    ensures p.blocked ==> |p.delivered| >= CHANNEL_CAPACITY
    ensures OnlyLoop(during) ==> |p.delivered| <= CHANNEL_CAPACITY
  {
    var f := AtFetch(s, g, result);
    FetchKeepsInv(s, g, now, result);
    StepKeepsInv(f, HandOut);
    LockApplies(f);
    HandOutStartsEmpty(s, g, result);
    RunKeepsBounds(DoHandOut(f), during, s.gateways[g].subscribers, false);
    if OnlyLoop(during) {
      RunKeepsBounds(DoHandOut(f), during, s.gateways[g].subscribers, true);
    }
  }

  lemma {:induction false} SubsetCount(a: set<Event>, b: set<Event>)
    requires a <= b
    ensures |a| <= |b|
    decreases |a|
  {
    if a != {} {
      var x :| x in a;
      SubsetCount(a - {x}, b - {x});
    }
  }

  /** The rows of a list without duplicates are as many as its positions. */
  lemma {:induction false} DistinctCount(es: seq<Event>, rows: set<Event>)
    requires NoDup(es) && forall e | e in es :: e in rows
    ensures |es| <= |rows|
    decreases |es|
  {
    if es != [] {
      var last := es[|es| - 1];
      var init := es[..|es| - 1];
      assert last in es;
      forall e | e in init ensures e in rows - {last} { assert e in es; }
      DistinctCount(init, rows - {last});
    }
  }

  /** What a batch repeats has the cursor's timestamp. */
  lemma OldRowIsAtCursor(f: State, e: Event)
    requires Inv(f) && f.poll.Fetched? && e in f.poll.batch && e in Handed(f.log)
    requires forall b | b in f.poll.batch :: b in f.rows
    ensures e in Group(f.rows, f.poll.id, f.gateways[f.poll.id].lastPolled)
  {
    RedeliveryOnlyAtBoundary(f, e);
  }

  lemma OldRowsAreFew(f: State, es: seq<Event>)
    requires Inv(f) && f.poll.Fetched? && es <= f.poll.batch
    requires forall b | b in f.poll.batch :: b in f.rows
    requires forall e | e in es :: e in Handed(f.log)
    ensures |es| <= |Group(f.rows, f.poll.id, f.gateways[f.poll.id].lastPolled) * Handed(f.log)|
  {
    var old' := Group(f.rows, f.poll.id, f.gateways[f.poll.id].lastPolled) * Handed(f.log);
    forall e | e in es ensures e in old' {
      OldRowIsAtCursor(f, e);
    }
    assert NoDup(f.poll.batch);
    DistinctCount(es, old');
  }

  /** The batch consists of retained rows, and everything retained from the cursor on is in it or was handed out. */
  lemma BatchIsRetained(s: State, g: GatewayId, now: int, result: seq<Event>)
    requires Ready(s, g) && RoundInput(s, g, now, result) && !CaughtUp(s, g)
    ensures forall b | b in AtFetch(s, g, result).poll.batch ::
      b in s.rows && b.gatewayId == g && b.processed >= s.gateways[g].lastPolled
    ensures forall r | r in Undelivered(s, g) :: r in AtFetch(s, g, result).poll.batch
  {
    FetchKeepsInv(s, g, now, result);
    var f := AtFetch(s, g, result);
    assert forall b | b in f.poll.batch :: b in result;
    assert AllHanded(s.rows, Handed(s.log) + (set e | e in f.poll.batch), g, s.gateways[g].lastPolled);
  }

  /** The rows of the batch that were handed out before: rows at the cursor. */
  ghost function Repeats(s: State, g: GatewayId): set<Event>
    requires g in s.gateways
  {
    Group(s.rows, g, s.gateways[g].lastPolled) * Handed(s.log)
  }

  /** More of the batch than there are repeats contains something new. */
  lemma NewOrComplete(s: State, g: GatewayId, now: int, result: seq<Event>, delivered: seq<Event>)
    requires Ready(s, g) && RoundInput(s, g, now, result) && !CaughtUp(s, g)
    requires |Repeats(s, g)| < CHANNEL_CAPACITY
    requires var batch := AtFetch(s, g, result).poll.batch;
      delivered <= batch && (delivered == batch || |delivered| >= CHANNEL_CAPACITY)
    ensures delivered == AtFetch(s, g, result).poll.batch || exists e :: e in delivered && e !in Handed(s.log)
  {
    FetchKeepsInv(s, g, now, result);
    BatchIsRetained(s, g, now, result);
    if forall e | e in delivered :: e in Handed(s.log) {
      OldRowsAreFew(AtFetch(s, g, result), delivered);
    }
  }

  /** Handing out a new row from the batch shrinks what is undelivered. */
  lemma UndeliveredShrinks(rows: set<Event>, g: GatewayId, handed: set<Event>, cursor: int, cursor': int,
                           batch: seq<Event>, delivered: seq<Event>)
    requires cursor <= cursor' && delivered <= batch
    requires forall b | b in batch :: b in rows && b.gatewayId == g && b.processed >= cursor
    requires forall r | r in UndeliveredIn(rows, g, handed, cursor) :: r in batch
    requires delivered == batch || exists e :: e in delivered && e !in handed
    ensures var before := UndeliveredIn(rows, g, handed, cursor);
      var after := UndeliveredIn(rows, g, handed + (set e | e in delivered), cursor');
      after <= before && (before != {} ==> after < before)
  {
    var before := UndeliveredIn(rows, g, handed, cursor);
    var after := UndeliveredIn(rows, g, handed + (set e | e in delivered), cursor');
    if delivered == batch {
      assert after == {};
    } else {
      var e :| e in delivered && e !in handed;
      assert e in batch;
      assert e in before && e !in after;
    }
  }

  lemma NoneLeftGoesOut(s: State, g: GatewayId, now: int, result: seq<Event>, delivered: seq<Event>)
    requires Ready(s, g) && RoundInput(s, g, now, result) && !CaughtUp(s, g) && Undelivered(s, g) == {}
    requires var batch := AtFetch(s, g, result).poll.batch;
      delivered <= batch && (delivered == batch || exists e :: e in delivered && e !in Handed(s.log))
    ensures delivered == AtFetch(s, g, result).poll.batch
  {
    BatchIsRetained(s, g, now, result);
    var batch := AtFetch(s, g, result).poll.batch;
    assert forall e | e in delivered :: e in batch;
    assert forall e | e in batch :: e in Handed(s.log) || e in Undelivered(s, g);
  }

  /** One round: something new is handed out, or the gateway has caught up. */
  lemma RoundProgress(s: State, s': State, g: GatewayId)
    requires Ready(s, g) && Drained(s, g) && !CaughtUp(s, g) && Round(s, s', g)
    requires |Repeats(s, g)| < 100
    ensures Ready(s', g) && s'.rows == s.rows && s.gateways[g].lastPolled <= s'.gateways[g].lastPolled
    ensures Undelivered(s', g) <= Undelivered(s, g)
    ensures Undelivered(s, g) != {} ==> Undelivered(s', g) < Undelivered(s, g)
    ensures Undelivered(s, g) == {} ==> CaughtUp(s', g)
  {
    var now, result, during :| RoundVia(s, s', g, now, result, during);
    var delivered := RoundOutcome(s, s', g, now, result, during);
    NewOrComplete(s, g, now, result, delivered);
    BatchIsRetained(s, g, now, result);
    UndeliveredShrinks(s.rows, g, Handed(s.log), s.gateways[g].lastPolled, s'.gateways[g].lastPolled,
                       AtFetch(s, g, result).poll.batch, delivered);
    if Undelivered(s, g) == {} { NoneLeftGoesOut(s, g, now, result, delivered); }
  }

  // ------------------------------------------- answers with a chosen tie order

  lemma {:induction false} Earliest(rows: set<Event>) returns (e: Event)
    requires rows != {}
    ensures e in rows && forall r | r in rows :: e.processed <= r.processed
    decreases |rows|
  {
    e :| e in rows;
    if rows != {e} {
      var f := Earliest(rows - {e});
      if f.processed < e.processed { e := f; }
    }
  }

  ghost predicate Lists(es: seq<Event>, rows: set<Event>) {
    TimeOrdered(es) && NoDup(es) && forall e :: e in es <==> e in rows
  }

  lemma {:induction false} SortedRows(rows: set<Event>) returns (es: seq<Event>)
    ensures Lists(es, rows) && |es| == |rows|
    decreases |rows|
  {
    if rows == {} {
      es := [];
    } else {
      var e := Earliest(rows);
      var rest := SortedRows(rows - {e});
      es := [e] + rest;
      forall i | 0 <= i < |rest| ensures rest[i] in rows - {e} { assert rest[i] in rest; }
    }
  }

  lemma ListsJoin(a: seq<Event>, x: set<Event>, b: seq<Event>, y: set<Event>)
    requires Lists(a, x) && Lists(b, y) && x !! y
    requires forall e, f | e in x && f in y :: e.processed <= f.processed
    ensures Lists(a + b, x + y)
  {
    var all := a + b;
    forall i, j | 0 <= i < j < |all| ensures all[i] != all[j] && all[i].processed <= all[j].processed {
      if i < |a| <= j { assert all[i] in a && all[j] in b; }
    }
  }

  /** The database may answer with any of the rows at the boundary first. */
  lemma AnswerStartingWith(rows: set<Event>, g: GatewayId, boundary: int, first: set<Event>) returns (result: seq<Event>)
    requires first <= Group(rows, g, boundary)
    ensures IsQueryResult(rows, g, boundary, result)
    ensures |first| <= |result| && forall i | 0 <= i < |first| :: result[i] in first
  {
    var others := Window(rows, g, boundary) - first;
    var a := SortedRows(first);
    var b := SortedRows(others);
    ListsJoin(a, first, b, others);
    assert first + others == Window(rows, g, boundary);
    result := a + b;
    WindowIsAnswer(rows, g, boundary, result);
    StartsWith(a, b, first);
  }

  ghost function Window(rows: set<Event>, g: GatewayId, since: int): set<Event> {
    set r | r in rows && r.gatewayId == g && r.processed >= since
  }

  lemma WindowIsAnswer(rows: set<Event>, g: GatewayId, since: int, result: seq<Event>)
    requires Lists(result, Window(rows, g, since))
    ensures IsQueryResult(rows, g, since, result)
  {
  }

  lemma StartsWith(a: seq<Event>, rest: seq<Event>, first: set<Event>)
    requires Lists(a, first) && |a| == |first|
    ensures forall i | 0 <= i < |first| :: (a + rest)[i] in first
  {
    forall i | 0 <= i < |first| ensures (a + rest)[i] in first { assert a[i] in a; }
  }

  // ---------------------------------------------------------- exact conditions

  lemma {:induction false} SeqCount(es: seq<Event>)
    ensures |set e | e in es| <= |es|
    decreases |es|
  {
    if es != [] {
      var init := es[..|es| - 1];
      SeqCount(init);
      assert (set e | e in es) == (set e | e in init) + {es[|es| - 1]};
    }
  }

  lemma GroupWithin(rows: set<Event>, g: GatewayId, boundary: int, result: seq<Event>, m: nat)
    requires IsQueryResult(rows, g, boundary, result) && m <= |result|
    requires forall k | m <= k < |result| :: result[k].processed != boundary
    ensures |Group(rows, g, boundary)| <= m
  {
    var group := Group(rows, g, boundary);
    forall e | e in group ensures e in result[..m] {
      assert e in result;
      var k :| 0 <= k < |result| && result[k] == e;
      assert result[..m][k] == e;
    }
    SubsetCount(group, set e | e in result[..m]);
    SeqCount(result[..m]);
  }

  /** The rows with the boundary timestamp come first. */
  lemma GroupComesFirst(rows: set<Event>, g: GatewayId, boundary: int, result: seq<Event>, n: nat)
    requires IsQueryResult(rows, g, boundary, result) && |Group(rows, g, boundary)| >= n
    ensures |result| >= n && forall i | 0 <= i < n :: result[i].processed == boundary
  {
    GroupWithin(rows, g, boundary, result, |result|);
    forall i | 0 <= i < n ensures result[i].processed == boundary {
      assert result[i] in result;
      if result[i].processed > boundary { GroupWithin(rows, g, boundary, result, i); }
    }
  }

  lemma BigGroupIsNotTrimmed(rows: set<Event>, g: GatewayId, boundary: int, result: seq<Event>)
    requires IsQueryResult(rows, g, boundary, result) && |Group(rows, g, boundary)| >= 2
    ensures TrimSingleBoundaryReplay(result, boundary, true) == result
  {
    GroupComesFirst(rows, g, boundary, result, 2);
  }

  /** For every answer there is a round in which nobody receives. */
  lemma RoundExists(s: State, g: GatewayId, result: seq<Event>) returns (s': State, now: int, during: seq<Step>)
    requires Ready(s, g) && !CaughtUp(s, g) && IsQueryResult(s.rows, g, s.gateways[g].lastPolled, result)
    ensures RoundVia(s, s', g, now, result, during) && OnlyLoop(during)
  {
    CursorInRange(s, g);
    now := s.gateways[g].lastPolled;
    LockedOk(s, g, now, result);
    during := Undisturbed(DoHandOut(AtFetch(s, g, result)));
    RoundOf(s, g, now, result, during);
    s' := DoWriteBack(Run(DoHandOut(AtFetch(s, g, result)), during));
  }

  lemma LockedOk(s: State, g: GatewayId, now: int, result: seq<Event>)
    requires Ready(s, g) && RoundInput(s, g, now, result) && !CaughtUp(s, g)
    ensures Inv(DoHandOut(AtFetch(s, g, result)))
  {
    var f := AtFetch(s, g, result);
    FetchKeepsInv(s, g, now, result);
    LockApplies(f);
    StepKeepsInv(f, HandOut);
  }

  /** A hand-out that comes to its end makes a round. */
  lemma RoundOf(s: State, g: GatewayId, now: int, result: seq<Event>, during: seq<Step>)
    requires Ready(s, g) && RoundInput(s, g, now, result) && !CaughtUp(s, g)
    requires OnlyLoopOrReceive(during)
    requires var u := Run(DoHandOut(AtFetch(s, g, result)), during); u.poll.HandedOut? && u.poll.id in u.gateways
    ensures RoundVia(s, DoWriteBack(Run(DoHandOut(AtFetch(s, g, result)), during)), g, now, result, during)
  {
    RoundEffect(s, g, now, result, during);
    WriteBackIs(Run(DoHandOut(AtFetch(s, g, result)), during));
  }

  /** At least two rows at the boundary: nothing is trimmed. */
  lemma TwoAtBoundary(rows: set<Event>, g: GatewayId, boundary: int, result: seq<Event>, e: Event, f: Event)
    requires IsQueryResult(rows, g, boundary, result) && e != f
    requires e in Group(rows, g, boundary) && f in Group(rows, g, boundary)
    ensures TrimSingleBoundaryReplay(result, boundary, true) == result
  {
    if TrimSingleBoundaryReplay(result, boundary, true) != result {
      TrimmedIsAlone(rows, g, boundary, result, e);
      TrimmedIsAlone(rows, g, boundary, result, f);
    }
  }

  lemma PrefixOfFirst(result: seq<Event>, delivered: seq<Event>, first: set<Event>, e: Event)
    requires delivered <= result && |delivered| <= |first| <= |result| && e in delivered
    requires forall i | 0 <= i < |first| :: result[i] in first
    ensures e in first
  {
    var k :| 0 <= k < |delivered| && delivered[k] == e;
    assert result[k] == e;
  }

  /** With a full channel's worth of repeats, the database may answer with them first, and then nothing new goes out. */
  lemma RepeatsFirst(s: State, g: GatewayId) returns (s': State)
    requires Ready(s, g) && Drained(s, g) && !CaughtUp(s, g) && |Repeats(s, g)| >= CHANNEL_CAPACITY
    ensures UndisturbedRound(s, s', g) && !HandsOutNew(s, s')
  {
    var cursor, first := s.gateways[g].lastPolled, Repeats(s, g);
    var result := AnswerStartingWith(s.rows, g, cursor, first);
    var now, during;
    s', now, during := RoundExists(s, g, result);
    var delivered := RoundOutcome(s, s', g, now, result, during);
    SubsetCount(first, Group(s.rows, g, cursor));
    BigGroupIsNotTrimmed(s.rows, g, cursor, result);
    forall e | e in delivered ensures e in Handed(s.log) { PrefixOfFirst(result, delivered, first, e); }
  }

  lemma RoundIsNew(s: State, s': State, g: GatewayId)
    requires Ready(s, g) && Drained(s, g) && !CaughtUp(s, g) && Undelivered(s, g) != {} && Round(s, s', g)
    requires |Repeats(s, g)| < CHANNEL_CAPACITY
    ensures HandsOutNew(s, s')
  {
    var now, result, during :| RoundVia(s, s', g, now, result, during);
    var delivered := RoundOutcome(s, s', g, now, result, during);
    NewOrComplete(s, g, now, result, delivered);
    BatchIsRetained(s, g, now, result);
    if delivered == AtFetch(s, g, result).poll.batch {
      var e :| e in Undelivered(s, g);
      assert e in delivered;
    } else {
      var e :| e in delivered && e !in Handed(s.log);
      assert e in Handed(s'.log);
    }
  }

  /** Every round, whatever the tie order of the answer and whenever consumers receive, hands out something new if and
      only if fewer rows at the cursor have been handed out than a channel holds. */
  lemma ProgressIff(s: State, g: GatewayId)
    requires Ready(s, g) && Drained(s, g) && !CaughtUp(s, g) && Undelivered(s, g) != {}
    ensures (forall s' | Round(s, s', g) :: HandsOutNew(s, s')) <==> |Repeats(s, g)| < 100
  {
    if |Repeats(s, g)| < CHANNEL_CAPACITY {
      forall s' | Round(s, s', g) ensures HandsOutNew(s, s') {
        RoundIsNew(s, s', g);
      }
    } else {
      var s' := RepeatsFirst(s, g);
      assert Round(s, s', g);
    }
  }

  /** A row at the cursor that was never handed out: the row that set the cursor is still there, too. */
  lemma NotAloneAtCursor(s: State, g: GatewayId, e: Event) returns (f: Event)
    requires Ready(s, g) && e in Group(s.rows, g, s.gateways[g].lastPolled) && e !in Handed(s.log)
    ensures f != e && f in Group(s.rows, g, s.gateways[g].lastPolled)
  {
    assert CursorOk(s.gateways[g], g, Handed(s.log));
    f :| f in Handed(s.log) && f.gatewayId == g && f.processed == s.gateways[g].lastPolled;
    assert f in Out(s.log, s.poll);
    assert f in s.rows;
  }

  /** With a row at the cursor that is new, the database may answer with it first. */
  lemma NewFirst(s: State, g: GatewayId, e: Event) returns (s': State)
    requires Ready(s, g) && Drained(s, g) && !CaughtUp(s, g)
    requires e in Group(s.rows, g, s.gateways[g].lastPolled) && e !in Handed(s.log)
    ensures UndisturbedRound(s, s', g) && HandsOutNew(s, s')
  {
    var cursor := s.gateways[g].lastPolled;
    var result := AnswerStartingWith(s.rows, g, cursor, {e});
    var f := NotAloneAtCursor(s, g, e);
    TwoAtBoundary(s.rows, g, cursor, result, e, f);
    var now, during;
    s', now, during := RoundExists(s, g, result);
    var delivered := RoundOutcome(s, s', g, now, result, during);
    assert delivered[0] == e && e in delivered;
    assert e in Handed(s'.log);
  }

  /** When a full channel's worth of rows shares the cursor's timestamp and all were handed out, a round in which nobody
      receives repeats them, hands out nothing new and leaves the cursor where it was. */
  lemma FullGroupStalls(s: State, s': State, g: GatewayId)
    requires Ready(s, g) && Drained(s, g) && !CaughtUp(s, g) && UndisturbedRound(s, s', g)
    requires var group := Group(s.rows, g, s.gateways[g].lastPolled);
             |group| >= 100 && group <= Handed(s.log)
    ensures Ready(s', g) && s'.rows == s.rows && s'.gateways[g].lastPolled == s.gateways[g].lastPolled
    ensures Handed(s'.log) == Handed(s.log)
  {
    var now, result, during :| RoundVia(s, s', g, now, result, during) && OnlyLoop(during);
    var delivered := RoundOutcome(s, s', g, now, result, during);
    BigGroupIsNotTrimmed(s.rows, g, s.gateways[g].lastPolled, result);
    OnlyRepeats(s.rows, g, s.gateways[g].lastPolled, Handed(s.log), result, delivered);
  }

  lemma OnlyRepeats(rows: set<Event>, g: GatewayId, cursor: int, handed: set<Event>,
                    result: seq<Event>, delivered: seq<Event>)
    requires IsQueryResult(rows, g, cursor, result)
    requires |Group(rows, g, cursor)| >= CHANNEL_CAPACITY && Group(rows, g, cursor) <= handed
    requires delivered <= result && |delivered| <= CHANNEL_CAPACITY
    requires delivered == result || |delivered| == CHANNEL_CAPACITY
    ensures handed + (set e | e in delivered) == handed && NextCursor(cursor, delivered) == cursor
  {
    GroupComesFirst(rows, g, cursor, result, CHANNEL_CAPACITY);
    forall e | e in delivered ensures e in handed {
      var k :| 0 <= k < |delivered| && delivered[k] == e;
      assert result[k] == e && e in result;
      assert e in Group(rows, g, cursor);
    }
  }

  /** No round in which nobody receives hands out anything new, whatever the tie order of the answer, if and only if a full
      channel's worth of rows shares the cursor's timestamp and all of them were handed out. */
  lemma StallIff(s: State, g: GatewayId)
    requires Ready(s, g) && Drained(s, g) && !CaughtUp(s, g) && Undelivered(s, g) != {}
    ensures (forall s' | UndisturbedRound(s, s', g) :: !HandsOutNew(s, s'))
       <==> (var group := Group(s.rows, g, s.gateways[g].lastPolled);
             |group| >= 100 && group <= Handed(s.log))
  {
    var group := Group(s.rows, g, s.gateways[g].lastPolled);
    if |group| >= CHANNEL_CAPACITY && group <= Handed(s.log) {
      forall s' | UndisturbedRound(s, s', g) ensures !HandsOutNew(s, s') { FullGroupStalls(s, s', g); }
    } else if group <= Handed(s.log) {
      assert Repeats(s, g) == group;
      var result := AnswerStartingWith(s.rows, g, s.gateways[g].lastPolled, {});
      var s', now, during := RoundExists(s, g, result);
      RoundIsNew(s, s', g);
      assert UndisturbedRound(s, s', g);
    } else {
      var e :| e in group && e !in Handed(s.log);
      var s' := NewFirst(s, g, e);
    }
  }

  /** If consumers receive during the hand-out, a round can always bring a gateway up to date. */
  lemma RoundCanCatchUp(s: State, g: GatewayId) returns (s': State)
    requires Ready(s, g) && !CaughtUp(s, g)
    ensures Round(s, s', g) && Ready(s', g) && CaughtUp(s', g)
  {
    CursorInRange(s, g);
    var now := s.gateways[g].lastPolled;
    var result := AnswerStartingWith(s.rows, g, now, {});
    LockedOk(s, g, now, result);
    var during := Completed(DoHandOut(AtFetch(s, g, result)));
    RoundOf(s, g, now, result, during);
    s' := DoWriteBack(Run(DoHandOut(AtFetch(s, g, result)), during));
    var p := RoundLeaves(s, s', g, now, result, during);
  }

  // ------------------------------------------------------------- many rounds

  ghost predicate DrainedVia(s: State, d: State, g: GatewayId, receives: seq<Step>) {
    && (forall step | step in receives :: step.Receive?) && d == Run(s, receives)
    && g in d.gateways && Drained(d, g)
  }

  /** Consumers drain the gateway's channels. */
  ghost predicate Drains(s: State, d: State, g: GatewayId) {
    exists receives :: DrainedVia(s, d, g, receives)
  }

  /** Consumers drain the channels, then the poller makes one round, and nobody receives or publishes meanwhile. */
  ghost predicate StillRound(s: State, s': State, g: GatewayId) {
    exists d :: Drains(s, d, g) && UndisturbedRound(d, s', g)
  }

  lemma ReceiveKeepsReady(s: State, step: Step, g: GatewayId)
    requires Ready(s, g) && LoopOrReceive(step)
    ensures Apply(s, step) == s.(channels := Apply(s, step).channels)
    ensures Ready(Apply(s, step), g)
  {
    StepKeepsInv(s, step);
    IdleStep(s, step);
    SameForWake(s, Apply(s, step));
  }

  lemma IdleStep(s: State, step: Step)
    requires s.poll.Idle? && LoopOrReceive(step)
    ensures Apply(s, step) == s.(channels := Apply(s, step).channels)
  {
  }

  /** Between polls, consumers change nothing but the channels. */
  lemma {:induction false} ReceivesKeepReady(s: State, steps: seq<Step>, g: GatewayId)
    requires Ready(s, g) && OnlyLoopOrReceive(steps)
    ensures Run(s, steps) == s.(channels := Run(s, steps).channels) && Ready(Run(s, steps), g)
    decreases |steps|
  {
    if steps != [] {
      ReceiveKeepsReady(s, steps[0], g);
      ReceivesKeepReady(Apply(s, steps[0]), steps[1..], g);
    }
  }

  lemma DrainKeepsReady(s: State, d: State, g: GatewayId)
    requires Ready(s, g) && Drains(s, d, g)
    ensures Ready(d, g) && Drained(d, g) && d == s.(channels := d.channels)
    ensures CaughtUp(d, g) == CaughtUp(s, g) && Undelivered(d, g) == Undelivered(s, g)
  {
    var receives :| DrainedVia(s, d, g, receives);
    ReceivesKeepReady(s, receives, g);
  }

  lemma CaughtUpHasNoneLeft(s: State, g: GatewayId)
    requires Ready(s, g) && CaughtUp(s, g)
    ensures Undelivered(s, g) == {}
  {
    assert AllHanded(s.rows, Handed(s.log), g, s.gateways[g].lastPolled);
  }

  // ------------------------------------------------------------------ stalls

  lemma SameUndelivered(s: State, s': State, g: GatewayId)
    requires g in s.gateways && g in s'.gateways && s'.rows == s.rows
    requires Handed(s'.log) == Handed(s.log) && s'.gateways[g].lastPolled == s.gateways[g].lastPolled
    ensures Undelivered(s', g) == Undelivered(s, g)
    ensures Group(s'.rows, g, s'.gateways[g].lastPolled) == Group(s.rows, g, s.gateways[g].lastPolled)
  {
  }

  /** Rows wait behind a full channel's worth of rows that were handed out and share the cursor's timestamp. */
  ghost predicate Stalled(s: State, g: GatewayId) {
    && Ready(s, g)
    && |Group(s.rows, g, s.gateways[g].lastPolled)| >= 100
    && Group(s.rows, g, s.gateways[g].lastPolled) <= Handed(s.log)
    && Undelivered(s, g) != {}
  }

  lemma StillRoundStalls(s: State, s': State, g: GatewayId)
    requires Stalled(s, g) && StillRound(s, s', g)
    ensures Stalled(s', g) && Undelivered(s', g) == Undelivered(s, g)
  {
    var d :| Drains(s, d, g) && UndisturbedRound(d, s', g);
    DrainKeepsReady(s, d, g);
    if CaughtUp(d, g) { CaughtUpHasNoneLeft(d, g); }
    FullGroupStalls(d, s', g);
    SameUndelivered(d, s', g);
  }

  lemma {:induction false} Persists<S(!new)>(trace: seq<S>, good: S -> bool, next: (S, S) -> bool)
    requires forall a, b | good(a) && next(a, b) :: good(b)
    requires trace != [] && good(trace[0])
    requires forall i | 0 <= i < |trace| - 1 :: next(trace[i], trace[i + 1])
    ensures good(trace[|trace| - 1])
    decreases |trace|
  {
    if |trace| > 1 {
      assert next(trace[0], trace[1]);
      Persists(trace[1..], good, next);
    }
  }

  /** As long as nobody receives during a round, a stalled gateway hands out nothing new, however many rounds follow. */
  lemma StaysStalled(trace: seq<State>, g: GatewayId)
    requires trace != [] && Stalled(trace[0], g)
    requires forall i | 0 <= i < |trace| - 1 :: StillRound(trace[i], trace[i + 1], g)
    ensures Stalled(trace[|trace| - 1], g)
    ensures Undelivered(trace[|trace| - 1], g) == Undelivered(trace[0], g)
  {
    var left := Undelivered(trace[0], g);
    var good := (s: State) => Stalled(s, g) && Undelivered(s, g) == left;
    var next := (s: State, s': State) => StillRound(s, s', g);
    forall s, s' | good(s) && next(s, s') ensures good(s') {
      StillRoundStalls(s, s', g);
    }
    Persists(trace, good, next);
  }

  /** How a gateway comes to stall: it has caught up with a full channel's worth of rows at the cursor, and a later row
      is published. */
  lemma PublishStalls(s: State, g: GatewayId, e: Event, v: Version)
    requires Ready(s, g) && CaughtUp(s, g) && |Group(s.rows, g, s.gateways[g].lastPolled)| >= 100
    requires Enabled(s, Publish(e, v)) && AfterCleanup(s, Publish(e, v))
    requires e.gatewayId == g && e.processed > s.gateways[g].lastPolled
    ensures Stalled(DoPublish(s, e, v), g)
  {
    PublishKeepsReady(s, g, e, v);
    CaughtUpHasNoneLeft(s, g);
    PublishIsNew(s, e, v);
    GroupBeforePublish(s.rows, g, Handed(s.log), s.gateways[g].lastPolled, e);
  }

  lemma PublishKeepsReady(s: State, g: GatewayId, e: Event, v: Version)
    requires Ready(s, g) && Enabled(s, Publish(e, v)) && AfterCleanup(s, Publish(e, v)) && e.gatewayId == g
    ensures Ready(DoPublish(s, e, v), g)
  {
    StepKeepsInv(s, Publish(e, v));
    PublishKeepsWake(s, e, v);
  }

  lemma PublishIsNew(s: State, e: Event, v: Version)
    requires Inv(s) && WakeInv(s) && Enabled(s, Publish(e, v)) && AfterCleanup(s, Publish(e, v))
    ensures e !in Handed(s.log)
  {
    assert e !in s.committed;
    assert e !in Out(s.log, s.poll);
  }

  lemma GroupBeforePublish(rows: set<Event>, g: GatewayId, handed: set<Event>, cursor: int, e: Event)
    requires UndeliveredIn(rows, g, handed, cursor) == {} && e.gatewayId == g && e.processed > cursor && e !in handed
    ensures Group(rows + {e}, g, cursor) == Group(rows, g, cursor) && Group(rows, g, cursor) <= handed
    ensures e in UndeliveredIn(rows + {e}, g, handed, cursor)
  {
    forall x | x in Group(rows, g, cursor) ensures x in handed { assert x !in UndeliveredIn(rows, g, handed, cursor); }
  }
}
