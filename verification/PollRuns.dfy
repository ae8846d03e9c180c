// What the methods of a replica amount to in the protocol: runs of closing steps, the
// steps of a poll among those of others, and the record of a whole poll round.
module PollRuns {
  import opened Timestamps
  import opened HubModel
  import opened HubRuns
  import opened HubChannels
  import opened HubInvariant
  import opened HubHandOuts
  import opened Publishing
  import opened Paging
  import opened Interleavings

  function CloseSteps(cs: seq<ChanId>): seq<Step> {
    if cs == [] then [] else CloseSteps(cs[..|cs| - 1]) + [CloseDetached(cs[|cs| - 1])]
  }

  function CloseGateways(ids: seq<GatewayId>): seq<Step> {
    if ids == [] then [] else CloseGateways(ids[..|ids| - 1]) + [CloseGateway(ids[|ids| - 1])]
  }

  lemma CloseOneMoreGateway(s: State, ids: seq<GatewayId>, i: nat)
    requires i < |ids|
    requires var t := Run(s, CloseGateways(ids[..i])); t.stopped && t.poll.Idle? && ids[i] in t.gateways
    ensures Run(s, CloseGateways(ids[..i + 1])) == DoCloseGateway(Run(s, CloseGateways(ids[..i])), ids[i])
  {
    assert ids[..i + 1][..i] == ids[..i];
    RunThenStep(s, CloseGateways(ids[..i]), CloseGateway(ids[i]));
  }

  lemma StopThenClose(s: State, ids: seq<GatewayId>)
    requires s.poll.Idle?
    ensures Run(s, [Stop] + CloseGateways(ids)) == Run(s.(stopped := true, page := []), CloseGateways(ids))
  {
    RunOne(s, Stop);
    RunConcat(s, [Stop], CloseGateways(ids));
  }

  lemma CloseStepsSnoc(cs: seq<ChanId>, i: nat)
    requires i < |cs|
    ensures CloseSteps(cs[..i + 1]) == CloseSteps(cs[..i]) + [CloseDetached(cs[i])]
  {
    assert cs[..i + 1][..i] == cs[..i];
  }

  lemma CloseOneMore(s: State, cs: seq<ChanId>, i: nat)
    requires i < |cs| && cs[i] in Run(s, CloseSteps(cs[..i])).detached
    ensures Run(s, CloseSteps(cs[..i + 1])) == DoCloseDetached(Run(s, CloseSteps(cs[..i])), cs[i])
  {
    CloseStepsSnoc(cs, i);
    RunThenStep(s, CloseSteps(cs[..i]), CloseDetached(cs[i]));
  }

  /** These channels are closed, no other, and they no longer wait for it. */
  ghost predicate ClosedOff(s: State, cs: set<ChanId>, t: State) {
    OnlyCloses(s.channels, cs, t.channels) && t.detached == s.detached - cs
  }

  lemma ClosedOffOneMore(s: State, cs: set<ChanId>, t: State, c: ChanId)
    requires ClosedOff(s, cs, t) && c in s.detached && c !in cs
    ensures ClosedOff(s, cs + {c}, Apply(t, CloseDetached(c)))
  {
    CloseOneCloses(t.channels, c);
  }

  lemma {:induction false} CloseStepsClose(s: State, cs: seq<ChanId>)
    requires NoDup(cs) && forall c | c in cs :: c in s.detached
    ensures ClosedOff(s, (set c | c in cs), Run(s, CloseSteps(cs)))
    decreases |cs|
  {
    if cs != [] {
      var n := |cs| - 1;
      LastIsNew(cs);
      assert cs[n] in cs && forall c | c in cs[..n] :: c in cs;
      CloseStepsClose(s, cs[..n]);
      RunThenStep(s, CloseSteps(cs[..n]), CloseDetached(cs[n]));
      ClosedOffOneMore(s, (set c | c in cs[..n]), Run(s, CloseSteps(cs[..n])), cs[n]);
    }
  }

  lemma CloseOneCloses(channels: Channels, c: ChanId)
    ensures OnlyCloses(channels, {c}, CloseOne(channels, c).channels)
  {
  }

  /** All channels listed for one of the gateways. */
  ghost function Listed(gateways: Gateways, ids: set<GatewayId>): set<ChanId> {
    set g, c | g in ids && g in gateways && c in gateways[g].subscribers :: c
  }

  /** Of these gateways the lists are emptied, and nothing else of the registry changes. */
  ghost predicate OnlyEmpties(gateways: Gateways, ids: set<GatewayId>, gateways': Gateways) {
    && gateways'.Keys == gateways.Keys
    && forall g | g in gateways ::
         && gateways'[g].subscribers == (if g in ids then [] else gateways[g].subscribers)
         && gateways'[g].knownVersion == gateways[g].knownVersion && gateways'[g].lastPolled == gateways[g].lastPolled
  }

  lemma CloseGatewayCloses(s: State, id: GatewayId)
    requires id in s.gateways
    ensures OnlyCloses(s.channels, Listed(s.gateways, {id}), DoCloseGateway(s, id).channels)
    ensures OnlyEmpties(s.gateways, {id}, DoCloseGateway(s, id).gateways)
  {
    CloseAllOnlyCloses(s.channels, s.gateways[id].subscribers);
    assert Listed(s.gateways, {id}) == set c | c in s.gateways[id].subscribers;
  }

  lemma ClosesMore(s: State, t: State, u: State, ids: set<GatewayId>, id: GatewayId)
    requires OnlyCloses(s.channels, Listed(s.gateways, ids), t.channels) && OnlyEmpties(s.gateways, ids, t.gateways)
    requires OnlyCloses(t.channels, Listed(t.gateways, {id}), u.channels) && OnlyEmpties(t.gateways, {id}, u.gateways)
    requires id !in ids
    ensures OnlyCloses(s.channels, Listed(s.gateways, ids + {id}), u.channels) && OnlyEmpties(s.gateways, ids + {id}, u.gateways)
  {
    assert Listed(s.gateways, ids + {id}) == Listed(s.gateways, ids) + Listed(t.gateways, {id});
  }

  /** The hub has stopped, every listed channel of these gateways is closed, and no other, and their lists are empty. */
  ghost predicate ShutDown(s: State, ids: set<GatewayId>, t: State) {
    && t.stopped && t.poll.Idle?
    && OnlyCloses(s.channels, Listed(s.gateways, ids), t.channels) && OnlyEmpties(s.gateways, ids, t.gateways)
  }

  lemma ShutDownOneMore(s: State, ids: set<GatewayId>, t: State, id: GatewayId)
    requires ShutDown(s, ids, t) && id in s.gateways && id !in ids
    ensures ShutDown(s, ids + {id}, Apply(t, CloseGateway(id)))
  {
    CloseGatewayApplies(t, id);
    CloseGatewayCloses(t, id);
    ClosesMore(s, t, DoCloseGateway(t, id), ids, id);
  }

  lemma LastIsNew<T(!new)>(xs: seq<T>)
    requires NoDup(xs) && xs != []
    ensures var n := |xs| - 1; NoDup(xs[..n]) && xs[n] !in xs[..n] && (set x | x in xs) == (set x | x in xs[..n]) + {xs[n]}
  {
    var n := |xs| - 1;
    assert xs == xs[..n] + [xs[n]];
  }

  lemma {:induction false} CloseGatewaysClose(s: State, ids: seq<GatewayId>)
    requires s.stopped && s.poll.Idle? && NoDup(ids) && forall g | g in ids :: g in s.gateways
    ensures ShutDown(s, (set g | g in ids), Run(s, CloseGateways(ids)))
    decreases |ids|
  {
    if ids == [] {
      assert Listed(s.gateways, set g | g in ids) == {};
    } else {
      var n := |ids| - 1;
      LastIsNew(ids);
      assert ids[n] in ids && forall g | g in ids[..n] :: g in ids;
      CloseGatewaysClose(s, ids[..n]);
      RunThenStep(s, CloseGateways(ids[..n]), CloseGateway(ids[n]));
      ShutDownOneMore(s, (set g | g in ids[..n]), Run(s, CloseGateways(ids[..n])), ids[n]);
    }
  }

  lemma RemoveAllThenClose(s: State, id: GatewayId, removed: seq<ChanId>)
    requires !s.poll.Handing?
    ensures Run(s, [Step.UnsubscribeAll(id)] + CloseSteps(removed)) == Run(DoUnsubscribeAll(s, id), CloseSteps(removed))
  {
    RunOne(s, Step.UnsubscribeAll(id));
    RunConcat(s, [Step.UnsubscribeAll(id)], CloseSteps(removed));
  }

  lemma RemoveThenClose(s: State, id: GatewayId, c: ChanId)
    requires id in s.gateways && c in s.gateways[id].subscribers && !s.poll.Handing?
    ensures Run(s, [Step.Unsubscribe(id, c), CloseDetached(c)]) == DoCloseDetached(DoUnsubscribe(s, id, c), c)
  {
    RunTwo(s, Step.Unsubscribe(id, c), CloseDetached(c));
  }

  lemma RemovedOnce(s: State, id: GatewayId, c: ChanId)
    requires id in s.gateways && c in s.gateways[id].subscribers
    ensures id in DoUnsubscribe(s, id, c).gateways
    ensures multiset(DoUnsubscribe(s, id, c).gateways[id].subscribers) == multiset(s.gateways[id].subscribers) - multiset{c}
  {
    SwapRemoveCount(s.gateways[id].subscribers, IndexOf(s.gateways[id].subscribers, c));
  }

  lemma PublishIs(s: State, e: Event, v: Version)
    ensures Apply(s, Step.Publish(e, v))
         == if ClockRange(e.processed) && v != "" && v !in s.stamped && !HasEvent(s.rows, e.gatewayId, e.eventId)
            then DoPublish(s, e, v) else s
  {
  }

  lemma CloseGatewayApplies(s: State, id: GatewayId)
    ensures Apply(s, CloseGateway(id))
         == if !s.poll.Handing? && s.stopped && id in s.gateways then DoCloseGateway(s, id) else s
  {
  }

  // -------------------------------------------------------- steps of the poll

  /** The loop has ended, or taken up an event, or handed one to an empty list. */
  ghost predicate Offered(p: Poll, q: Poll) {
    p.Handing? &&
    ((q.HandedOut? && q.id == p.id)
     || (q.Handing? && q.id == p.id && p.rest != [] && if q.todo == [] then q.rest == p.rest[1..] else q.rest == p.rest))
  }

  ghost predicate SentOne(p: Poll, q: Poll) {
    && p.Handing? && q.Handing? && q.id == p.id && p.todo != [] && p.rest != []
    && |q.todo| == |p.todo| - 1 && if q.todo == [] then q.rest == p.rest[1..] else q.rest == p.rest
  }

  lemma OfferApplies(s: State)
    requires s.poll.Handing? && s.poll.todo == [] && s.poll.id in s.gateways
    ensures Apply(s, OfferNext) == DoOffer(s) && Offered(s.poll, DoOffer(s).poll)
  {
    OfferStays(s);
  }

  lemma SendApplies(s: State)
    requires s.poll.Handing? && s.poll.todo != [] && s.poll.rest != [] && s.poll.id in s.gateways
    ensures Apply(s, SendNext) == DoSend(s) && SentOne(s.poll, DoSend(s).poll)
  {
    SendStays(s);
  }

  /** The run goes on: the others act, and then the poll goroutine takes a step. */
  lemma Extended(s0: State, steps: seq<Step>, own: seq<Step>, acts: seq<Step>, step: Step) returns (steps': seq<Step>)
    requires Traced(steps, own) && AllForeign(acts) && PollerStep(step)
    ensures Run(s0, steps') == Apply(Run(Run(s0, steps), acts), step) && Traced(steps', own + [step])
  {
    steps' := steps + acts + [step];
    RunConcat(s0, steps, acts);
    RunThenStep(s0, steps + acts, step);
    TraceOthers(steps, own, acts);
    TraceStep(steps + acts, own, step);
  }

  lemma BeginsWith(s0: State, acts: seq<Step>, step: Step) returns (steps: seq<Step>)
    requires AllForeign(acts) && PollerStep(step)
    ensures Run(s0, steps) == Apply(Run(s0, acts), step) && Traced(steps, [step])
  {
    steps := Extended(s0, [], [], acts, step);
    assert [] + [step] == [step];
  }

  /** The run leads from `s0` to `s`, and the poll goroutine's own steps in it are these and then checks and sends. */
  ghost predicate InLoop(s0: State, s: State, steps: seq<Step>, own: seq<Step>, loop: seq<Step>) {
    s == Run(s0, steps) && Traced(steps, own + loop) && OnlyLoop(loop)
  }

  lemma LoopExtended(s0: State, s: State, steps: seq<Step>, own: seq<Step>, loop: seq<Step>, acts: seq<Step>, step: Step)
    returns (steps': seq<Step>)
    requires InLoop(s0, s, steps, own, loop) && AllForeign(acts) && LoopStep(step)
    ensures InLoop(s0, Apply(Run(s, acts), step), steps', own, loop + [step])
  {
    steps' := Extended(s0, steps, own + loop, acts, step);
    assert own + loop + [step] == own + (loop + [step]);
  }

  lemma SnapshotApplies(s: State, now: int)
    requires s.poll.Idle? && s.page != [] && ClockRange(now)
    ensures Apply(s, Snapshot(now)) == DoSnapshot(s, now)
  {
  }

  lemma FetchApplies(s: State, answer: seq<Event>)
    requires s.poll.Snapped? && IsQueryResult(s.rows, s.poll.id, s.poll.since, answer)
    ensures Apply(s, Fetch(answer)) == DoFetch(s, answer)
  {
  }

  lemma AbortApplies(s: State)
    requires s.poll.Snapped?
    ensures Apply(s, AbortFetch) == s.(poll := Idle)
  {
  }

  lemma WriteBackApplies(s: State)
    requires s.poll.HandedOut? && s.poll.id in s.gateways
    ensures Apply(s, WriteBack) == DoWriteBack(s)
  {
  }

  lemma WholePoll(own: seq<Step>, answer: seq<Event>, loop: seq<Step>) returns (more: seq<Step>)
    requires OnlyLoop(loop)
    ensures PollTail(more) && own + [Fetch(answer)] + [HandOut] + loop + [WriteBack] == own + more
  {
    more := [Fetch(answer)] + [HandOut] + loop + [WriteBack];
  }

  /** Fetch, hand-out with its checks and sends, write-back. */
  ghost predicate PollTail(more: seq<Step>) {
    exists answer, loop :: OnlyLoop(loop) && more == [Fetch(answer)] + [HandOut] + loop + [WriteBack]
  }

  // -------------------------------------------------------- record of a round

  /** A round so far: the run, the poll goroutine's own steps in it, the tables it read and the rows it is done with. */
  datatype RoundTrace = RoundTrace(steps: seq<Step>, own: seq<Step>, tables: seq<Table>, taken: seq<PageRow>)

  /** The run leads from `s0` to `s`, and its steps are those of a round that has `left` of its last page to go. */
  ghost predicate Recorded(s0: State, s: State, t: RoundTrace, left: seq<PageRow>, registered: set<GatewayId>) {
    && s == Run(s0, t.steps) && Traced(t.steps, t.own) && TablesRead(s0, t.steps) == t.tables
    && Tallied(t.own, t.taken, left, registered)
  }

  lemma SkipApplies(s: State)
    requires s.poll.Idle? && s.page != []
    ensures Apply(s, SkipRow) == s.(page := s.page[1..])
  {
  }

  lemma TailIsQuiet(more: seq<Step>)
    requires more == [] || more == [AbortFetch] || PollTail(more)
    ensures forall i | 0 <= i < |more| :: !Marked(more[i])
  {
    if PollTail(more) {
      var answer, loop :| OnlyLoop(loop) && more == [Fetch(answer)] + [HandOut] + loop + [WriteBack];
      forall i | 0 <= i < |more| ensures !Marked(more[i]) {
        if 2 <= i < |more| - 1 { assert more[i] == loop[i - 2] && loop[i - 2] in loop; }
      }
    }
  }

  /** The steps of one poll mark one row as polled ... */
  lemma PollMarks(own: seq<Step>, now: int, more: seq<Step>)
    requires forall i | 0 <= i < |more| :: !Marked(more[i])
    ensures RowsRead(own + ([Snapshot(now)] + more)) == RowsRead(own)
    ensures Marks(own + ([Snapshot(now)] + more)) == Marks(own) + [true]
  {
    MarkStep(own, Snapshot(now));
    MarkQuiet(own + [Snapshot(now)], more);
    assert own + ([Snapshot(now)] + more) == (own + [Snapshot(now)]) + more;
  }

  /** ... and read no page. */
  lemma PollReadsNoPage(first: seq<Step>, more: seq<Step>)
    requires |first| == 1 && first[0].Snapshot? && forall i | 0 <= i < |more| :: !Marked(more[i])
    ensures forall step | step in first + more :: !step.ReadPage?
  {
    forall step | step in first + more ensures !step.ReadPage? {
      if step in more {
        var i :| 0 <= i < |more| && more[i] == step;
        assert !Marked(more[i]);
      }
    }
  }

  lemma NoPageRead(steps: seq<Step>, own: seq<Step>)
    requires Traced(steps, own) && forall step | step in own :: !step.ReadPage?
    ensures forall step | step in steps :: !step.ReadPage?
  {
    forall step | step in steps ensures !step.ReadPage? {
      if PollerStep(step) { OwnContains(steps, step); }
    }
  }

  lemma RecordOthers(s0: State, t: RoundTrace, registered: set<GatewayId>, acts: seq<Step>) returns (t': RoundTrace)
    requires Recorded(s0, Run(s0, t.steps), t, [], registered) && AllForeign(acts)
    ensures Recorded(s0, Run(Run(s0, t.steps), acts), t', [], registered) && t'.tables == t.tables && t'.taken == t.taken
  {
    t' := t.(steps := t.steps + acts);
    RunConcat(s0, t.steps, acts);
    TraceOthers(t.steps, t.own, acts);
    OthersReadNoPage(acts);
    TablesQuiet(s0, t.steps, acts);
  }

  lemma OthersReadNoPage(acts: seq<Step>)
    requires AllForeign(acts)
    ensures forall act | act in acts :: !act.ReadPage?
  {
  }

  lemma RecordPage(s0: State, s: State, t: RoundTrace, registered: set<GatewayId>, rows: seq<PageRow>) returns (t': RoundTrace)
    requires Recorded(s0, s, t, [], registered)
    ensures Recorded(s0, Apply(s, ReadPage(rows)), t', rows, registered)
    ensures t'.tables == t.tables + [s.versions] && t'.taken == t.taken
  {
    var step := ReadPage(rows);
    t' := t.(steps := t.steps + [step], own := t.own + [step], tables := t.tables + [s.versions]);
    RunThenStep(s0, t.steps, step);
    TraceStep(t.steps, t.own, step);
    TablesStep(s0, t.steps, step);
    MarkStep(t.own, step);
    assert t.taken + [] == t.taken;
  }

  lemma RecordSkipped(s0: State, s: State, t: RoundTrace, left: seq<PageRow>, registered: set<GatewayId>)
    returns (t': RoundTrace)
    requires Recorded(s0, s, t, left, registered) && left != [] && left[0].id !in registered
    ensures Recorded(s0, Apply(s, SkipRow), t', left[1..], registered)
    ensures t'.tables == t.tables && t'.taken == t.taken + [left[0]]
  {
    t' := t.(steps := t.steps + [SkipRow], own := t.own + [SkipRow], taken := t.taken + [left[0]]);
    RunThenStep(s0, t.steps, SkipRow);
    TraceStep(t.steps, t.own, SkipRow);
    TablesStep(s0, t.steps, SkipRow);
    MarkStep(t.own, SkipRow);
    OneMoreTaken(registered, t.taken, left);
  }

  lemma RecordPolled(s0: State, s: State, t: RoundTrace, left: seq<PageRow>, registered: set<GatewayId>,
                     s': State, steps: seq<Step>, now: int, more: seq<Step>) returns (t': RoundTrace)
    requires Recorded(s0, s, t, left, registered) && left != [] && left[0].id in registered
    requires s' == Run(s, steps) && Traced(steps, [Snapshot(now)] + more)
    requires more == [] || more == [AbortFetch] || PollTail(more)
    ensures Recorded(s0, s', t', left[1..], registered)
    ensures t'.tables == t.tables && t'.taken == t.taken + [left[0]]
  {
    var own := [Snapshot(now)] + more;
    t' := t.(steps := t.steps + steps, own := t.own + own, taken := t.taken + [left[0]]);
    TailIsQuiet(more);
    PollMarks(t.own, now, more);
    PollReadsNoPage([Snapshot(now)], more);
    NoPageRead(steps, own);
    RunConcat(s0, t.steps, steps);
    TraceConcat(t.steps, t.own, steps, own);
    TablesQuiet(s0, t.steps, steps);
    OneMoreTaken(registered, t.taken, left);
  }

  /** The rows read are those taken and those left, and of those taken exactly the registered ones were polled. */
  ghost predicate Tallied(own: seq<Step>, taken: seq<PageRow>, left: seq<PageRow>, registered: set<GatewayId>) {
    RowsRead(own) == taken + left && Marks(own) == Registered(registered, taken)
  }

  lemma OneMoreTaken(registered: set<GatewayId>, taken: seq<PageRow>, left: seq<PageRow>)
    requires left != []
    ensures taken + left == (taken + [left[0]]) + left[1..]
    ensures Registered(registered, taken + [left[0]]) == Registered(registered, taken) + [left[0].id in registered]
  {
  }

  lemma RecordNothing(s0: State, less: Order, registered: set<GatewayId>)
    ensures var t := RoundTrace([], [], [], []);
      Recorded(s0, s0, t, [], registered) && InOrder(less, t) && UpTo(less, "", t)
  {
  }

  /** Ids in order, none twice and none empty, and versions read in this round. */
  ghost predicate InOrder(less: Order, t: RoundTrace) {
    Increasing(less, t.taken) && ReadInRound(t.tables, t.taken) && forall r | r in t.taken :: less("", r.id)
  }

  /** Where the next page of a round starts. */
  ghost function LastId(taken: seq<PageRow>): GatewayId {
    if taken == [] then "" else taken[|taken| - 1].id
  }

  /** The round is complete up to the cursor, its last visited id. */
  ghost predicate UpTo(less: Order, cursor: GatewayId, t: RoundTrace) {
    RoundOk(less, t.tables, cursor, t.taken) && cursor == LastId(t.taken)
  }

  /** The read at the last pause, of the rows after the last visited one, has failed. */
  ghost predicate FailedRead(query: PageQuery, tick: nat, table: Table, t: RoundTrace) {
    tick > 0 && query(tick - 1, table, LastId(t.taken)).QueryError?
  }

  lemma Shift(taken: seq<PageRow>, page: seq<PageRow>)
    requires page != []
    ensures (taken + [page[0]]) + page[1..] == taken + page
  {
  }

  /** How far one more page brings a round. */
  ghost predicate Went(less: Order, limit: nat, ids: set<GatewayId>, cursor: GatewayId, t: RoundTrace, reply: Reply,
                       t': RoundTrace) {
    && InOrder(less, t')
    && (reply.Rows? && |reply.rows| < limit ==> AllVisited(less, t'.tables, t'.taken))
    && (reply.Rows? && |reply.rows| >= limit > 0 ==>
          && UpTo(less, reply.rows[|reply.rows| - 1].id, t')
          && Ahead(less, ids, reply.rows[|reply.rows| - 1].id) < Ahead(less, ids, cursor))
  }

  lemma NoPageWent(less: Order, limit: nat, ids: set<GatewayId>, cursor: GatewayId, t: RoundTrace, t': RoundTrace)
    requires UpTo(less, cursor, t) && t'.tables == t.tables && t'.taken == t.taken
    ensures Went(less, limit, ids, cursor, t, QueryError, t')
  {
  }

  lemma PageWent(less: Order, limit: nat, ids: set<GatewayId>, table: Table, cursor: GatewayId, t: RoundTrace,
                 rows: seq<PageRow>, t': RoundTrace)
    requires StrictTotal(less) && limit > 0 && IsPage(less, table, cursor, limit, rows) && table.Keys <= ids
    requires UpTo(less, cursor, t)
    requires t'.tables == t.tables + [table] && t'.taken == t.taken + rows
    ensures Went(less, limit, ids, cursor, t, Rows(rows), t')
  {
    if rows == [] {
      EmptyPageCompletes(less, t.tables, limit, table, cursor, t.taken);
      assert t.taken + rows == t.taken;
    } else {
      PageExtends(less, t.tables, limit, table, cursor, t.taken, rows);
      Advances(less, ids, cursor, rows[|rows| - 1].id);
    }
  }
}
