// Runs from an empty database that lose an event. In the first the only subscriber
// leaves between fetch and hand-out; in the second a row is committed behind the
// cursor; in the others it is committed behind a batch in flight, at the cursor or
// before there is one.
module HubLossExample {
  import opened Timestamps
  import opened HubModel
  import opened HubRuns
  import opened HubInvariant
  import opened HubDelivery
  import opened HubLateCommits
  import opened HubWindows

  /** The run is one that satisfies the predicate at every step and ends in `s`. */
  ghost predicate Reaches(s0: State, steps: seq<Step>, p: (State, Step) -> bool, s: State) {
    Throughout(s0, steps, p) && Run(s0, steps) == s
  }

  lemma Extend(s0: State, steps: seq<Step>, p: (State, Step) -> bool, s: State, step: Step, s': State)
    returns (more: seq<Step>)
    requires Reaches(s0, steps, p, s) && p(s, step) && Apply(s, step) == s'
    ensures Reaches(s0, more, p, s')
  {
    more := steps + [step];
    assert [step][1..] == [];
    assert Run(s', []) == s';
    assert Run(s, [step]) == s';
    RunConcat(s0, steps, [step]);
    ThroughoutConcat(s0, steps, [step], p);
  }

  const T0 := NANOS_THRESHOLD + 1
  const G := "gateway"
  const NOW := T0 + 3
  const DATA := Payload(0, "API", "CREATE", "", "{}")
  const MIDDLE := Event(G, T0 + 1, "middle", DATA)
  const EARLY := Event(G, T0, "early", DATA)
  const FIRST := Event(G, T0 + 1, "first", DATA)
  const SECOND := Event(G, T0 + 2, "second", DATA)

  /** Rows are later than what was cleaned and in commit order; only attendance is not asked for. */
  ghost predicate Clocked(s: State, step: Step) {
    AfterCleanup(s, step) && CommitOrder(s, step)
  }

  // The first poll establishes the cursor at FIRST.

  const EMPTY := State(map[], {}, map[], map[], {}, [], Idle, false, false, {}, {}, [], map[])
  const INSERTED := EMPTY.(versions := map[G := ""])
  const REGISTERED := INSERTED.(gateways := map[G := Gateway([], "", 0)])
  const SUBSCRIBED := REGISTERED.(gateways := map[G := Gateway([0], "", 0)], channels := map[0 := Channel(G, [], [], false)])
  const PUBLISHED := SUBSCRIBED.(versions := map[G := "v1"], rows := {FIRST}, committed := {FIRST}, stamped := {"v1"})
  const PAGED := PUBLISHED.(page := [PageRow(G, "v1")])
  const SNAPPED := PUBLISHED.(poll := Snapped(G, "v1", NOW - SKEW_WINDOW, false))
  const FETCHED := PUBLISHED.(poll := Fetched(G, "v1", NOW - SKEW_WINDOW, false, [FIRST]))
  const HANDING := PUBLISHED.(poll := Handing(G, "v1", NOW - SKEW_WINDOW, false, [], [FIRST], []))
  const OFFERED := PUBLISHED.(poll := Handing(G, "v1", NOW - SKEW_WINDOW, false, [], [FIRST], [0]))
  const SENT := PUBLISHED.(
    channels := map[0 := Channel(G, [FIRST], [FIRST], false)], log := [Delivery(FIRST, [0])],
    poll := Handing(G, "v1", NOW - SKEW_WINDOW, false, [FIRST], [], []))
  const HANDED := PUBLISHED.(
    channels := map[0 := Channel(G, [FIRST], [FIRST], false)], log := [Delivery(FIRST, [0])],
    poll := HandedOut(G, "v1", NOW - SKEW_WINDOW, false, [FIRST], false))
  const ESTABLISHED := HANDED.(
    gateways := map[G := Gateway([0], "v1", T0 + 1)], origin := map[G := NOW - SKEW_WINDOW], poll := Idle)

  lemma FirstSteps()
    ensures Apply(EMPTY, InsertGateway(G)) == INSERTED
    ensures Apply(INSERTED, RegisterLocal(G)) == REGISTERED
    ensures Apply(REGISTERED, Subscribe(G, 0)) == SUBSCRIBED
  {
    var s := Apply(REGISTERED, Subscribe(G, 0));
    assert REGISTERED.gateways[G].subscribers + [0] == [0];
    assert s.gateways == SUBSCRIBED.gateways;
    assert s.channels == SUBSCRIBED.channels;
    assert Apply(INSERTED, RegisterLocal(G)).gateways == REGISTERED.gateways;
    assert Apply(EMPTY, InsertGateway(G)).versions == INSERTED.versions;
  }

  lemma FirstPublish()
    ensures Apply(SUBSCRIBED, Publish(FIRST, "v1")) == PUBLISHED
  {
    assert Apply(SUBSCRIBED, Publish(FIRST, "v1")).versions == PUBLISHED.versions;
  }

  lemma FirstSnapshot()
    ensures Apply(PUBLISHED, ReadPage([PageRow(G, "v1")])) == PAGED
    ensures Apply(PAGED, Snapshot(NOW)) == SNAPPED
  {
    assert PAGED.page[1..] == [];
  }

  lemma FirstFetch()
    ensures Apply(SNAPPED, Fetch([FIRST])) == FETCHED
  {
    assert IsQueryResult(SNAPPED.rows, G, SNAPPED.poll.since, [FIRST]);
  }

  lemma FirstLock()
    ensures Apply(FETCHED, HandOut) == HANDING
  {
  }

  lemma FirstOffer()
    ensures Apply(HANDING, OfferNext) == OFFERED
  {
    assert ChannelsAvailable(HANDING.channels, [0]);
  }

  lemma FirstSend()
    ensures Apply(OFFERED, SendNext) == SENT
  {
    var channels := OFFERED.channels;
    assert Append(channels[0], [FIRST]) == SENT.channels[0];
    assert Send(channels, 0, FIRST) == Sends(SENT.channels, false);
    assert [FIRST][1..] == [] && [] + [FIRST] == [FIRST];
    assert [] + [Delivery(FIRST, [0])] == [Delivery(FIRST, [0])];
  }

  lemma FirstEnd()
    ensures Apply(SENT, OfferNext) == HANDED
  {
  }

  lemma FirstWriteBack()
    ensures Apply(HANDED, WriteBack) == ESTABLISHED
  {
    assert Apply(HANDED, WriteBack).gateways == ESTABLISHED.gateways;
    assert Apply(HANDED, WriteBack).origin == ESTABLISHED.origin;
  }

  lemma EstablishPublished(p: (State, Step) -> bool) returns (steps: seq<Step>)
    requires forall s, step | Orderly(s, step) :: p(s, step)
    ensures Reaches(EMPTY, steps, p, PUBLISHED)
  {
    steps := [];
    assert Reaches(EMPTY, steps, p, EMPTY);
    FirstSteps();
    steps := Extend(EMPTY, steps, p, EMPTY, InsertGateway(G), INSERTED);
    steps := Extend(EMPTY, steps, p, INSERTED, RegisterLocal(G), REGISTERED);
    steps := Extend(EMPTY, steps, p, REGISTERED, Subscribe(G, 0), SUBSCRIBED);
    FirstPublish();
    assert Orderly(SUBSCRIBED, Publish(FIRST, "v1"));
    steps := Extend(EMPTY, steps, p, SUBSCRIBED, Publish(FIRST, "v1"), PUBLISHED);
  }

  lemma EstablishFetched(p: (State, Step) -> bool) returns (steps: seq<Step>)
    requires forall s, step | Orderly(s, step) :: p(s, step)
    ensures Reaches(EMPTY, steps, p, FETCHED)
  {
    steps := EstablishPublished(p);
    FirstSnapshot();
    steps := Extend(EMPTY, steps, p, PUBLISHED, ReadPage([PageRow(G, "v1")]), PAGED);
    steps := Extend(EMPTY, steps, p, PAGED, Snapshot(NOW), SNAPPED);
    FirstFetch();
    steps := Extend(EMPTY, steps, p, SNAPPED, Fetch([FIRST]), FETCHED);
  }

  lemma Establish(p: (State, Step) -> bool) returns (steps: seq<Step>)
    requires forall s, step | Orderly(s, step) :: p(s, step)
    ensures Reaches(EMPTY, steps, p, ESTABLISHED)
  {
    steps := EstablishFetched(p);
    FirstLock();
    assert Orderly(FETCHED, HandOut);
    steps := Extend(EMPTY, steps, p, FETCHED, HandOut, HANDING);
    FirstOffer();
    steps := Extend(EMPTY, steps, p, HANDING, OfferNext, OFFERED);
    FirstSend();
    steps := Extend(EMPTY, steps, p, OFFERED, SendNext, SENT);
    FirstEnd();
    steps := Extend(EMPTY, steps, p, SENT, OfferNext, HANDED);
    FirstWriteBack();
    steps := Extend(EMPTY, steps, p, HANDED, WriteBack, ESTABLISHED);
  }

  // The second poll: SECOND is fetched, the subscriber leaves, nobody is there at the hand-out.

  const PUBLISHED2 := ESTABLISHED.(
    versions := map[G := "v2"], rows := {FIRST, SECOND}, committed := {FIRST, SECOND}, stamped := {"v1", "v2"})
  const PAGED2 := PUBLISHED2.(page := [PageRow(G, "v2")])
  const SNAPPED2 := PUBLISHED2.(poll := Snapped(G, "v2", T0 + 1, true))
  const FETCHED2 := PUBLISHED2.(poll := Fetched(G, "v2", T0 + 1, true, [SECOND]))
  const ALONE := FETCHED2.(gateways := map[G := Gateway([], "", T0 + 1)], detached := {0})
  const HANDING2 := ALONE.(poll := Handing(G, "v2", T0 + 1, true, [], [SECOND], []))
  const PASSED2 := ALONE.(
    log := [Delivery(FIRST, [0]), Delivery(SECOND, [])], poll := Handing(G, "v2", T0 + 1, true, [SECOND], [], []))
  const HANDED2 := ALONE.(
    log := [Delivery(FIRST, [0]), Delivery(SECOND, [])], poll := HandedOut(G, "v2", T0 + 1, true, [SECOND], false))
  const LOST := HANDED2.(gateways := map[G := Gateway([], "v2", T0 + 2)], poll := Idle)

  lemma SecondPublish()
    ensures Apply(ESTABLISHED, Publish(SECOND, "v2")) == PUBLISHED2
  {
    assert Apply(ESTABLISHED, Publish(SECOND, "v2")).versions == PUBLISHED2.versions;
  }

  lemma SecondPage()
    ensures Apply(PUBLISHED2, ReadPage([PageRow(G, "v2")])) == PAGED2
  {
  }

  lemma SecondSnapshot()
    ensures Apply(PAGED2, Snapshot(NOW)) == SNAPPED2
  {
    assert PAGED2.page[1..] == [];
    assert WindowStart(PAGED2.gateways[G], NOW) == T0 + 1;
  }

  lemma SecondFetch()
    ensures Apply(SNAPPED2, Fetch([FIRST, SECOND])) == FETCHED2
  {
    assert IsQueryResult(SNAPPED2.rows, G, SNAPPED2.poll.since, [FIRST, SECOND]);
    assert [FIRST, SECOND][1..] == [SECOND];
  }

  lemma SubscriberLeaves()
    ensures Apply(FETCHED2, Unsubscribe(G, 0)) == ALONE
  {
    assert SwapRemove([0], 0) == [];
    assert Apply(FETCHED2, Unsubscribe(G, 0)).gateways == ALONE.gateways;
  }

  lemma SecondLock()
    ensures Apply(ALONE, HandOut) == HANDING2
  {
  }

  lemma SecondPass()
    ensures Apply(HANDING2, OfferNext) == PASSED2
  {
    assert [SECOND][1..] == [] && [] + [SECOND] == [SECOND];
    assert [Delivery(FIRST, [0])] + [Delivery(SECOND, [])] == [Delivery(FIRST, [0]), Delivery(SECOND, [])];
  }

  lemma SecondEnd()
    ensures Apply(PASSED2, OfferNext) == HANDED2
  {
  }

  lemma SecondWriteBack()
    ensures Apply(HANDED2, WriteBack) == LOST
  {
    assert Apply(HANDED2, WriteBack).gateways == LOST.gateways;
  }

  /** The second poll has fetched SECOND, in a run in commit order. */
  lemma ReachFetched2(p: (State, Step) -> bool) returns (steps: seq<Step>)
    requires forall s, step | Orderly(s, step) :: p(s, step)
    ensures Reaches(EMPTY, steps, p, FETCHED2)
  {
    steps := Establish(p);
    SecondPublish();
    assert Orderly(ESTABLISHED, Publish(SECOND, "v2"));
    steps := Extend(EMPTY, steps, p, ESTABLISHED, Publish(SECOND, "v2"), PUBLISHED2);
    SecondPage();
    steps := Extend(EMPTY, steps, p, PUBLISHED2, ReadPage([PageRow(G, "v2")]), PAGED2);
    SecondSnapshot();
    steps := Extend(EMPTY, steps, p, PAGED2, Snapshot(NOW), SNAPPED2);
    SecondFetch();
    steps := Extend(EMPTY, steps, p, SNAPPED2, Fetch([FIRST, SECOND]), FETCHED2);
  }

  lemma ReachLost() returns (steps: seq<Step>)
    ensures Reaches(EMPTY, steps, Clocked, LOST)
  {
    steps := ReachFetched2(Clocked);
    SubscriberLeaves();
    steps := Extend(EMPTY, steps, Clocked, FETCHED2, Unsubscribe(G, 0), ALONE);
    SecondLock();
    steps := Extend(EMPTY, steps, Clocked, ALONE, HandOut, HANDING2);
    SecondPass();
    steps := Extend(EMPTY, steps, Clocked, HANDING2, OfferNext, PASSED2);
    SecondEnd();
    steps := Extend(EMPTY, steps, Clocked, PASSED2, OfferNext, HANDED2);
    SecondWriteBack();
    steps := Extend(EMPTY, steps, Clocked, HANDED2, WriteBack, LOST);
  }

  lemma SecondIsLost()
    ensures G in LOST.origin && SECOND.processed >= LOST.origin[G] && !Accounted(LOST, SECOND)
  {
    assert forall d | d in LOST.log && d.receivers != [] :: d == Delivery(FIRST, [0]);
  }

  /** Without attendance: the run below keeps the commit order and the cleanup rule, yet its last state has
      lost an event: it is retained, nobody received it, and the next poll will trim it. */
  lemma UnattendedRunLosesAnEvent() returns (steps: seq<Step>)
    ensures Initial(EMPTY) && Throughout(EMPTY, steps, Clocked)
    ensures var s := Run(EMPTY, steps);
      && SECOND in s.committed && G in s.gateways && G in s.origin && SECOND.processed >= s.origin[G]
      && !Accounted(s, SECOND)
  {
    steps := ReachLost();
    SecondIsLost();
  }

  // A row committed behind the established cursor.

  const LATE := ESTABLISHED.(
    versions := map[G := "v2"], rows := {FIRST, EARLY}, committed := {FIRST, EARLY}, stamped := {"v1", "v2"})

  lemma LatePublish()
    ensures Apply(ESTABLISHED, Publish(EARLY, "v2")) == LATE
  {
    assert Apply(ESTABLISHED, Publish(EARLY, "v2")).versions == LATE.versions;
  }

  /** Without commit order: a row stamped before the cursor and committed after it is lost at once. */
  lemma LateCommitLosesAnEvent() returns (steps: seq<Step>)
    ensures Initial(EMPTY) && Throughout(EMPTY, steps, Served)
    ensures var s := Run(EMPTY, steps);
      && EARLY in s.committed && G in s.gateways && G in s.origin && EARLY.processed >= s.origin[G]
      && !Accounted(s, EARLY)
  {
    steps := Establish(Served);
    LatePublish();
    steps := Extend(EMPTY, steps, Served, ESTABLISHED, Publish(EARLY, "v2"), LATE);
  }

  // A row committed while a later row is in flight.

  lemma ReachedOk(s: State, steps: seq<Step>)
    requires Reaches(EMPTY, steps, Served, s)
    ensures Inv(s) && WakeInv(s)
  {
    InitialInv(EMPTY);
    InitialWakeInv(EMPTY);
    ServedIsClean(EMPTY, steps);
    RunKeepsWake(EMPTY, steps);
  }

  lemma CommitThenLose(s: State, before: seq<Step>, e: Event, v: Version) returns (steps: seq<Step>)
    requires Reaches(EMPTY, before, Served, s) && LateCommit(s, e, v)
    requires Window(s.gateways, s.origin, s.poll, e.gatewayId) <= e.processed < Horizon(s.gateways, s.poll, e.gatewayId)
    ensures Throughout(EMPTY, steps, Served) && Covered(Run(EMPTY, steps), e) && !Accounted(Run(EMPTY, steps), e)
  {
    var t := DoPublish(s, e, v);
    var after := BehindIsLost(s, e, v);
    StepKeepsInv(s, Publish(e, v));
    LostIsCovered(t, after, e);
    LosesAfter(s, Publish(e, v), t, after, e);
    LosesVia(EMPTY, before, [Publish(e, v)] + after, e);
    steps := before + ([Publish(e, v)] + after);
    SameEnd(EMPTY, before, s, Publish(e, v), t, after);
  }

  lemma SameEnd(s0: State, before: seq<Step>, s: State, step: Step, t: State, after: seq<Step>)
    requires Run(s0, before) == s && Apply(s, step) == t
    ensures Run(s0, before + ([step] + after)) == Run(t, after)
  {
    RunConcat(s0, before, [step] + after);
    RunOne(s, step);
    RunConcat(s, [step], after);
  }

  lemma MiddleIsLate()
    requires Inv(FETCHED2) && WakeInv(FETCHED2)
    ensures LateCommit(FETCHED2, MIDDLE, "v3")
  {
    MiddleIsBetween();
    assert Enabled(FETCHED2, Publish(MIDDLE, "v3"));
  }

  lemma MiddleIsBetween()
    ensures Started(FETCHED2.gateways, FETCHED2.poll, G) && MIDDLE.processed >= FETCHED2.gateways[G].lastPolled
    ensures Window(FETCHED2.gateways, FETCHED2.origin, FETCHED2.poll, G) <= MIDDLE.processed
    ensures MIDDLE.processed < Horizon(FETCHED2.gateways, FETCHED2.poll, G)
  {
  }

  /** Not before the cursor is not enough: with a later batch in flight the row is passed, in an attended run. */
  lemma InFlightCommitLosesAnEvent() returns (steps: seq<Step>)
    ensures Initial(EMPTY) && Throughout(EMPTY, steps, Served)
    ensures var s := Run(EMPTY, steps); Covered(s, MIDDLE) && !Accounted(s, MIDDLE)
  {
    var before := ReachFetched2(Served);
    ReachedOk(FETCHED2, before);
    MiddleIsLate();
    MiddleIsBetween();
    steps := CommitThenLose(FETCHED2, before, MIDDLE, "v3");
  }

  lemma EarlyIsLate()
    requires Inv(FETCHED) && WakeInv(FETCHED)
    ensures FETCHED.gateways[G].lastPolled == 0 && LateCommit(FETCHED, EARLY, "v2")
    ensures Window(FETCHED.gateways, FETCHED.origin, FETCHED.poll, G) <= EARLY.processed
    ensures EARLY.processed < Horizon(FETCHED.gateways, FETCHED.poll, G)
  {
  }

  /** Nor does it need a cursor: the first poll of a gateway passes a row that commits behind its batch. */
  lemma FirstPollCommitLosesAnEvent() returns (steps: seq<Step>)
    ensures Initial(EMPTY) && Throughout(EMPTY, steps, Served)
    ensures var s := Run(EMPTY, steps); Covered(s, EARLY) && !Accounted(s, EARLY)
  {
    var before := EstablishFetched(Served);
    ReachedOk(FETCHED, before);
    EarlyIsLate();
    steps := CommitThenLose(FETCHED, before, EARLY, "v2");
  }

  lemma {:induction false} ServedIsClean(s: State, steps: seq<Step>)
    requires Throughout(s, steps, Served)
    ensures Throughout(s, steps, AfterCleanup)
    decreases |steps|
  {
    if steps != [] { ServedIsClean(Apply(s, steps[0]), steps[1..]); }
  }
}
