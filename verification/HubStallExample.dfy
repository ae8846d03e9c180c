// A gateway can come to stall: a run from the empty database, in commit order and with
// every hand-out attended, in which a hundred rows share one timestamp, all of them go
// out, and a later row is published.
module HubStallExample {
  import opened HubModel
  import opened HubInvariant
  import opened HubDelivery
  import opened HubHandOuts
  import opened HubRuns
  import opened HubProgress
  import opened HubLossExample

  function Name(c: char, i: nat): string {
    [c] + seq(i, _ => 'x')
  }

  /** The i-th row at the second timestamp, and the version it stamps. */
  function Row(i: nat): Event {
    Event(G, T0 + 2, Name('r', i), DATA)
  }

  function Stamp(i: nat): Version {
    Name('w', i)
  }

  function Rows(n: nat): set<Event> {
    set i | 0 <= i < n :: Row(i)
  }

  function Stamps(n: nat): set<Version> {
    set i | 0 <= i < n :: Stamp(i)
  }

  const LATER := Event(G, T0 + 3, "later", DATA)

  lemma NamesDiffer(c: char, i: nat, j: nat)
    ensures Name(c, i) == Name(c, j) <==> i == j
  {
    assert |Name(c, i)| == i + 1 && |Name(c, j)| == j + 1;
  }

  lemma {:induction false} RowsCount(n: nat)
    ensures |Rows(n)| == n
  {
    if n > 0 {
      RowsCount(n - 1);
      forall i | 0 <= i < n - 1 ensures Row(i) != Row(n - 1) {
        NamesDiffer('r', i, n - 1);
      }
      assert Rows(n) == Rows(n - 1) + {Row(n - 1)};
    }
  }

  /** After n of the rows. */
  function After(n: nat): State {
    ESTABLISHED.(versions := map[G := if n == 0 then "v1" else Stamp(n - 1)], rows := {FIRST} + Rows(n),
                 committed := {FIRST} + Rows(n), stamped := {"v1"} + Stamps(n))
  }

  lemma NewNames(n: nat)
    ensures forall i | 0 <= i < n :: Stamp(i) != Stamp(n) && Row(i).eventId != Row(n).eventId
    ensures Stamp(n) != "" && Stamp(n) != "v1" && Row(n).eventId != FIRST.eventId
  {
    forall i | 0 <= i < n ensures Stamp(i) != Stamp(n) && Row(i).eventId != Row(n).eventId {
      NamesDiffer('w', i, n);
      NamesDiffer('r', i, n);
    }
    assert Stamp(n)[0] == 'w' && Row(n).eventId[0] == 'r' && "v1"[0] == 'v' && FIRST.eventId[0] == 'f';
  }

  lemma NextRow(n: nat)
    ensures Enabled(After(n), Publish(Row(n), Stamp(n))) && Orderly(After(n), Publish(Row(n), Stamp(n)))
    ensures Apply(After(n), Publish(Row(n), Stamp(n))) == After(n + 1)
  {
    NewNames(n);
    OneMore(n);
    assert After(n).versions[G := Stamp(n)] == After(n + 1).versions;
  }

  lemma OneMore(n: nat)
    ensures {FIRST} + Rows(n + 1) == ({FIRST} + Rows(n)) + {Row(n)}
    ensures {"v1"} + Stamps(n + 1) == ({"v1"} + Stamps(n)) + {Stamp(n)}
  {
    assert Rows(n + 1) == Rows(n) + {Row(n)} && Stamps(n + 1) == Stamps(n) + {Stamp(n)};
  }

  lemma NoRowYet()
    ensures After(0) == ESTABLISHED
  {
    assert Rows(0) == {} && Stamps(0) == {};
    assert After(0).versions == ESTABLISHED.versions;
  }

  lemma ReachFirst() returns (steps: seq<Step>)
    ensures Reaches(EMPTY, steps, Orderly, After(0))
  {
    steps := Establish(Orderly);
    NoRowYet();
  }

  lemma ReachNext(steps: seq<Step>, n: nat) returns (more: seq<Step>)
    requires Reaches(EMPTY, steps, Orderly, After(n))
    ensures Reaches(EMPTY, more, Orderly, After(n + 1))
  {
    NextRow(n);
    more := Extend(EMPTY, steps, Orderly, After(n), Publish(Row(n), Stamp(n)), After(n + 1));
  }

  lemma {:induction false} ReachRows(n: nat) returns (steps: seq<Step>)
    ensures Reaches(EMPTY, steps, Orderly, After(n))
  {
    if n == 0 {
      steps := ReachFirst();
    } else {
      steps := ReachRows(n - 1);
      steps := ReachNext(steps, n - 1);
    }
  }

  // The consumer takes FIRST, and one round hands the rows out.

  const N := CHANNEL_CAPACITY

  ghost function Full(): State {
    After(N).(channels := map[0 := Channel(G, [], [FIRST], false)])
  }

  lemma ReachFull() returns (steps: seq<Step>)
    ensures Reaches(EMPTY, steps, Orderly, Full())
  {
    steps := ReachRows(N);
    assert [FIRST][1..] == [];
    assert Apply(After(N), Receive(0)).channels == Full().channels;
    steps := Extend(EMPTY, steps, Orderly, After(N), Receive(0), Full());
  }

  lemma {:induction false} OrderlyIsClean(s: State, steps: seq<Step>)
    requires Throughout(s, steps, Orderly)
    ensures Throughout(s, steps, AfterCleanup)
    decreases |steps|
  {
    if steps != [] { OrderlyIsClean(Apply(s, steps[0]), steps[1..]); }
  }

  lemma FullIsInvariant(steps: seq<Step>)
    requires Reaches(EMPTY, steps, Orderly, Full())
    ensures Inv(Full()) && WakeInv(Full())
  {
    InitialInv(EMPTY);
    InitialWakeInv(EMPTY);
    OrderlyIsClean(EMPTY, steps);
    RunKeepsWake(EMPTY, steps);
  }

  lemma FullIsReady(steps: seq<Step>)
    requires Reaches(EMPTY, steps, Orderly, Full())
    ensures Ready(Full(), G) && Drained(Full(), G) && !CaughtUp(Full(), G)
  {
    FullIsInvariant(steps);
    NewNames(N - 1);
  }

  lemma FullFacts()
    ensures Handed(Full().log) == {FIRST} && Full().gateways[G].lastPolled == T0 + 1
    ensures Group(Full().rows, G, T0 + 2) == Rows(N) && Undelivered(Full(), G) == Rows(N)
  {
    assert Full().log == [Delivery(FIRST, [0])];
    forall e | e in Rows(N) ensures e in Undelivered(Full(), G) { assert e != FIRST; }
  }

  /** At most one row of the gateway has the timestamp. */
  ghost predicate AloneAt(rows: set<Event>, g: GatewayId, t: int) {
    forall e, f | e in Group(rows, g, t) && f in Group(rows, g, t) :: e == f
  }

  /** The other rows share one later timestamp and fit a channel. */
  ghost predicate OneGroupAhead(s: State, g: GatewayId, t: int)
    requires g in s.gateways
  {
    && Undelivered(s, g) == Group(s.rows, g, t) && Undelivered(s, g) != {} && |Undelivered(s, g)| <= CHANNEL_CAPACITY
    && AloneAt(s.rows, g, s.gateways[g].lastPolled)
  }

  /** The row at the cursor is alone there, so it is not in the batch. */
  lemma IsNew(f: State, e: Event)
    requires Inv(f) && f.poll.Fetched? && (forall b | b in f.poll.batch :: b in f.rows && b.gatewayId == f.poll.id)
    requires AloneAt(f.rows, f.poll.id, f.gateways[f.poll.id].lastPolled) && e in f.poll.batch
    ensures e !in Handed(f.log)
  {
    if e in Handed(f.log) {
      RedeliveryOnlyAtBoundary(f, e);
      var x :| x in f.poll.batch && x != e && x.gatewayId == e.gatewayId && x.processed == e.processed;
      NotAlone(f.rows, f.poll.id, f.gateways[f.poll.id].lastPolled, e, x);
      assert false;
    }
  }

  lemma NotAlone(rows: set<Event>, g: GatewayId, t: int, e: Event, x: Event)
    requires e in rows && x in rows && e.gatewayId == g && x.gatewayId == g && e.processed == t && x.processed == t && x != e
    ensures !AloneAt(rows, g, t)
  {
    assert e in Group(rows, g, t) && x in Group(rows, g, t);
  }

  lemma BatchIsNew(f: State)
    requires Inv(f) && f.poll.Fetched? && (forall b | b in f.poll.batch :: b in f.rows && b.gatewayId == f.poll.id)
    requires AloneAt(f.rows, f.poll.id, f.gateways[f.poll.id].lastPolled)
    ensures NoDup(f.poll.batch) && forall e | e in f.poll.batch :: e !in Handed(f.log)
  {
    forall e | e in f.poll.batch ensures e !in Handed(f.log) { IsNew(f, e); }
  }

  /** A batch that fits a channel and ends at the timestamp. */
  ghost predicate SmallBatch(batch: seq<Event>, t: int) {
    batch != [] && |batch| <= CHANNEL_CAPACITY && batch[|batch| - 1].processed == t
  }

  lemma BatchIsGroup(batch: seq<Event>, rows: set<Event>, g: GatewayId, t: int)
    requires NoDup(batch) && (forall e :: e in batch <==> e in Group(rows, g, t))
    requires Group(rows, g, t) != {} && |Group(rows, g, t)| <= CHANNEL_CAPACITY
    ensures SmallBatch(batch, t)
  {
    DistinctCount(batch, Group(rows, g, t));
    var e :| e in Group(rows, g, t);
    assert e in batch && batch[|batch| - 1] in batch;
  }

  lemma NewBatchIsGroup(s: State, g: GatewayId, t: int, batch: seq<Event>)
    requires g in s.gateways && OneGroupAhead(s, g, t) && NoDup(batch)
    requires forall b | b in batch :: b in s.rows && b.gatewayId == g && b.processed >= s.gateways[g].lastPolled
    requires forall b | b in batch :: b !in Handed(s.log)
    requires forall r | r in Undelivered(s, g) :: r in batch
    ensures SmallBatch(batch, t)
  {
    forall b | b in batch ensures b in Undelivered(s, g) {}
    BatchIsGroup(batch, s.rows, g, t);
  }

  lemma FetchedGroup(s: State, g: GatewayId, t: int, now: int, result: seq<Event>)
    requires Ready(s, g) && !CaughtUp(s, g) && RoundInput(s, g, now, result) && OneGroupAhead(s, g, t)
    ensures SmallBatch(AtFetch(s, g, result).poll.batch, t)
  {
    var f := AtFetch(s, g, result);
    FetchKeepsInv(s, g, now, result);
    BatchIsRetained(s, g, now, result);
    BatchIsNew(f);
    NewBatchIsGroup(s, g, t, f.poll.batch);
  }

  lemma SmallBatchGoesOut(batch: seq<Event>, delivered: seq<Event>, cursor: int, t: int)
    requires SmallBatch(batch, t)
    requires delivered <= batch && (delivered == batch || |delivered| >= CHANNEL_CAPACITY)
    ensures delivered == batch && NextCursor(cursor, delivered) == t
  {
  }

  lemma GroupGoesOut(s: State, s': State, g: GatewayId, t: int, batch: seq<Event>, delivered: seq<Event>)
    requires g in s.gateways && Leaves(s, s', g, batch, delivered)
    requires SmallBatch(batch, t)
    requires delivered == batch || |delivered| >= CHANNEL_CAPACITY
    ensures UpToDate(s, s', g, t)
  {
    SmallBatchGoesOut(batch, delivered, s.gateways[g].lastPolled, t);
  }

  lemma FullIsAhead()
    ensures G in Full().gateways && OneGroupAhead(Full(), G, T0 + 2)
  {
    FullFacts();
    RowsCount(N);
    assert Row(0) in Rows(N);
  }

  lemma QuietIsOrderly(s: State, steps: seq<Step>)
    requires forall step | step in steps :: !step.Publish? && !step.HandOut?
    ensures Throughout(s, steps, Orderly)
  {
    ThroughoutOf(s, steps, Orderly);
  }

  lemma AttendedIsOrderly(f: State, rest: seq<Step>)
    requires f.poll.Fetched? && f.poll.id in f.gateways && f.gateways[f.poll.id].subscribers != []
    requires forall step | step in rest :: !step.Publish? && !step.HandOut?
    ensures Throughout(f, [HandOut] + rest, Orderly)
  {
    QuietIsOrderly(Apply(f, HandOut), rest);
    assert ([HandOut] + rest)[1..] == rest;
  }

  lemma LoopIsQuiet(during: seq<Step>)
    requires OnlyLoopOrReceive(during)
    ensures forall step | step in during + [WriteBack] :: !step.Publish? && !step.HandOut?
  {
  }

  /** Every step of a round is orderly if somebody is subscribed. */
  lemma RoundIsOrderly(s: State, s': State, g: GatewayId, now: int, result: seq<Event>, during: seq<Step>)
    requires Ready(s, g) && !CaughtUp(s, g) && RoundVia(s, s', g, now, result, during)
    ensures Throughout(s, RoundSteps(s, g, now, result, during), Orderly)
  {
    var fetch := [ReadPage([PageRow(g, s.versions[g])]), Snapshot(now), Fetch(result)];
    var rest := during + [WriteBack];
    LoopIsQuiet(during);
    QuietIsOrderly(s, fetch);
    FetchRuns(s, g, now, result);
    AttendedIsOrderly(AtFetch(s, g, result), rest);
    ThroughoutConcat(s, fetch, [HandOut] + rest, Orderly);
    Regroup(ReadPage([PageRow(g, s.versions[g])]), Snapshot(now), Fetch(result), HandOut, during, WriteBack);
  }

  lemma Regroup<T>(a: T, b: T, c: T, d: T, during: seq<T>, e: T)
    ensures [a, b, c] + ([d] + (during + [e])) == [a, b, c, d] + during + [e]
  {
  }

  lemma FetchRuns(s: State, g: GatewayId, now: int, result: seq<Event>)
    requires Ready(s, g) && !CaughtUp(s, g) && RoundInput(s, g, now, result)
    ensures Run(s, [ReadPage([PageRow(g, s.versions[g])]), Snapshot(now), Fetch(result)]) == AtFetch(s, g, result)
  {
    var read := ReadPage([PageRow(g, s.versions[g])]);
    CursorInRange(s, g);
    RoundReads(s, g);
    RoundSnaps(s, g, now);
    FetchReaches(s, g, result);
    RunTwo(s, read, Snapshot(now));
    RunThenStep(s, [read, Snapshot(now)], Fetch(result));
    assert [read, Snapshot(now)] + [Fetch(result)] == [read, Snapshot(now), Fetch(result)];
  }

  /** Up to date, with the cursor at the timestamp and the tables as before. */
  ghost predicate UpToDate(s: State, s': State, g: GatewayId, t: int) {
    Ready(s', g) && CaughtUp(s', g) && s'.gateways[g].lastPolled == t && s'.rows == s.rows && s'.committed == s.committed
  }

  /** One round brings such a gateway up to date, with the cursor at the group. */
  lemma GroupRound(s: State, g: GatewayId, t: int) returns (s': State, now: int, result: seq<Event>, during: seq<Step>)
    requires Ready(s, g) && Drained(s, g) && !CaughtUp(s, g) && OneGroupAhead(s, g, t)
    ensures RoundVia(s, s', g, now, result, during)
    ensures UpToDate(s, s', g, t)
  {
    result := AnswerStartingWith(s.rows, g, s.gateways[g].lastPolled, {});
    s', now, during := RoundExists(s, g, result);
    GroupRoundEnds(s, s', g, t, now, result, during);
  }

  lemma GroupRoundEnds(s: State, s': State, g: GatewayId, t: int, now: int, result: seq<Event>, during: seq<Step>)
    requires Ready(s, g) && Drained(s, g) && !CaughtUp(s, g) && OneGroupAhead(s, g, t)
    requires RoundVia(s, s', g, now, result, during)
    ensures UpToDate(s, s', g, t)
  {
    FetchedGroup(s, g, t, now, result);
    var batch, delivered := RoundDelivers(s, s', g, now, result, during);
    GroupGoesOut(s, s', g, t, batch, delivered);
  }

  lemma RoundDelivers(s: State, s': State, g: GatewayId, now: int, result: seq<Event>, during: seq<Step>)
    returns (batch: seq<Event>, delivered: seq<Event>)
    requires Ready(s, g) && Drained(s, g) && !CaughtUp(s, g) && RoundVia(s, s', g, now, result, during)
    ensures batch == AtFetch(s, g, result).poll.batch && Leaves(s, s', g, batch, delivered)
    ensures delivered == batch || |delivered| >= CHANNEL_CAPACITY
  {
    batch := AtFetch(s, g, result).poll.batch;
    delivered := RoundOutcome(s, s', g, now, result, during);
  }

  lemma ReachCaughtUp() returns (steps: seq<Step>, s: State)
    ensures Reaches(EMPTY, steps, Orderly, s)
    ensures Ready(s, G) && CaughtUp(s, G) && s.gateways[G].lastPolled == T0 + 2 && s.rows == Full().rows
    ensures s.committed == s.rows
  {
    var before := ReachFull();
    FullIsReady(before);
    var now, result, during;
    FullIsAhead();
    s, now, result, during := GroupRound(Full(), G, T0 + 2);
    RoundIsOrderly(Full(), s, G, now, result, during);
    steps := Then(before, RoundSteps(Full(), G, now, result, during), Full());
  }

  lemma Then(before: seq<Step>, more: seq<Step>, s: State) returns (steps: seq<Step>)
    requires Reaches(EMPTY, before, Orderly, s) && Throughout(s, more, Orderly)
    ensures Reaches(EMPTY, steps, Orderly, Run(s, more))
  {
    steps := before + more;
    RunConcat(EMPTY, before, more);
    ThroughoutConcat(EMPTY, before, more, Orderly);
  }

  lemma LaterIsLast()
    ensures forall r | r in Full().rows :: r.eventId != LATER.eventId && r.processed < LATER.processed
  {
    forall r | r in Full().rows ensures r.eventId != LATER.eventId && r.processed < LATER.processed {
      if r != FIRST {
        var i :| 0 <= i < N && r == Row(i);
        assert Row(i).eventId[0] == 'r' && LATER.eventId[0] == 'l';
      }
    }
  }

  lemma LaterIsNew(s: State, v: Version)
    requires s.rows == Full().rows && s.committed == s.rows && v != "" && v !in s.stamped
    ensures Enabled(s, Publish(LATER, v)) && Orderly(s, Publish(LATER, v))
  {
    LaterIsLast();
  }

  lemma {:induction false} FreshVersion(stamped: set<Version>) returns (v: Version)
    ensures v != "" && v !in stamped
  {
    v := "v";
    var left := stamped;
    while left != {}
      invariant v != "" && forall w | w in stamped && w !in left :: |w| < |v|
      decreases left
    {
      var w :| w in left;
      left := left - {w};
      v := v + w;
      assert |v| > |w|;
    }
  }

  lemma LaterStalls(s: State, v: Version)
    requires Ready(s, G) && CaughtUp(s, G) && s.gateways[G].lastPolled == T0 + 2 && s.rows == Full().rows
    requires Enabled(s, Publish(LATER, v)) && Orderly(s, Publish(LATER, v))
    ensures Stalled(DoPublish(s, LATER, v), G)
  {
    FullFacts();
    RowsCount(N);
    PublishStalls(s, G, LATER, v);
  }

  /** A stalled gateway is reached from the empty database, in commit order and with every hand-out attended. */
  lemma StallIsReachable() returns (steps: seq<Step>)
    ensures Initial(EMPTY) && Throughout(EMPTY, steps, Orderly) && Stalled(Run(EMPTY, steps), G)
  {
    var before, s := ReachCaughtUp();
    var v := FreshVersion(s.stamped);
    LaterIsNew(s, v);
    LaterStalls(s, v);
    steps := Extend(EMPTY, before, Orderly, s, Publish(LATER, v), DoPublish(s, LATER, v));
  }
}
