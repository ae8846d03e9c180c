// When a gateway catches up: over any run of the hub in which nothing is published to
// it, somebody stays subscribed and its channels are drained when a hand-out to it
// begins. Other gateways are polled and published to meanwhile, rows are deleted,
// subscribers come and go, consumers receive and queries fail.
module HubLiveness {
  import opened HubModel
  import opened HubInvariant
  import opened HubDelivery
  import opened HubHandOuts
  import opened HubTheorems
  import opened HubProgress

  // --------------------------------------------------------------- hypotheses

  ghost predicate Calm(s: State, step: Step, g: GatewayId) {
    && AfterCleanup(s, step)
    && (step.Publish? ==> step.event.gatewayId != g)
    && (step.HandOut? && s.poll.Fetched? && s.poll.id == g && g in s.gateways ==> Drained(s, g))
    && (g in Apply(s, step).gateways ==> Apply(s, step).gateways[g].subscribers != [])
  }

  ghost predicate CalmRun(s: State, steps: seq<Step>, g: GatewayId)
    decreases |steps|
  {
    steps == [] || (Calm(s, steps[0], g) && CalmRun(Apply(s, steps[0]), steps[1..], g))
  }

  /** The poller is done with the gateway's row: it has written back, or it found nothing to do. */
  ghost predicate Visit(s: State, step: Step, g: GatewayId) {
    Enabled(s, step) &&
    ((step.WriteBack? && s.poll.id == g) || (step.Snapshot? && s.page[0].id == g && Do(s, step).poll.Idle?))
  }

  /** How many rows may be left after the step. */
  ghost function Left(s: State, step: Step, g: GatewayId, n: int): int {
    if Visit(s, step, g) then n - 1 else n
  }

  ghost function Visits(s: State, steps: seq<Step>, g: GatewayId): nat
    decreases |steps|
  {
    if steps == [] then 0
    else (if Visit(s, steps[0], g) then 1 else 0) + Visits(Apply(s, steps[0]), steps[1..], g)
  }

  /** Somebody is subscribed, the cursor is established, and there are rows to have been handed out. */
  ghost predicate Attending(s: State, g: GatewayId) {
    && g in s.gateways && s.gateways[g].subscribers != [] && s.gateways[g].lastPolled != 0
    && g in s.versions && s.versions[g] != ""
  }

  /** From the cursor on, fewer rows of the gateway share a timestamp than a channel holds. */
  ghost predicate SmallGroups(rows: set<Event>, g: GatewayId, cursor: int) {
    forall t | t >= cursor :: |Group(rows, g, t)| < 100
  }

  ghost predicate OnGateway(poll: Poll, g: GatewayId) {
    !poll.Idle? && poll.id == g
  }

  // ---------------------------------------------------------------- invariant

  /** `u` is what is undelivered and at most `n`; if it is still `n`, then what has gone out so far has the cursor's
      timestamp, and what is to come has it, too, or is undelivered. */
  ghost predicate InFlight(poll: Poll, cursor: int, rows: set<Event>, u: set<Event>, n: int)
    requires !poll.Idle?
  {
    && |u| <= n
    && (poll.Fetched? ==>
          && (forall e | e in poll.batch :: e in rows)
          && (|u| < n || forall e | e in poll.batch :: e in u || e.processed == cursor))
    && (poll.Handing? ==>
          && (forall e | e in poll.delivered + poll.rest :: e in rows)
          && (|u| < n || ((forall e | e in poll.delivered :: e.processed == cursor)
                          && forall e | e in poll.rest :: e in u || e.processed == cursor)))
    && (poll.HandedOut? && poll.blocked ==> |u| < n)
  }

  /** The page and the poll know the stored version; the gateway has caught up or has at most `n` rows to go. */
  ghost predicate Course(gw: Gateway, version: Version, page: seq<PageRow>, poll: Poll, rows: set<Event>, u: set<Event>,
                         g: GatewayId, n: int) {
    && (forall r | r in page && r.id == g :: r.version == version)
    && (if OnGateway(poll, g) then poll.version == version && InFlight(poll, gw.lastPolled, rows, u, n)
        else gw.knownVersion == version || |u| <= n)
  }

  /** The rows of the gateway are among those at the start, and its cursor is no earlier. */
  ghost predicate Since(s: State, g: GatewayId, rows: set<Event>, cursor: int)
    requires g in s.gateways
  {
    cursor <= s.gateways[g].lastPolled && forall r | r in s.rows && r.gatewayId == g :: r in rows
  }

  ghost predicate LevelOk(s: State, g: GatewayId)
    requires g in s.gateways
  {
    s.poll.Handing? && s.poll.id == g ==> Bounds(s, s.gateways[g].subscribers, false)
  }

  ghost predicate OnCourse(s: State, g: GatewayId, rows: set<Event>, cursor: int, n: int) {
    && Attending(s, g) && Since(s, g, rows, cursor) && LevelOk(s, g)
    && Course(s.gateways[g], s.versions[g], s.page, s.poll, rows, Undelivered(s, g), g, n)
  }

  // -------------------------------------------------------- what steps keep

  lemma FewerElements(a: set<Event>, b: set<Event>)
    requires a < b
    ensures |a| < |b|
  {
    var x :| x in b && x !in a;
    assert a <= b - {x};
    SubsetCount(a, b - {x});
  }

  /** Fewer rows are undelivered, or the same ones. */
  lemma FewerLeft(poll: Poll, cursor: int, rows: set<Event>, u: set<Event>, n: int, u': set<Event>)
    requires !poll.Idle? && InFlight(poll, cursor, rows, u, n) && u' <= u
    ensures InFlight(poll, cursor, rows, u', n)
  {
    if u' != u { FewerElements(u', u); }
  }

  lemma FewerOnCourse(gw: Gateway, version: Version, page: seq<PageRow>, poll: Poll, rows: set<Event>, u: set<Event>,
                      g: GatewayId, n: int, gw': Gateway, u': set<Event>)
    requires Course(gw, version, page, poll, rows, u, g, n) && u' <= u
    requires gw'.lastPolled == gw.lastPolled && gw'.knownVersion == gw.knownVersion
    ensures Course(gw', version, page, poll, rows, u', g, n)
  {
    SubsetCount(u', u);
    if OnGateway(poll, g) { FewerLeft(poll, gw.lastPolled, rows, u, n, u'); }
  }

  /** What callers, consumers and other replicas may do to a gateway in a calm run. */
  ghost predicate LeavesCourse(s: State, t: State, g: GatewayId)
    requires g in s.gateways && g in s.versions
  {
    && t.poll == s.poll && t.page == s.page && t.log == s.log
    && g in t.gateways && t.gateways[g].lastPolled == s.gateways[g].lastPolled
    && t.gateways[g].knownVersion == s.gateways[g].knownVersion
    && g in t.versions && t.versions[g] == s.versions[g]
    && forall r | r in t.rows && r.gatewayId == g :: r in s.rows
  }

  lemma RegistryStepLeavesCourse(s: State, step: Step, g: GatewayId)
    requires Enabled(s, step) && RegistryStep(step) && g in s.gateways && g in s.versions
    requires g in Do(s, step).gateways ==> Do(s, step).gateways[g].subscribers != []
    ensures LeavesCourse(s, Do(s, step), g)
  {
    RegistryStepLeaves(s, step);
    RegistryStepFrame(s, step);
  }

  lemma OtherStepLeavesCourse(s: State, step: Step, g: GatewayId)
    requires Enabled(s, step) && !PollerStep(step) && !RegistryStep(step) && g in s.gateways && g in s.versions
    requires step.Publish? ==> step.event.gatewayId != g
    ensures LeavesCourse(s, Do(s, step), g) && Do(s, step).gateways == s.gateways
  {
  }

  lemma OtherStepKeepsBounds(s: State, step: Step, subscribers: seq<ChanId>)
    requires Enabled(s, step) && !PollerStep(step) && s.poll.Handing? && Bounds(s, subscribers, false)
    ensures Bounds(Do(s, step), subscribers, false)
  {
    match step {
      case Receive(c) => ReceiveKeepsBounds(s, c, subscribers);
      case InsertGateway(_) | Publish(_, _) | Cleanup(_) | CleanupRange(_, _) | CloseDetached(_) =>
    }
  }

  lemma CursorStays(s: State, step: Step, g: GatewayId)
    requires Inv(s) && Attending(s, g) && Enabled(s, step) && Calm(s, step, g)
    ensures g in Do(s, step).gateways
    ensures Do(s, step).gateways[g].subscribers != [] && Do(s, step).gateways[g].lastPolled != 0
  {
    StepKeepsCursor(s, step, g);
    CursorInRange(s, g);
  }

  lemma LeavesOnCourse(s: State, t: State, g: GatewayId, rows: set<Event>, cursor: int, n: int)
    requires OnCourse(s, g, rows, cursor, n) && Attending(t, g) && LeavesCourse(s, t, g) && LevelOk(t, g)
    ensures OnCourse(t, g, rows, cursor, n)
  {
    FewerOnCourse(s.gateways[g], s.versions[g], s.page, s.poll, rows, Undelivered(s, g), g, n,
                  t.gateways[g], Undelivered(t, g));
  }

  lemma RegistryStepOnCourse(s: State, step: Step, g: GatewayId, rows: set<Event>, cursor: int, n: int)
    requires OnCourse(s, g, rows, cursor, n) && Enabled(s, step) && RegistryStep(step) && Attending(Do(s, step), g)
    ensures OnCourse(Do(s, step), g, rows, cursor, n)
  {
    RegistryStepLeavesCourse(s, step, g);
    LeavesOnCourse(s, Do(s, step), g, rows, cursor, n);
  }

  lemma OtherStepOnCourse(s: State, step: Step, g: GatewayId, rows: set<Event>, cursor: int, n: int)
    requires OnCourse(s, g, rows, cursor, n) && Enabled(s, step) && !PollerStep(step) && !RegistryStep(step)
    requires step.Publish? ==> step.event.gatewayId != g
    ensures OnCourse(Do(s, step), g, rows, cursor, n)
  {
    OtherStepLeavesCourse(s, step, g);
    if s.poll.Handing? && s.poll.id == g { OtherStepKeepsBounds(s, step, s.gateways[g].subscribers); }
    LeavesOnCourse(s, Do(s, step), g, rows, cursor, n);
  }

  lemma CallerStaysOnCourse(s: State, step: Step, g: GatewayId, rows: set<Event>, cursor: int, n: int)
    requires Inv(s) && OnCourse(s, g, rows, cursor, n) && Enabled(s, step) && !PollerStep(step) && Calm(s, step, g)
    ensures OnCourse(Do(s, step), g, rows, cursor, n)
  {
    if RegistryStep(step) {
      CursorStays(s, step, g);
      RegistryStepLeaves(s, step);
      RegistryStepOnCourse(s, step, g, rows, cursor, n);
    } else {
      OtherStepOnCourse(s, step, g, rows, cursor, n);
    }
  }

  // ------------------------------------------------ steps before the hand-out

  /** The step changes the page and the poll only. */
  ghost predicate OnlyPolls(s: State, t: State) {
    t.gateways == s.gateways && t.versions == s.versions && t.rows == s.rows && t.log == s.log
  }

  lemma PageStepPolls(s: State, step: Step)
    requires Enabled(s, step) && (step.ReadPage? || step.SkipRow? || step.AbortFetch? || step.Stop?)
    ensures OnlyPolls(s, Do(s, step)) && Do(s, step).poll.Idle? && (s.poll.Idle? || s.poll.Snapped?)
    ensures forall r | r in Do(s, step).page :: r in s.page || (r.id in s.versions && r.version == s.versions[r.id])
  {
  }

  lemma PageStepOnCourse(s: State, step: Step, g: GatewayId, rows: set<Event>, cursor: int, n: int)
    requires OnCourse(s, g, rows, cursor, n) && Enabled(s, step)
    requires step.ReadPage? || step.SkipRow? || step.AbortFetch? || step.Stop?
    ensures OnCourse(Do(s, step), g, rows, cursor, n)
  {
    PageStepPolls(s, step);
  }

  /** A row of the gateway is skipped exactly if the gateway has caught up. */
  lemma SnapshotPolls(s: State, now: int, g: GatewayId)
    requires Enabled(s, Snapshot(now)) && g in s.gateways && g in s.versions
    requires s.gateways[g].subscribers != [] && s.versions[g] != ""
    requires forall r | r in s.page && r.id == g :: r.version == s.versions[g]
    ensures var t := DoSnapshot(s, now);
      && OnlyPolls(s, t) && t.page == s.page[1..] && (t.poll.Idle? || t.poll.Snapped?)
      && (OnGateway(t.poll, g) ==> s.page[0].id == g && t.poll.version == s.versions[g])
      && (s.page[0].id == g ==> (OnGateway(t.poll, g) <==> s.gateways[g].knownVersion != s.versions[g]))
      && (s.page[0].id == g && !OnGateway(t.poll, g) ==> t.poll.Idle?)
  {
    assert s.page[0] in s.page;
  }

  lemma SnapshotOnCourse(s: State, now: int, g: GatewayId, rows: set<Event>, cursor: int, n: int)
    requires OnCourse(s, g, rows, cursor, n) && Enabled(s, Snapshot(now))
    ensures OnCourse(DoSnapshot(s, now), g, rows, cursor, Left(s, Snapshot(now), g, n))
  {
    SnapshotPolls(s, now, g);
  }

  lemma FetchedFromCursor(s: State, result: seq<Event>, g: GatewayId)
    requires Inv(s) && Attending(s, g) && Enabled(s, Fetch(result)) && s.poll.id == g
    ensures s.poll.since == s.gateways[g].lastPolled && s.poll.resuming
    ensures forall e | e in DoFetch(s, result).poll.batch ::
      e in s.rows && e.gatewayId == g && e.processed >= s.gateways[g].lastPolled
  {
    CursorInRange(s, g);
    assert forall e | e in DoFetch(s, result).poll.batch :: e in result;
  }

  lemma NewOrAtCursor(f: State, e: Event)
    requires Inv(f) && f.poll.Fetched? && f.poll.id in f.gateways && e in f.poll.batch && e in f.rows
    requires e.gatewayId == f.poll.id && e.processed >= f.gateways[f.poll.id].lastPolled
    ensures e in Undelivered(f, f.poll.id) || e.processed == f.gateways[f.poll.id].lastPolled
  {
    if e in Handed(f.log) { RedeliveryOnlyAtBoundary(f, e); }
  }

  ghost predicate NewOrRepeated(s: State, g: GatewayId, batch: seq<Event>)
    requires g in s.gateways
  {
    forall e | e in batch ::
      e in s.rows && e.gatewayId == g && (e in Undelivered(s, g) || e.processed == s.gateways[g].lastPolled)
  }

  lemma FetchIsNewOrRepeated(s: State, result: seq<Event>, g: GatewayId)
    requires Inv(s) && Attending(s, g) && Enabled(s, Fetch(result)) && s.poll.id == g
    ensures NewOrRepeated(s, g, DoFetch(s, result).poll.batch)
  {
    var t := DoFetch(s, result);
    StepKeepsInv(s, Fetch(result));
    assert Apply(s, Fetch(result)) == t;
    FetchedFromCursor(s, result, g);
    forall e | e in t.poll.batch ensures e in Undelivered(s, g) || e.processed == s.gateways[g].lastPolled {
      NewOrAtCursor(t, e);
    }
  }

  lemma FetchOnCourse(s: State, result: seq<Event>, g: GatewayId, rows: set<Event>, cursor: int, n: int)
    requires OnCourse(s, g, rows, cursor, n) && Enabled(s, Fetch(result))
    requires s.poll.id == g ==> NewOrRepeated(s, g, DoFetch(s, result).poll.batch)
    ensures OnCourse(DoFetch(s, result), g, rows, cursor, n)
  {
  }

  // ------------------------------------------------------------- the hand-out

  lemma HandOutOnCourse(s: State, g: GatewayId, rows: set<Event>, cursor: int, n: int)
    requires OnCourse(s, g, rows, cursor, n) && Enabled(s, HandOut) && Calm(s, HandOut, g)
    ensures OnCourse(DoHandOut(s), g, rows, cursor, n)
  {
    assert [] + s.poll.batch == s.poll.batch;
    assert OnlyPolls(s, DoHandOut(s));
    if s.poll.id == g { DrainedIsLevel(s, g); }
  }

  lemma DrainedIsLevel(s: State, g: GatewayId)
    requires s.poll.Fetched? && s.poll.id == g && g in s.gateways && Drained(s, g)
    ensures LevelOk(DoHandOut(s), g)
  {
    var h := DoHandOut(s);
    forall c | c in s.gateways[g].subscribers ensures Filled(h.channels, c) == 0 {
    }
  }

  lemma PassInFlight(poll: Poll, cursor: int, rows: set<Event>, u: set<Event>, n: int)
    requires poll.Handing? && poll.rest != [] && InFlight(poll, cursor, rows, u, n)
    ensures InFlight(poll.(delivered := poll.delivered + [poll.rest[0]], rest := poll.rest[1..], todo := []),
                     cursor, rows, u - {poll.rest[0]}, n)
  {
    var e, u' := poll.rest[0], u - {poll.rest[0]};
    assert e in poll.rest && (poll.delivered + [e]) + poll.rest[1..] == poll.delivered + poll.rest;
    if e in u { FewerElements(u', u); } else { assert u' == u; }
  }

  lemma PassOnCourse(s: State, g: GatewayId, rows: set<Event>, n: int)
    requires g in s.gateways && g in s.versions && s.poll.Handing? && s.poll.id in s.gateways && s.poll.rest != []
    requires Course(s.gateways[g], s.versions[g], s.page, s.poll, rows, Undelivered(s, g), g, n)
    requires s.poll.rest[0].gatewayId == s.poll.id
    ensures Course(s.gateways[g], s.versions[g], s.page, DoPass(s).poll, rows, Undelivered(DoPass(s), g), g, n)
  {
    LogGrows(s.log, s.poll.rest[0], s.gateways[s.poll.id].subscribers);
    if s.poll.id == g {
      assert Undelivered(DoPass(s), g) == Undelivered(s, g) - {s.poll.rest[0]};
      PassInFlight(s.poll, s.gateways[g].lastPolled, rows, Undelivered(s, g), n);
    } else {
      assert Undelivered(DoPass(s), g) == Undelivered(s, g);
    }
  }

  /** A hand-out that stops short has put out more than the repeats. */
  lemma EndInFlight(poll: Poll, cursor: int, rows: set<Event>, u: set<Event>, n: int, blocked: bool)
    requires poll.Handing? && InFlight(poll, cursor, rows, u, n) && |Group(rows, poll.id, cursor)| < CHANNEL_CAPACITY
    requires NoDup(poll.delivered) && forall e | e in poll.delivered :: e.gatewayId == poll.id
    requires blocked ==> |poll.delivered| >= CHANNEL_CAPACITY
    ensures InFlight(HandedOut(poll.id, poll.version, poll.since, poll.resuming, poll.delivered, blocked), cursor, rows, u, n)
  {
    if blocked && |u| == n {
      assert forall e | e in poll.delivered :: e in poll.delivered + poll.rest;
      DistinctCount(poll.delivered, Group(rows, poll.id, cursor));
    }
  }

  lemma BatchFacts(s: State)
    requires Inv(s) && s.poll.Handing?
    ensures s.poll.id in s.gateways && NoDup(s.poll.delivered)
    ensures forall e | e in s.poll.delivered + s.poll.rest :: e.gatewayId == s.poll.id
    ensures forall e | e in s.poll.delivered :: e.gatewayId == s.poll.id
    ensures forall e | e in s.poll.rest :: e.gatewayId == s.poll.id
  {
    var batch := s.poll.delivered + s.poll.rest;
    assert forall e | e in s.poll.delivered :: e in batch;
    assert forall e | e in s.poll.rest :: e in batch;
    assert forall i | 0 <= i < |s.poll.delivered| :: batch[i] == s.poll.delivered[i];
  }

  lemma EndCourse(gw: Gateway, version: Version, page: seq<PageRow>, poll: Poll, rows: set<Event>, u: set<Event>,
                  g: GatewayId, n: int, blocked: bool)
    requires Course(gw, version, page, poll, rows, u, g, n) && poll.Handing? && NoDup(poll.delivered)
    requires forall e | e in poll.delivered :: e.gatewayId == poll.id
    requires poll.id == g ==> |Group(rows, g, gw.lastPolled)| < CHANNEL_CAPACITY
    requires poll.id == g && blocked ==> |poll.delivered| >= CHANNEL_CAPACITY
    ensures Course(gw, version, page, HandedOut(poll.id, poll.version, poll.since, poll.resuming, poll.delivered, blocked),
                   rows, u, g, n)
  {
    if poll.id == g { EndInFlight(poll, gw.lastPolled, rows, u, n, blocked); }
  }

  /** The loop ends with the batch or at a full buffer. */
  ghost predicate Ends(s: State)
    requires s.poll.Handing? && s.poll.id in s.gateways
  {
    s.poll.rest == [] || !ChannelsAvailable(s.channels, s.gateways[s.poll.id].subscribers)
  }

  ghost function Ended(poll: Poll): Poll
    requires poll.Handing?
  {
    HandedOut(poll.id, poll.version, poll.since, poll.resuming, poll.delivered, poll.rest != [])
  }

  lemma OfferEnds(s: State)
    requires Enabled(s, OfferNext)
    ensures if Ends(s) then DoOffer(s) == s.(poll := Ended(s.poll)) else DoOffer(s).poll.Handing?
  {
  }

  lemma EndIsFull(s: State, g: GatewayId)
    requires Inv(s) && Enabled(s, OfferNext) && Ends(s)
    requires s.poll.id == g && LevelOk(s, g) && s.gateways[g].subscribers != []
    ensures s.poll.rest != [] ==> |s.poll.delivered| >= CHANNEL_CAPACITY
  {
    OfferEnds(s);
    OfferKeepsBounds(s, s.gateways[g].subscribers, false);
  }

  lemma EndOnCourse(s: State, g: GatewayId, rows: set<Event>, cursor: int, n: int)
    requires OnCourse(s, g, rows, cursor, n) && SmallGroups(rows, g, cursor) && s.poll.Handing?
    requires NoDup(s.poll.delivered) && forall e | e in s.poll.delivered :: e.gatewayId == s.poll.id
    requires s.poll.id == g && s.poll.rest != [] ==> |s.poll.delivered| >= CHANNEL_CAPACITY
    ensures Course(s.gateways[g], s.versions[g], s.page, Ended(s.poll), rows, Undelivered(s, g), g, n)
  {
    EndCourse(s.gateways[g], s.versions[g], s.page, s.poll, rows, Undelivered(s, g), g, n, s.poll.rest != []);
  }

  lemma OfferLevel(s: State, g: GatewayId)
    requires Inv(s) && Enabled(s, OfferNext) && g in s.gateways && LevelOk(s, g) && s.gateways[g].subscribers != []
    ensures DoOffer(s).gateways == s.gateways && LevelOk(DoOffer(s), g)
  {
    OfferStays(s);
    if s.poll.id == g { OfferKeepsBounds(s, s.gateways[g].subscribers, false); }
  }

  lemma SendLevel(s: State, g: GatewayId)
    requires Inv(s) && Enabled(s, SendNext) && g in s.gateways && LevelOk(s, g) && s.gateways[g].subscribers != []
    ensures DoSend(s).gateways == s.gateways && LevelOk(DoSend(s), g)
  {
    SendStays(s);
    if s.poll.id == g { SendKeepsBounds(s, s.gateways[g].subscribers, false); }
  }

  lemma GoesOnOnCourse(s: State, g: GatewayId, rows: set<Event>, cursor: int, n: int)
    requires OnCourse(s, g, rows, cursor, n) && Enabled(s, OfferNext) && !Ends(s)
    requires forall e | e in s.poll.rest :: e.gatewayId == s.poll.id
    ensures DoOffer(s).gateways == s.gateways
    ensures Course(s.gateways[g], s.versions[g], s.page, DoOffer(s).poll, rows, Undelivered(DoOffer(s), g), g, n)
  {
    OfferStays(s);
    if s.gateways[s.poll.id].subscribers == [] {
      assert s.poll.rest[0] in s.poll.rest;
      PassOnCourse(s, g, rows, n);
    }
  }

  lemma EndsOnCourse(s: State, g: GatewayId, rows: set<Event>, cursor: int, n: int)
    requires Inv(s) && OnCourse(s, g, rows, cursor, n) && SmallGroups(rows, g, cursor) && Enabled(s, OfferNext) && Ends(s)
    ensures Course(s.gateways[g], s.versions[g], s.page, Ended(s.poll), rows, Undelivered(s, g), g, n)
  {
    BatchFacts(s);
    if s.poll.id == g { EndIsFull(s, g); }
    EndOnCourse(s, g, rows, cursor, n);
  }

  lemma OfferCourse(s: State, g: GatewayId, rows: set<Event>, cursor: int, n: int)
    requires Inv(s) && OnCourse(s, g, rows, cursor, n) && SmallGroups(rows, g, cursor) && Enabled(s, OfferNext)
    ensures DoOffer(s).gateways == s.gateways
    ensures Course(s.gateways[g], s.versions[g], s.page, DoOffer(s).poll, rows, Undelivered(DoOffer(s), g), g, n)
  {
    if Ends(s) {
      EndsOnCourse(s, g, rows, cursor, n);
      OfferEnds(s);
    } else {
      BatchFacts(s);
      GoesOnOnCourse(s, g, rows, cursor, n);
    }
  }

  lemma SendCourse(s: State, g: GatewayId, rows: set<Event>, cursor: int, n: int)
    requires OnCourse(s, g, rows, cursor, n) && Enabled(s, SendNext)
    requires forall e | e in s.poll.rest :: e.gatewayId == s.poll.id
    ensures DoSend(s).gateways == s.gateways
    ensures Course(s.gateways[g], s.versions[g], s.page, DoSend(s).poll, rows, Undelivered(DoSend(s), g), g, n)
  {
    assert s.poll.rest[0] in s.poll.rest;
    PassOnCourse(s, g, rows, n);
    assert DoSend(s).log == if |s.poll.todo| == 1 then DoPass(s).log else s.log;
  }

  /** The hand-out moves on: the tables and the registry are as before. */
  lemma LoopedOnCourse(s: State, t: State, g: GatewayId, rows: set<Event>, cursor: int, n: int)
    requires OnCourse(s, g, rows, cursor, n) && StaysWithPoll(s, t) && LevelOk(t, g)
    requires Course(s.gateways[g], s.versions[g], s.page, t.poll, rows, Undelivered(t, g), g, n)
    ensures OnCourse(t, g, rows, cursor, n)
  {
  }

  lemma OfferOnCourse(s: State, g: GatewayId, rows: set<Event>, cursor: int, n: int)
    requires Inv(s) && OnCourse(s, g, rows, cursor, n) && SmallGroups(rows, g, cursor) && Enabled(s, OfferNext)
    ensures OnCourse(DoOffer(s), g, rows, cursor, n)
  {
    OfferStays(s);
    OfferLevel(s, g);
    OfferCourse(s, g, rows, cursor, n);
    LoopedOnCourse(s, DoOffer(s), g, rows, cursor, n);
  }

  lemma SendOnCourse(s: State, g: GatewayId, rows: set<Event>, cursor: int, n: int)
    requires Inv(s) && OnCourse(s, g, rows, cursor, n) && Enabled(s, SendNext)
    ensures OnCourse(DoSend(s), g, rows, cursor, n)
  {
    SendStays(s);
    SendLevel(s, g);
    BatchFacts(s);
    SendCourse(s, g, rows, cursor, n);
    LoopedOnCourse(s, DoSend(s), g, rows, cursor, n);
  }

  // ----------------------------------------------------------- the write-back

  lemma WrittenBack(s: State, g: GatewayId)
    requires Inv(s) && Enabled(s, WriteBack) && g in s.gateways
    ensures var t := DoWriteBack(s);
      && t.rows == s.rows && t.log == s.log && t.page == s.page && t.versions == s.versions && t.poll.Idle?
      && g in t.gateways && s.gateways[g].lastPolled <= t.gateways[g].lastPolled
      && (if s.poll.id == g then !s.poll.blocked ==> t.gateways[g].knownVersion == s.poll.version
          else t.gateways[g] == s.gateways[g])
  {
    WriteBackReachesReach(s);
  }

  lemma WriteBackCourse(gw: Gateway, version: Version, page: seq<PageRow>, poll: Poll, rows: set<Event>, u: set<Event>,
                        g: GatewayId, n: int, gw': Gateway, u': set<Event>)
    requires Course(gw, version, page, poll, rows, u, g, n) && poll.HandedOut? && u' <= u
    requires if poll.id == g then !poll.blocked ==> gw'.knownVersion == poll.version else gw' == gw
    ensures Course(gw', version, page, Idle, rows, u', g, if poll.id == g then n - 1 else n)
  {
    SubsetCount(u', u);
  }

  lemma WriteBackOnCourse(s: State, g: GatewayId, rows: set<Event>, cursor: int, n: int)
    requires Inv(s) && OnCourse(s, g, rows, cursor, n) && Enabled(s, WriteBack) && Attending(DoWriteBack(s), g)
    ensures OnCourse(DoWriteBack(s), g, rows, cursor, Left(s, WriteBack, g, n))
  {
    WrittenBack(s, g);
    WrittenOnCourse(s, DoWriteBack(s), g, rows, cursor, n);
  }

  lemma WrittenOnCourse(s: State, t: State, g: GatewayId, rows: set<Event>, cursor: int, n: int)
    requires OnCourse(s, g, rows, cursor, n) && s.poll.HandedOut? && Attending(t, g)
    requires t.rows == s.rows && t.log == s.log && t.page == s.page && t.versions == s.versions && t.poll.Idle?
    requires s.gateways[g].lastPolled <= t.gateways[g].lastPolled
    requires if s.poll.id == g then !s.poll.blocked ==> t.gateways[g].knownVersion == s.poll.version
             else t.gateways[g] == s.gateways[g]
    ensures OnCourse(t, g, rows, cursor, if s.poll.id == g then n - 1 else n)
  {
    WriteBackCourse(s.gateways[g], s.versions[g], s.page, s.poll, rows, Undelivered(s, g), g, n,
                    t.gateways[g], Undelivered(t, g));
  }

  // --------------------------------------------------------------------- runs

  lemma EarlyStepOnCourse(s: State, step: Step, g: GatewayId, rows: set<Event>, cursor: int, n: int)
    requires Inv(s) && OnCourse(s, g, rows, cursor, n) && Enabled(s, step) && PollerStep(step) && Calm(s, step, g)
    requires !LoopStep(step) && !step.WriteBack?
    ensures OnCourse(Do(s, step), g, rows, cursor, Left(s, step, g, n))
  {
    if step.Snapshot? {
      SnapshotOnCourse(s, step.now, g, rows, cursor, n);
    } else if step.Fetch? {
      if s.poll.id == g { FetchIsNewOrRepeated(s, step.result, g); }
      FetchOnCourse(s, step.result, g, rows, cursor, n);
    } else if step.HandOut? {
      HandOutOnCourse(s, g, rows, cursor, n);
    } else {
      PageStepOnCourse(s, step, g, rows, cursor, n);
    }
  }

  lemma LateStepOnCourse(s: State, step: Step, g: GatewayId, rows: set<Event>, cursor: int, n: int)
    requires Inv(s) && OnCourse(s, g, rows, cursor, n) && SmallGroups(rows, g, cursor)
    requires Enabled(s, step) && Calm(s, step, g) && (LoopStep(step) || step.WriteBack?)
    ensures OnCourse(Do(s, step), g, rows, cursor, Left(s, step, g, n))
  {
    if step.OfferNext? {
      OfferOnCourse(s, g, rows, cursor, n);
    } else if step.SendNext? {
      SendOnCourse(s, g, rows, cursor, n);
    } else {
      CursorStays(s, step, g);
      WrittenBack(s, g);
      WriteBackOnCourse(s, g, rows, cursor, n);
    }
  }

  lemma CallerIsNoVisit(s: State, step: Step, g: GatewayId, n: int)
    requires !PollerStep(step)
    ensures Left(s, step, g, n) == n
  {
  }

  lemma StepStaysOnCourse(s: State, step: Step, g: GatewayId, rows: set<Event>, cursor: int, n: int)
    requires Inv(s) && OnCourse(s, g, rows, cursor, n) && SmallGroups(rows, g, cursor)
    requires Enabled(s, step) && Calm(s, step, g)
    ensures OnCourse(Do(s, step), g, rows, cursor, Left(s, step, g, n))
  {
    if !PollerStep(step) {
      CallerIsNoVisit(s, step, g, n);
      CallerStaysOnCourse(s, step, g, rows, cursor, n);
    } else if LoopStep(step) || step.WriteBack? {
      LateStepOnCourse(s, step, g, rows, cursor, n);
    } else {
      EarlyStepOnCourse(s, step, g, rows, cursor, n);
    }
  }

  lemma NextOnCourse(s: State, step: Step, g: GatewayId, rows: set<Event>, cursor: int, n: int)
    requires Inv(s) && WakeInv(s) && OnCourse(s, g, rows, cursor, n) && SmallGroups(rows, g, cursor) && Calm(s, step, g)
    ensures var t := Apply(s, step);
      Inv(t) && WakeInv(t) && OnCourse(t, g, rows, cursor, Left(s, step, g, n))
  {
    StepKeepsInv(s, step);
    if Enabled(s, step) {
      StepKeepsWakeInv(s, step);
      StepStaysOnCourse(s, step, g, rows, cursor, n);
    }
  }

  lemma OneVisitLess(s: State, steps: seq<Step>, g: GatewayId, n: int)
    requires steps != []
    ensures Run(s, steps) == Run(Apply(s, steps[0]), steps[1..])
    ensures Left(s, steps[0], g, n) - Visits(Apply(s, steps[0]), steps[1..], g) == n - Visits(s, steps, g)
  {
  }

  /** Every visit brings the gateway up to date or leaves it fewer rows to go. */
  lemma {:induction false} RunStaysOnCourse(s: State, steps: seq<Step>, g: GatewayId, rows: set<Event>, cursor: int, n: int)
    requires Inv(s) && WakeInv(s) && OnCourse(s, g, rows, cursor, n) && SmallGroups(rows, g, cursor) && CalmRun(s, steps, g)
    ensures var t := Run(s, steps);
      Inv(t) && WakeInv(t) && OnCourse(t, g, rows, cursor, n - Visits(s, steps, g))
    decreases |steps|
  {
    if steps != [] {
      NextOnCourse(s, steps[0], g, rows, cursor, n);
      OneVisitLess(s, steps, g, n);
      RunStaysOnCourse(Apply(s, steps[0]), steps[1..], g, rows, cursor, Left(s, steps[0], g, n));
    }
  }

  /** No batch of the gateway is in flight, and what has been read of its row is what is stored. */
  ghost predicate UpToDate(s: State, g: GatewayId)
    requires g in s.versions
  {
    && (forall r | r in s.page && r.id == g :: r.version == s.versions[g])
    && (OnGateway(s.poll, g) ==> s.poll.Snapped? && s.poll.version == s.versions[g])
  }

  lemma StartsOnCourse(s: State, g: GatewayId)
    requires Attending(s, g) && UpToDate(s, g)
    ensures OnCourse(s, g, s.rows, s.gateways[g].lastPolled, |Undelivered(s, g)|)
  {
  }

  lemma NoneToGo(t: State, g: GatewayId, rows: set<Event>, cursor: int, n: int)
    requires WakeInv(t) && OnCourse(t, g, rows, cursor, n) && n < 0
    ensures t.gateways[g].knownVersion == t.versions[g] && Undelivered(t, g) == {}
  {
    assert AllHanded(t.rows, Handed(t.log), g, t.gateways[g].lastPolled);
  }

  /** From a state in which nothing read before is in use. */
  lemma CatchesUpFrom(s: State, steps: seq<Step>, g: GatewayId)
    requires Inv(s) && WakeInv(s) && Attending(s, g) && UpToDate(s, g)
    requires SmallGroups(s.rows, g, s.gateways[g].lastPolled)
    requires CalmRun(s, steps, g) && Visits(s, steps, g) > |Undelivered(s, g)|
    ensures var t := Run(s, steps);
      Attending(t, g) && t.gateways[g].knownVersion == t.versions[g] && Undelivered(t, g) == {}
  {
    StartsOnCourse(s, g);
    RunStaysOnCourse(s, steps, g, s.rows, s.gateways[g].lastPolled, |Undelivered(s, g)|);
    NoneToGo(Run(s, steps), g, s.rows, s.gateways[g].lastPolled, |Undelivered(s, g)| - Visits(s, steps, g));
  }

  // ------------------------------------------- from wherever the poller stands

  /** No rows of the gateway are added, and nothing that was handed out is forgotten. */
  ghost predicate Shrinks(s: State, t: State, g: GatewayId) {
    && g in s.gateways && g in t.gateways && s.gateways[g].lastPolled <= t.gateways[g].lastPolled
    && Handed(s.log) <= Handed(t.log) && forall r | r in t.rows && r.gatewayId == g :: r in s.rows
  }

  lemma LoopShrinks(s: State, step: Step, g: GatewayId)
    requires Enabled(s, step) && LoopStep(step) && g in s.gateways
    ensures Shrinks(s, Do(s, step), g)
  {
    HandOutStepFrame(s, step);
    if s.poll.rest != [] { LogGrows(s.log, s.poll.rest[0], s.gateways[s.poll.id].subscribers); }
  }

  lemma EarlyStepShrinks(s: State, step: Step, g: GatewayId)
    requires Enabled(s, step) && PollerStep(step) && !LoopStep(step) && !step.WriteBack? && g in s.gateways
    ensures Shrinks(s, Do(s, step), g) && Do(s, step).versions == s.versions
  {
  }

  lemma CallerShrinks(s: State, step: Step, g: GatewayId)
    requires Attending(s, g) && Enabled(s, step) && !PollerStep(step) && Calm(s, step, g)
    ensures Shrinks(s, Do(s, step), g) && g in Do(s, step).versions && Do(s, step).versions[g] == s.versions[g]
  {
    if RegistryStep(step) { RegistryStepLeavesCourse(s, step, g); } else { OtherStepLeavesCourse(s, step, g); }
  }

  lemma StepShrinks(s: State, step: Step, g: GatewayId)
    requires Inv(s) && Attending(s, g) && Enabled(s, step) && Calm(s, step, g)
    ensures Shrinks(s, Do(s, step), g) && g in Do(s, step).versions && Do(s, step).versions[g] == s.versions[g]
  {
    if !PollerStep(step) {
      CallerShrinks(s, step, g);
    } else if LoopStep(step) {
      HandOutStepFrame(s, step);
      LoopShrinks(s, step, g);
    } else if step.WriteBack? {
      WrittenBack(s, g);
    } else {
      EarlyStepShrinks(s, step, g);
    }
  }

  lemma ShrinksKeepsSmall(s: State, t: State, g: GatewayId)
    requires Shrinks(s, t, g) && SmallGroups(s.rows, g, s.gateways[g].lastPolled)
    ensures SmallGroups(t.rows, g, t.gateways[g].lastPolled) && |Undelivered(t, g)| <= |Undelivered(s, g)|
  {
    SubsetCount(Undelivered(t, g), Undelivered(s, g));
    forall k | k >= t.gateways[g].lastPolled ensures |Group(t.rows, g, k)| < CHANNEL_CAPACITY {
      SubsetCount(Group(t.rows, g, k), Group(s.rows, g, k));
    }
  }

  /** After a visit nothing of the gateway is left in the page or in flight. */
  lemma VisitIsOver(s: State, step: Step, g: GatewayId)
    requires Inv(s) && Visit(s, step, g) && g in Do(s, step).versions
    ensures UpToDate(Do(s, step), g)
  {
    if step.Snapshot? { assert Do(s, step).page == s.page[1..]; }
  }

  lemma NextAttends(s: State, step: Step, g: GatewayId)
    requires Inv(s) && WakeInv(s) && Attending(s, g) && Calm(s, step, g)
    requires SmallGroups(s.rows, g, s.gateways[g].lastPolled)
    ensures var t := Apply(s, step);
      && Inv(t) && WakeInv(t) && Attending(t, g) && SmallGroups(t.rows, g, t.gateways[g].lastPolled)
      && |Undelivered(t, g)| <= |Undelivered(s, g)| && (Visit(s, step, g) ==> UpToDate(t, g))
  {
    StepKeepsInv(s, step);
    if Enabled(s, step) {
      StepKeepsWakeInv(s, step);
      CursorStays(s, step, g);
      StepShrinks(s, step, g);
      ShrinksKeepsSmall(s, Do(s, step), g);
      if Visit(s, step, g) { VisitIsOver(s, step, g); }
    }
  }

  /** If from the cursor on fewer rows of the gateway share a timestamp than a channel holds, then in every calm run, from
      whatever the poller is doing, two visits more than there are undelivered rows bring the known version to the stored
      one, with every retained row from the cursor on handed out. */
  lemma {:induction false} CatchesUp(s: State, steps: seq<Step>, g: GatewayId)
    requires Inv(s) && WakeInv(s) && Attending(s, g) && SmallGroups(s.rows, g, s.gateways[g].lastPolled)
    requires CalmRun(s, steps, g) && Visits(s, steps, g) > |Undelivered(s, g)| + 1
    ensures var t := Run(s, steps);
      Attending(t, g) && t.gateways[g].knownVersion == t.versions[g] && Undelivered(t, g) == {}
    decreases |steps|
  {
    NextAttends(s, steps[0], g);
    if Visit(s, steps[0], g) {
      CatchesUpFrom(Apply(s, steps[0]), steps[1..], g);
    } else {
      CatchesUp(Apply(s, steps[0]), steps[1..], g);
    }
  }
}
