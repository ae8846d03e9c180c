// How late a row may commit: a row that commits out of timestamp order is safe in
// every attended continuation if and only if it is not before the horizon, the
// timestamp that the cursor may reach with what the poll in flight has already fetched.
module HubLateCommits {
  import opened HubModel
  import opened HubInvariant
  import opened HubDelivery
  import opened HubHandOuts
  import opened HubRuns

  /** What the poll in flight has fetched and may still hand out, or has handed out. */
  function Upcoming(poll: Poll): seq<Event> {
    if poll.HandedOut? then poll.delivered else Batch(poll)
  }

  function Horizon(gateways: Gateways, poll: Poll, g: GatewayId): int
    requires g in gateways
  {
    if !poll.Idle? && poll.id == g then NextCursor(gateways[g].lastPolled, Upcoming(poll)) else gateways[g].lastPolled
  }

  /** Attendance and cleanup are as assumed; only the commit order is not. */
  ghost predicate Served(s: State, step: Step) {
    AfterCleanup(s, step) && Attended(s, step)
  }

  // -------------------------------------------------- not before the horizon

  /** The poll in flight has the row in its batch, or will not pass it. */
  ghost predicate NotPassed(poll: Poll, e: Event) {
    && (poll.Fetched? && poll.id == e.gatewayId ==> e in poll.batch || NotBefore(e, poll.batch))
    && (poll.Handing? && poll.id == e.gatewayId ==> e in poll.rest || NotBefore(e, poll.delivered + poll.rest))
    && (poll.HandedOut? && poll.id == e.gatewayId ==> NotBefore(e, poll.delivered))
  }

  /** The gateway has a cursor, or a batch of its first poll is in flight and will give it one. */
  ghost predicate Started(gateways: Gateways, poll: Poll, g: GatewayId) {
    g in gateways && (gateways[g].lastPolled != 0 || (!poll.Idle? && poll.id == g && Upcoming(poll) != []))
  }

  ghost predicate Tracked(gateways: Gateways, poll: Poll, rows: set<Event>, log: seq<Delivery>, e: Event) {
    && Started(gateways, poll, e.gatewayId)
    && (e in Handed(log) ==> e in Received(log))
    && (poll.Handing? && e in poll.rest ==> poll.id in gateways && gateways[poll.id].subscribers != [])
    && (e in rows && e !in Handed(log) ==> gateways[e.gatewayId].lastPolled <= e.processed && NotPassed(poll, e))
  }

  ghost predicate Safe(s: State, e: Event) {
    e in s.committed && Tracked(s.gateways, s.poll, s.rows, s.log, e)
  }

  lemma SafeIsAccounted(s: State, e: Event)
    requires Inv(s) && WakeInv(s) && Safe(s, e)
    ensures Accounted(s, e)
  {
    var g := e.gatewayId;
    if e in s.rows && e !in Handed(s.log) && e.processed == s.gateways[g].lastPolled {
      assert CursorOk(s.gateways[g], g, Handed(s.log));
      var f :| f in Handed(s.log) && f.gatewayId == g && f.processed == s.gateways[g].lastPolled;
      assert f in Out(s.log, s.poll);
      assert f in s.rows && f != e;
    }
  }

  lemma PassKeepsTracked(gateways: Gateways, poll: Poll, rows: set<Event>, log: seq<Delivery>, e: Event)
    requires Tracked(gateways, poll, rows, log, e) && poll.Handing? && poll.id in gateways && poll.rest != []
    ensures Tracked(gateways, poll.(delivered := poll.delivered + [poll.rest[0]], rest := poll.rest[1..], todo := []), rows,
                    log + [Delivery(poll.rest[0], gateways[poll.id].subscribers)], e)
  {
    LogGrows(log, poll.rest[0], gateways[poll.id].subscribers);
    assert poll.rest == [poll.rest[0]] + poll.rest[1..];
    assert (poll.delivered + [poll.rest[0]]) + poll.rest[1..] == poll.delivered + poll.rest;
  }

  lemma EndKeepsTracked(gateways: Gateways, poll: Poll, rows: set<Event>, log: seq<Delivery>, e: Event, blocked: bool)
    requires Tracked(gateways, poll, rows, log, e) && poll.Handing? && TimeOrdered(poll.delivered + poll.rest)
    requires poll.id in gateways && (poll.delivered == [] && poll.rest != [] ==> gateways[poll.id].lastPolled != 0)
    ensures Tracked(gateways, HandedOut(poll.id, poll.version, poll.since, poll.resuming, poll.delivered, blocked),
                    rows, log, e)
  {
    if e in poll.rest { RestIsLater(poll.delivered + poll.rest, poll.delivered, poll.rest, e); }
  }

  /** A hand-out that is blocked before its first event resumes from a cursor. */
  lemma StuckHasCursor(s: State)
    requires Inv(s) && Enabled(s, OfferNext)
    requires s.poll.rest != [] ==> !ChannelsAvailable(s.channels, s.gateways[s.poll.id].subscribers)
    ensures s.poll.delivered == [] && s.poll.rest != [] ==> s.gateways[s.poll.id].lastPolled != 0
  {
    if s.poll.delivered == [] && s.poll.rest != [] {
      var c :| c in s.gateways[s.poll.id].subscribers && c in s.channels && |s.channels[c].buffer| == CHANNEL_CAPACITY;
      FirstPollNeverStuck(s, c);
    }
  }

  lemma LastOfferKeepsSafe(s: State, e: Event)
    requires Inv(s) && Safe(s, e) && Enabled(s, OfferNext)
    requires s.poll.rest == [] || !ChannelsAvailable(s.channels, s.gateways[s.poll.id].subscribers)
    ensures Safe(DoOffer(s), e)
  {
    StuckHasCursor(s);
    EndKeepsTracked(s.gateways, s.poll, s.rows, s.log, e, s.poll.rest != []);
  }

  lemma TakeUpKeepsSafe(s: State, todo: seq<ChanId>, e: Event)
    requires Safe(s, e) && s.poll.Handing?
    ensures Safe(s.(poll := s.poll.(todo := todo)), e)
  {
  }

  lemma OfferKeepsSafe(s: State, e: Event)
    requires Inv(s) && Safe(s, e) && Enabled(s, OfferNext)
    ensures Safe(DoOffer(s), e)
  {
    var p, subscribers := s.poll, s.gateways[s.poll.id].subscribers;
    if p.rest == [] || !ChannelsAvailable(s.channels, subscribers) {
      LastOfferKeepsSafe(s, e);
    } else if subscribers == [] {
      PassKeepsTracked(s.gateways, p, s.rows, s.log, e);
    } else {
      TakeUpKeepsSafe(s, subscribers, e);
    }
  }

  lemma SendKeepsSafe(s: State, e: Event)
    requires Safe(s, e) && Enabled(s, SendNext)
    ensures Safe(DoSend(s), e)
  {
    SendStays(s);
    PassKeepsTracked(s.gateways, s.poll, s.rows, s.log, e);
  }

  lemma HandOutKeepsSafe(s: State, e: Event)
    requires Inv(s) && Safe(s, e) && s.poll.Fetched? && Attended(s, HandOut)
    ensures Safe(DoHandOut(s), e)
  {
    assert [] + s.poll.batch == s.poll.batch;
  }

  lemma FetchKeepsTracked(gateways: Gateways, poll: Poll, rows: set<Event>, log: seq<Delivery>, e: Event, batch: seq<Event>)
    requires Tracked(gateways, poll, rows, log, e) && poll.Snapped?
    requires AllHanded(rows, Handed(log) + (set b | b in batch), poll.id, poll.since)
    requires poll.id == e.gatewayId ==> poll.since == gateways[poll.id].lastPolled
    ensures Tracked(gateways, Fetched(poll.id, poll.version, poll.since, poll.resuming, batch), rows, log, e)
  {
  }

  lemma FetchKeepsSafe(s: State, result: seq<Event>, e: Event)
    requires Inv(s) && WakeInv(s) && Safe(s, e) && Enabled(s, Fetch(result))
    ensures Safe(DoFetch(s, result), e)
  {
    CursorInRange(s, e.gatewayId);
    FetchCovers(s, result);
    FetchKeepsTracked(s.gateways, s.poll, s.rows, s.log, e,
                      TrimSingleBoundaryReplay(result, s.poll.since, s.poll.resuming));
  }

  lemma WriteBackKeepsSafe(s: State, e: Event)
    requires Inv(s) && Safe(s, e) && s.poll.HandedOut?
    ensures Safe(DoWriteBack(s), e)
  {
    WriteBackReachesReach(s);
    CursorInRange(s, e.gatewayId);
    if s.poll.delivered != [] { assert s.poll.delivered[|s.poll.delivered| - 1] in s.poll.delivered; }
  }

  lemma SameForSafe(s: State, t: State, e: Event)
    requires Safe(s, e) && t.gateways == s.gateways && t.log == s.log && s.committed <= t.committed
    requires e in t.rows ==> e in s.rows
    requires t.poll == s.poll || ((s.poll.Idle? || s.poll.Snapped?) && (t.poll.Idle? || t.poll.Snapped?))
    ensures Safe(t, e)
  {
  }

  lemma PollerStepKeepsSafe(s: State, step: Step, e: Event)
    requires Inv(s) && WakeInv(s) && Safe(s, e) && Enabled(s, step) && PollerStep(step) && Attended(s, step)
    ensures Safe(Do(s, step), e)
  {
    if step.HandOut? {
      HandOutKeepsSafe(s, e);
    } else if step.OfferNext? {
      OfferKeepsSafe(s, e);
    } else if step.SendNext? {
      SendKeepsSafe(s, e);
    } else if step.WriteBack? {
      WriteBackKeepsSafe(s, e);
    } else {
      EarlyStepKeepsSafe(s, step, e);
    }
  }

  lemma EarlyStepKeepsSafe(s: State, step: Step, e: Event)
    requires Inv(s) && WakeInv(s) && Safe(s, e) && Enabled(s, step) && PollerStep(step)
    requires !step.HandOut? && !step.OfferNext? && !step.SendNext? && !step.WriteBack?
    ensures Safe(Do(s, step), e)
  {
    if step.Fetch? {
      FetchKeepsSafe(s, step.result, e);
    } else if step.Snapshot? {
      SnapshotKeepsSafe(s, step.now, e);
    } else {
      RowStepKeepsSafe(s, step, e);
    }
  }

  lemma RowStepKeepsSafe(s: State, step: Step, e: Event)
    requires Safe(s, e) && Enabled(s, step) && (step.ReadPage? || step.SkipRow? || step.AbortFetch? || step.Stop?)
    ensures Safe(Do(s, step), e)
  {
    SameForSafe(s, Do(s, step), e);
  }

  lemma SnapshotKeepsSafe(s: State, now: int, e: Event)
    requires Safe(s, e) && s.poll.Idle? && s.page != []
    ensures Safe(DoSnapshot(s, now), e)
  {
    SameForSafe(s, DoSnapshot(s, now), e);
  }

  lemma RegistryFrameKeepsTracked(gateways: Gateways, poll: Poll, rows: set<Event>, log: seq<Delivery>, e: Event, gateways': Gateways)
    requires Tracked(gateways, poll, rows, log, e) && RegistryFrame(gateways, gateways') && !poll.Handing?
    ensures Tracked(gateways', poll, rows, log, e)
  {
  }

  lemma RegistryStepKeepsSafe(s: State, step: Step, e: Event)
    requires Inv(s) && Safe(s, e) && Enabled(s, step) && RegistryStep(step)
    ensures Safe(Do(s, step), e)
  {
    RegistryStepLeaves(s, step);
    RegistryStepFrame(s, step);
    RegistryFrameKeepsTracked(s.gateways, s.poll, s.rows, s.log, e, Do(s, step).gateways);
  }

  lemma OtherStepFrame(s: State, step: Step, e: Event)
    requires Enabled(s, step) && !PollerStep(step) && !RegistryStep(step) && AfterCleanup(s, step) && e in s.committed
    ensures var t := Do(s, step);
      && t.gateways == s.gateways && t.log == s.log && t.poll == s.poll && s.committed <= t.committed
      && (e in t.rows ==> e in s.rows)
  {
  }

  lemma CallerStepKeepsSafe(s: State, step: Step, e: Event)
    requires Inv(s) && Safe(s, e) && Enabled(s, step) && !PollerStep(step) && AfterCleanup(s, step)
    ensures Safe(Do(s, step), e)
  {
    if RegistryStep(step) {
      RegistryStepKeepsSafe(s, step, e);
    } else {
      OtherStepFrame(s, step, e);
      SameForSafe(s, Do(s, step), e);
    }
  }

  lemma StepKeepsSafe(s: State, step: Step, e: Event)
    requires Inv(s) && WakeInv(s) && Safe(s, e) && Enabled(s, step) && Served(s, step)
    ensures Safe(Do(s, step), e)
  {
    if PollerStep(step) { PollerStepKeepsSafe(s, step, e); } else { CallerStepKeepsSafe(s, step, e); }
  }

  /** A row that is safe stays accounted for in every attended run. */
  lemma {:induction false} RunKeepsSafe(s: State, steps: seq<Step>, e: Event)
    requires Inv(s) && WakeInv(s) && Safe(s, e) && Throughout(s, steps, Served)
    ensures e.gatewayId in Run(s, steps).gateways && Accounted(Run(s, steps), e)
    decreases |steps|
  {
    if steps == [] {
      SafeIsAccounted(s, e);
    } else {
      var step := steps[0];
      StepKeepsInv(s, step);
      if Enabled(s, step) {
        StepKeepsWakeInv(s, step);
        StepKeepsSafe(s, step, e);
      }
      RunKeepsSafe(Apply(s, step), steps[1..], e);
    }
  }

  /** Not before the last of them means not before any of them. */
  lemma NotBeforeLast(es: seq<Event>, e: Event)
    requires TimeOrdered(es) && es != [] && es[|es| - 1].processed <= e.processed
    ensures NotBefore(e, es)
  {
    forall b | b in es ensures b.processed <= e.processed {
      var k :| 0 <= k < |es| && es[k] == b;
    }
  }

  lemma UpcomingOk(s: State)
    requires Inv(s)
    ensures TimeOrdered(Upcoming(s.poll))
    ensures forall b | b in Upcoming(s.poll) ::
      b in s.committed && b.gatewayId == s.poll.id && s.poll.id in s.gateways
      && s.gateways[s.poll.id].lastPolled <= b.processed
  {
    if s.poll.Fetched? || s.poll.Handing? {
      BatchStartsAtCursor(s);
    } else if s.poll.HandedOut? {
      CursorInRange(s, s.poll.id);
    }
  }

  ghost predicate LateCommit(s: State, e: Event, v: Version) {
    && Inv(s) && WakeInv(s) && Enabled(s, Publish(e, v)) && AfterCleanup(s, Publish(e, v))
    && Started(s.gateways, s.poll, e.gatewayId)
  }

  lemma NewRow(s: State, e: Event, v: Version)
    requires LateCommit(s, e, v)
    ensures e !in s.committed && e !in Out(s.log, s.poll) && e !in Handed(s.log) && e !in Upcoming(s.poll)
  {
    UpcomingOk(s);
    assert forall x | x in Out(s.log, s.poll) :: x in s.committed;
  }

  lemma AheadIsTracked(gateways: Gateways, poll: Poll, rows: set<Event>, log: seq<Delivery>, e: Event)
    requires Started(gateways, poll, e.gatewayId) && e !in Handed(log) && e !in Upcoming(poll)
    requires TimeOrdered(Upcoming(poll))
    requires forall b | b in Upcoming(poll) :: poll.id in gateways && gateways[poll.id].lastPolled <= b.processed
    requires e.processed >= Horizon(gateways, poll, e.gatewayId)
    ensures Tracked(gateways, poll, rows, log, e)
  {
    var es := Upcoming(poll);
    if es != [] && poll.id == e.gatewayId {
      assert es[|es| - 1] in es;
      NotBeforeLast(es, e);
    }
  }

  lemma AheadIsSafe(s: State, e: Event, v: Version)
    requires LateCommit(s, e, v) && e.processed >= Horizon(s.gateways, s.poll, e.gatewayId)
    ensures Safe(DoPublish(s, e, v), e)
  {
    NewRow(s, e, v);
    UpcomingOk(s);
    AheadIsTracked(s.gateways, s.poll, s.rows + {e}, s.log, e);
  }

  // ------------------------------------------------------ before the horizon

  lemma Unaccounted(s: State, e: Event)
    requires e.gatewayId in s.gateways && e in s.rows && e !in Handed(s.log)
    requires e.processed < s.gateways[e.gatewayId].lastPolled
    ensures !Accounted(s, e)
  {
    assert forall x | x in Received(s.log) :: x in Handed(s.log);
  }

  /** The write-back that passes the row. */
  lemma WriteBackLoses(u: State, e: Event)
    requires Inv(u) && u.poll.HandedOut? && u.poll.id == e.gatewayId && e in u.rows && e !in Handed(u.log)
    requires e.processed < NextCursor(u.gateways[u.poll.id].lastPolled, u.poll.delivered)
    ensures Enabled(u, WriteBack) && e.gatewayId in DoWriteBack(u).gateways && !Accounted(DoWriteBack(u), e)
  {
    WriteBackReachesReach(u);
    Unaccounted(DoWriteBack(u), e);
  }

  /** The run is attended and ends with the row lost. */
  ghost predicate Loses(t: State, e: Event, steps: seq<Step>) {
    Throughout(t, steps, Served) && e.gatewayId in Run(t, steps).gateways && !Accounted(Run(t, steps), e)
  }

  lemma LosesVia(t: State, steps: seq<Step>, more: seq<Step>, e: Event)
    requires Throughout(t, steps, Served) && Loses(Run(t, steps), e, more)
    ensures Loses(t, e, steps + more)
  {
    RunConcat(t, steps, more);
    ThroughoutConcat(t, steps, more, Served);
  }

  lemma LosesAfter(t: State, step: Step, t': State, more: seq<Step>, e: Event)
    requires Served(t, step) && t' == Apply(t, step) && Loses(t', e, more)
    ensures Loses(t, e, [step] + more)
  {
    assert ([step] + more)[1..] == more;
  }

  lemma NoPublishIsServed(t: State, steps: seq<Step>)
    requires forall step | step in steps :: !step.Publish? && !step.HandOut?
    ensures Throughout(t, steps, Served)
  {
    ThroughoutOf(t, steps, Served);
  }

  lemma LoopIsServed(t: State, steps: seq<Step>)
    requires OnlyLoopOrReceive(steps)
    ensures Throughout(t, steps, Served)
  {
    NoPublishIsServed(t, steps);
  }

  /** The row is retained, has not been handed out and is not part of what the poll in flight has fetched. */
  ghost predicate PassedOver(t: State, e: Event) {
    && !t.poll.Idle? && t.poll.id == e.gatewayId && t.poll.id in t.gateways
    && e in t.rows && e !in Handed(t.log) && e !in Upcoming(t.poll)
    && e.processed < NextCursor(t.gateways[t.poll.id].lastPolled, Upcoming(t.poll))
  }

  lemma CompletedPassesOver(t: State, u: State, e: Event)
    requires PassedOver(t, e) && t.poll.Handing? && StaysWithPoll(t, u) && Goes(t, u) && u.poll.HandedOut? && !u.poll.blocked
    ensures PassedOver(u, e)
  {
    assert forall x | x in t.poll.rest :: x in t.poll.delivered + t.poll.rest;
  }

  lemma HandedOutLoses(t: State, e: Event)
    requires Inv(t) && t.poll.HandedOut? && PassedOver(t, e)
    ensures Loses(t, e, [WriteBack])
  {
    WriteBackLoses(t, e);
    RunOne(t, WriteBack);
    NoPublishIsServed(t, [WriteBack]);
  }

  lemma HandingEnds(t: State, e: Event) returns (during: seq<Step>)
    requires Inv(t) && t.poll.Handing? && PassedOver(t, e)
    ensures Throughout(t, during, Served)
    ensures var u := Run(t, during); Inv(u) && u.poll.HandedOut? && PassedOver(u, e)
  {
    during := Completed(t);
    RunKeepsInv(t, during);
    CompletedPassesOver(t, Run(t, during), e);
    LoopIsServed(t, during);
  }

  lemma HandingLoses(t: State, e: Event) returns (steps: seq<Step>)
    requires Inv(t) && t.poll.Handing? && PassedOver(t, e)
    ensures Loses(t, e, steps)
  {
    var during := HandingEnds(t, e);
    HandedOutLoses(Run(t, during), e);
    LosesVia(t, during, [WriteBack], e);
    steps := during + [WriteBack];
  }

  lemma HandOutPassesOver(t: State, e: Event)
    requires t.poll.Fetched? && PassedOver(t, e)
    ensures PassedOver(DoHandOut(t), e)
  {
    assert [] + t.poll.batch == t.poll.batch;
  }

  /** With a subscriber present the hand-out is attended, and the row is passed all the same. */
  lemma FetchedLoses(t: State, e: Event) returns (steps: seq<Step>)
    requires Inv(t) && t.poll.Fetched? && PassedOver(t, e) && t.gateways[t.poll.id].subscribers != []
    ensures Loses(t, e, steps)
  {
    var more := LockedLoses(t, e);
    LockApplies(t);
    LosesAfter(t, HandOut, DoHandOut(t), more, e);
    steps := [HandOut] + more;
  }

  lemma LockedLoses(t: State, e: Event) returns (more: seq<Step>)
    requires Inv(t) && t.poll.Fetched? && PassedOver(t, e)
    ensures Loses(DoHandOut(t), e, more)
  {
    StepKeepsInv(t, HandOut);
    LockApplies(t);
    HandOutPassesOver(t, e);
    more := HandingLoses(DoHandOut(t), e);
  }

  /** If nobody is there, somebody may subscribe first. */
  lemma NewSubscriber(t: State, c: ChanId)
    requires Inv(t) && t.poll.Fetched? && c !in t.channels && t.poll.id in t.gateways
    ensures var t' := Apply(t, Subscribe(t.poll.id, c));
      && Inv(t') && t'.poll == t.poll && t'.rows == t.rows && t'.log == t.log && t.poll.id in t'.gateways
      && t'.gateways[t.poll.id].subscribers != []
      && t'.gateways[t.poll.id].lastPolled == t.gateways[t.poll.id].lastPolled
  {
    StepKeepsInv(t, Subscribe(t.poll.id, c));
  }

  lemma {:induction false} FreshChannel(channels: Channels) returns (c: ChanId)
    ensures c !in channels
  {
    c := 0;
    var left := channels.Keys;
    while left != {}
      invariant forall k | k in channels && k !in left :: k < c
      decreases left
    {
      var k :| k in left;
      left := left - {k};
      if k >= c { c := k + 1; }
    }
  }

  lemma UnattendedLoses(t: State, e: Event) returns (steps: seq<Step>)
    requires Inv(t) && t.poll.Fetched? && PassedOver(t, e)
    ensures Loses(t, e, steps)
  {
    var c := FreshChannel(t.channels);
    NewSubscriber(t, c);
    var t' := Apply(t, Subscribe(t.poll.id, c));
    var more := FetchedLoses(t', e);
    LosesAfter(t, Subscribe(t.poll.id, c), t', more, e);
    steps := [Subscribe(t.poll.id, c)] + more;
  }

  lemma PublishIsPassedOver(s: State, e: Event, v: Version)
    requires LateCommit(s, e, v) && e.processed < Horizon(s.gateways, s.poll, e.gatewayId)
    requires e.processed >= s.gateways[e.gatewayId].lastPolled
    ensures PassedOver(DoPublish(s, e, v), e) && Upcoming(s.poll) != []
  {
    NewRow(s, e, v);
  }

  lemma BehindIsLost(s: State, e: Event, v: Version) returns (steps: seq<Step>)
    requires LateCommit(s, e, v) && e.processed < Horizon(s.gateways, s.poll, e.gatewayId)
    ensures Loses(DoPublish(s, e, v), e, steps)
  {
    var t := DoPublish(s, e, v);
    StepKeepsInv(s, Publish(e, v));
    if e.processed < s.gateways[e.gatewayId].lastPolled {
      NewRow(s, e, v);
      steps := [];
      Unaccounted(t, e);
    } else {
      PublishIsPassedOver(s, e, v);
      if t.poll.HandedOut? {
        HandedOutLoses(t, e);
        steps := [WriteBack];
      } else if t.poll.Handing? {
        steps := HandingLoses(t, e);
      } else {
        steps := UnattendedLoses(t, e);
      }
    }
  }

  /** In every attended continuation the row is accounted for, at every point. */
  ghost predicate NeverLost(t: State, e: Event) {
    forall steps | Throughout(t, steps, Served) :: e.gatewayId in Run(t, steps).gateways && Accounted(Run(t, steps), e)
  }

  /** A row that commits for a gateway with a cursor, or with a batch of its first poll in flight, in whatever order and
      phase, can never be lost in an attended run if and only if it is not before the horizon. */
  lemma CommitIsSafeIff(s: State, e: Event, v: Version)
    requires LateCommit(s, e, v)
    ensures NeverLost(DoPublish(s, e, v), e) <==> e.processed >= Horizon(s.gateways, s.poll, e.gatewayId)
  {
    var t := DoPublish(s, e, v);
    if e.processed >= Horizon(s.gateways, s.poll, e.gatewayId) {
      AheadIsSafe(s, e, v);
      StepKeepsInv(s, Publish(e, v));
      PublishKeepsWake(s, e, v);
      forall steps | Throughout(t, steps, Served)
        ensures e.gatewayId in Run(t, steps).gateways && Accounted(Run(t, steps), e)
      {
        RunKeepsSafe(t, steps, e);
      }
    } else {
      var steps := BehindIsLost(s, e, v);
    }
  }
}
