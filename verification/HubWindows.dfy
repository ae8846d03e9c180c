// Which late commits break the promise of no loss: the promise begins with the window
// that the first delivering poll of a gateway replays, and every row that commits, for
// whatever gateway and whatever is in flight, keeps it or breaks it by its timestamp alone.
module HubWindows {
  import opened HubModel
  import opened HubInvariant
  import opened HubDelivery
  import opened HubLateCommits

  /** Where the promise begins: at the recorded window, or at the window of the first poll in flight. */
  ghost function Window(gateways: Gateways, origin: map<GatewayId, int>, poll: Poll, g: GatewayId): int
    requires Started(gateways, poll, g)
  {
    if gateways[g].lastPolled == 0 then poll.since else if g in origin then origin[g] else 0
  }

  ghost predicate WindowAt(s: State, g: GatewayId, start: int) {
    Started(s.gateways, s.poll, g) && Window(s.gateways, s.origin, s.poll, g) == start
  }

  // ------------------------------------------------------- the window is fixed

  /** The step keeps cursors and windows of gateways that are there; new ones have no cursor. */
  ghost predicate SameCursors(s: State, t: State) {
    && t.origin == s.origin && s.gateways.Keys <= t.gateways.Keys
    && forall g | g in t.gateways ::
         t.gateways[g].lastPolled == if g in s.gateways then s.gateways[g].lastPolled else 0
  }

  lemma CallerKeepsCursors(s: State, step: Step)
    requires Enabled(s, step) && !PollerStep(step)
    ensures SameCursors(s, Do(s, step)) && Do(s, step).poll == s.poll
  {
    if RegistryStep(step) {
      RegistryStepFrame(s, step);
      RegistryStepLeaves(s, step);
    }
  }

  lemma PollerKeepsCursors(s: State, step: Step)
    requires Enabled(s, step) && PollerStep(step) && !step.WriteBack?
    ensures SameCursors(s, Do(s, step))
  {
    match step {
      case HandOut | OfferNext | SendNext => HandOutStepFrame(s, step);
      case ReadPage(_) | SkipRow | Snapshot(_) | Fetch(_) | AbortFetch | Stop =>
    }
  }

  /** Something is in flight for the gateway before and after, or neither time. */
  ghost predicate SameFlight(poll: Poll, poll': Poll, g: GatewayId) {
    var before := !poll.Idle? && poll.id == g && Upcoming(poll) != [];
    var after := !poll'.Idle? && poll'.id == g && Upcoming(poll') != [];
    before == after && (before ==> poll'.since == poll.since)
  }

  /** Whether the promise has begun for the gateway, and where, is the same as before. */
  ghost predicate KeepsWindow(s: State, t: State, g: GatewayId) {
    && (Started(s.gateways, s.poll, g) <==> Started(t.gateways, t.poll, g))
    && (Started(s.gateways, s.poll, g) ==> WindowAt(t, g, Window(s.gateways, s.origin, s.poll, g)))
  }

  lemma SameWindow(s: State, t: State, g: GatewayId)
    requires SameCursors(s, t) && ((g in s.gateways && s.gateways[g].lastPolled != 0) || SameFlight(s.poll, t.poll, g))
    requires g !in s.gateways ==> s.poll.Idle? || s.poll.id != g
    ensures KeepsWindow(s, t, g)
  {
  }

  lemma FlightIsKnown(s: State)
    requires Inv(s) && !s.poll.Idle?
    ensures s.poll.id in s.gateways
  {
  }

  lemma OfferKeepsFlight(s: State, g: GatewayId)
    requires Inv(s) && Enabled(s, OfferNext) && s.gateways[s.poll.id].lastPolled == 0
    ensures SameFlight(s.poll, DoOffer(s).poll, g)
  {
    var p, subscribers := s.poll, s.gateways[s.poll.id].subscribers;
    if p.rest == [] || !ChannelsAvailable(s.channels, subscribers) {
      StuckHasCursor(s);
    }
  }

  lemma SendKeepsFlight(s: State, g: GatewayId)
    requires Enabled(s, SendNext)
    ensures SameFlight(s.poll, DoSend(s).poll, g)
  {
  }

  lemma HandOutKeepsFlight(s: State, g: GatewayId)
    requires Enabled(s, HandOut)
    ensures SameFlight(s.poll, DoHandOut(s).poll, g)
  {
    assert [] + s.poll.batch == s.poll.batch;
  }

  lemma OtherFlight(s: State, step: Step, g: GatewayId)
    requires Enabled(s, step) && (step.HandOut? || step.OfferNext? || step.SendNext?) && s.poll.id != g
    ensures SameFlight(s.poll, Do(s, step).poll, g)
  {
    HandOutStepFrame(s, step);
  }

  lemma LoopKeepsFlight(s: State, step: Step, g: GatewayId)
    requires Inv(s) && Enabled(s, step) && (step.HandOut? || step.OfferNext? || step.SendNext?)
    requires g in s.gateways && s.gateways[g].lastPolled == 0
    ensures SameFlight(s.poll, Do(s, step).poll, g)
  {
    if s.poll.id != g {
      OtherFlight(s, step, g);
    } else if step.HandOut? {
      HandOutKeepsFlight(s, g);
    } else if step.OfferNext? {
      OfferKeepsFlight(s, g);
    } else {
      SendKeepsFlight(s, g);
    }
  }

  lemma EarlyStepKeepsFlight(s: State, step: Step, g: GatewayId)
    requires Enabled(s, step)
    requires step.ReadPage? || step.SkipRow? || step.Snapshot? || step.AbortFetch? || step.Stop?
    ensures SameFlight(s.poll, Do(s, step).poll, g)
  {
  }

  lemma LoopKeepsWindow(s: State, step: Step, g: GatewayId)
    requires Inv(s) && Enabled(s, step) && (step.HandOut? || step.OfferNext? || step.SendNext?)
    ensures KeepsWindow(s, Do(s, step), g)
  {
    FlightIsKnown(s);
    PollerKeepsCursors(s, step);
    if g in s.gateways && s.gateways[g].lastPolled == 0 {
      LoopKeepsFlight(s, step, g);
    } else if g !in s.gateways {
      OtherFlight(s, step, g);
    }
    SameWindow(s, Do(s, step), g);
  }

  lemma EarlyStepKeepsWindow(s: State, step: Step, g: GatewayId)
    requires Inv(s) && Enabled(s, step)
    requires step.ReadPage? || step.SkipRow? || step.Snapshot? || step.AbortFetch? || step.Stop?
    ensures KeepsWindow(s, Do(s, step), g)
  {
    if !s.poll.Idle? { FlightIsKnown(s); }
    PollerKeepsCursors(s, step);
    EarlyStepKeepsFlight(s, step, g);
    SameWindow(s, Do(s, step), g);
  }

  lemma CallerKeepsWindow(s: State, step: Step, g: GatewayId)
    requires Inv(s) && Enabled(s, step) && !PollerStep(step)
    ensures KeepsWindow(s, Do(s, step), g)
  {
    if !s.poll.Idle? { FlightIsKnown(s); }
    CallerKeepsCursors(s, step);
    SameWindow(s, Do(s, step), g);
  }

  lemma WriteBackKeepsWindow(s: State, g: GatewayId)
    requires Inv(s) && s.poll.HandedOut?
    ensures KeepsWindow(s, DoWriteBack(s), g)
  {
    WriteBackReachesReach(s);
    CursorInRange(s, s.poll.id);
    if s.poll.delivered != [] { assert s.poll.delivered[|s.poll.delivered| - 1] in s.poll.delivered; }
  }

  lemma FetchKeepsWindow(s: State, result: seq<Event>, g: GatewayId)
    requires Inv(s) && s.poll.Snapped? && Started(s.gateways, s.poll, g)
    ensures KeepsWindow(s, DoFetch(s, result), g)
  {
  }

  lemma PollerStepKeepsWindow(s: State, step: Step, g: GatewayId)
    requires Inv(s) && Enabled(s, step) && PollerStep(step) && (step.Fetch? ==> Started(s.gateways, s.poll, g))
    ensures KeepsWindow(s, Do(s, step), g)
  {
    if step.Fetch? {
      FetchKeepsWindow(s, step.result, g);
    } else if step.WriteBack? {
      WriteBackKeepsWindow(s, g);
    } else if step.HandOut? || step.OfferNext? || step.SendNext? {
      LoopKeepsWindow(s, step, g);
    } else {
      EarlyStepKeepsWindow(s, step, g);
    }
  }

  /** Only a fetch begins the promise for a gateway, and no step moves where it begins. */
  lemma StepKeepsWindow(s: State, step: Step, g: GatewayId)
    requires Inv(s) && Enabled(s, step) && (step.Fetch? ==> Started(s.gateways, s.poll, g))
    ensures KeepsWindow(s, Do(s, step), g)
  {
    if PollerStep(step) { PollerStepKeepsWindow(s, step, g); } else { CallerKeepsWindow(s, step, g); }
  }

  lemma {:induction false} RunKeepsWindow(s: State, steps: seq<Step>, g: GatewayId)
    requires Inv(s) && Started(s.gateways, s.poll, g)
    ensures KeepsWindow(s, Run(s, steps), g)
    decreases |steps|
  {
    if steps != [] {
      if Enabled(s, steps[0]) { StepKeepsWindow(s, steps[0], g); }
      StepKeepsInv(s, steps[0]);
      RunKeepsWindow(Apply(s, steps[0]), steps[1..], g);
    }
  }

  // --------------------------------------------------- rows before the promise

  /** The row is safe, or the promise has not begun, or begins after the row. */
  ghost predicate Watched(s: State, e: Event) {
    && e in s.committed
    && (Started(s.gateways, s.poll, e.gatewayId) ==>
          Safe(s, e) || e.processed < Window(s.gateways, s.origin, s.poll, e.gatewayId))
  }

  /** The promise covers the row. */
  ghost predicate Covered(s: State, e: Event) {
    e.gatewayId in s.gateways && e.gatewayId in s.origin && e.processed >= s.origin[e.gatewayId]
  }

  lemma WatchedIsAccounted(s: State, e: Event)
    requires Inv(s) && WakeInv(s) && Watched(s, e)
    ensures Covered(s, e) ==> Accounted(s, e)
  {
    if Covered(s, e) { SafeIsAccounted(s, e); }
  }

  lemma NotStartedNotHanded(s: State, e: Event)
    requires Inv(s) && e in s.committed && !Started(s.gateways, s.poll, e.gatewayId)
    ensures e !in Handed(s.log)
  {
    assert e in Handed(s.log) ==> e in Out(s.log, s.poll);
  }

  /** The fetch that begins the promise has the row in its batch, or the row is before the window. */
  lemma FirstFetchKeepsWatched(s: State, result: seq<Event>, e: Event)
    requires Inv(s) && WakeInv(s) && Watched(s, e) && Enabled(s, Fetch(result))
    requires !Started(s.gateways, s.poll, e.gatewayId)
    ensures Watched(DoFetch(s, result), e)
  {
    NotStartedNotHanded(s, e);
    FetchCovers(s, result);
  }

  lemma StepKeepsWatched(s: State, step: Step, e: Event)
    requires Inv(s) && WakeInv(s) && Watched(s, e) && Enabled(s, step) && Served(s, step)
    ensures Watched(Do(s, step), e)
  {
    if step.Fetch? && !Started(s.gateways, s.poll, e.gatewayId) {
      FirstFetchKeepsWatched(s, step.result, e);
    } else {
      StepKeepsWindow(s, step, e.gatewayId);
      StepKeepsCommitted(s, step);
      if Started(s.gateways, s.poll, e.gatewayId) && Safe(s, e) { StepKeepsSafe(s, step, e); }
    }
  }

  lemma StepKeepsCommitted(s: State, step: Step)
    requires Enabled(s, step)
    ensures s.committed <= Do(s, step).committed
  {
    match step {
      case HandOut | OfferNext | SendNext => HandOutStepFrame(s, step);
      case _ =>
    }
  }

  /** A row that is watched breaks no promise in any attended run. */
  lemma {:induction false} RunKeepsWatched(s: State, steps: seq<Step>, e: Event)
    requires Inv(s) && WakeInv(s) && Watched(s, e) && Throughout(s, steps, Served)
    ensures Covered(Run(s, steps), e) ==> Accounted(Run(s, steps), e)
    decreases |steps|
  {
    if steps == [] {
      WatchedIsAccounted(s, e);
    } else {
      StepKeepsInv(s, steps[0]);
      if Enabled(s, steps[0]) {
        StepKeepsWakeInv(s, steps[0]);
        StepKeepsWatched(s, steps[0], e);
      }
      RunKeepsWatched(Apply(s, steps[0]), steps[1..], e);
    }
  }

  // ------------------------------------------------------- the exact condition

  /** In every attended continuation the row is accounted for wherever the promise covers it. */
  ghost predicate PromiseKept(t: State, e: Event) {
    forall steps | Throughout(t, steps, Served) :: Covered(Run(t, steps), e) ==> Accounted(Run(t, steps), e)
  }

  lemma LostIsCovered(s: State, steps: seq<Step>, e: Event)
    requires Inv(s) && Started(s.gateways, s.poll, e.gatewayId)
    requires e in s.committed && e.processed >= Window(s.gateways, s.origin, s.poll, e.gatewayId)
    requires e.gatewayId in Run(s, steps).gateways && !Accounted(Run(s, steps), e)
    ensures Covered(Run(s, steps), e)
  {
    var u := Run(s, steps);
    RunKeepsInv(s, steps);
    RunKeepsWindow(s, steps, e.gatewayId);
    assert u.gateways[e.gatewayId].lastPolled != 0;
  }

  /** A row that commits, for whatever gateway, in whatever order and whatever is in flight, can break the promise of no
      loss in an attended run if and only if the promise has begun for its gateway, begins at the row or before it, and
      the row is before the horizon. */
  lemma CommitKeepsPromiseIff(s: State, e: Event, v: Version)
    requires Inv(s) && WakeInv(s) && Enabled(s, Publish(e, v)) && AfterCleanup(s, Publish(e, v))
    ensures PromiseKept(DoPublish(s, e, v), e)
      <==> (Started(s.gateways, s.poll, e.gatewayId) ==>
              || e.processed < Window(s.gateways, s.origin, s.poll, e.gatewayId)
              || e.processed >= Horizon(s.gateways, s.poll, e.gatewayId))
  {
    var t, g := DoPublish(s, e, v), e.gatewayId;
    StepKeepsInv(s, Publish(e, v));
    if Started(s.gateways, s.poll, g) && e.processed >= Window(s.gateways, s.origin, s.poll, g)
       && e.processed < Horizon(s.gateways, s.poll, g) {
      var steps := BehindIsLost(s, e, v);
      LostIsCovered(t, steps, e);
    } else {
      PublishKeepsWake(s, e, v);
      if Started(s.gateways, s.poll, g) && e.processed >= Horizon(s.gateways, s.poll, g) { AheadIsSafe(s, e, v); }
      forall steps | Throughout(t, steps, Served)
        ensures Covered(Run(t, steps), e) ==> Accounted(Run(t, steps), e)
      {
        RunKeepsWatched(t, steps, e);
      }
    }
  }
}
