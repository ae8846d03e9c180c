// The guarantees of the event hub over whole runs: any sequence of steps of any
// number of goroutines, from any database content.
module HubTheorems {
  import opened Timestamps
  import opened HubModel
  import opened HubInvariant
  import opened HubDelivery

  // --------------------------------------------------------------- channels

  /** No run panics or blocks on a channel: whatever is sent on next is open and has room, whatever is closed next is open.
      Lists never share a channel, and every listed channel is open. */
  lemma ChannelSafety(s0: State, steps: seq<Step>)
    requires Initial(s0)
    ensures var s := Run(s0, steps);
      && !s.fault
      && (forall g | g in s.gateways :: NoDup(s.gateways[g].subscribers))
      && (forall g, h, c | g in s.gateways && h in s.gateways
                           && c in s.gateways[g].subscribers && c in s.gateways[h].subscribers :: g == h)
      && (forall g, c | g in s.gateways && c in s.gateways[g].subscribers :: c in s.channels && !s.channels[c].closed)
      && (forall c | c in s.channels :: |s.channels[c].buffer| <= 100)
      && (s.poll.Handing? && s.poll.todo != [] ==>
            var c := s.poll.todo[0]; c in s.channels && !s.channels[c].closed && |s.channels[c].buffer| < 100)
      && (forall c | c in s.detached :: c in s.channels && !s.channels[c].closed)
  {
    InitialInv(s0);
    RunKeepsInv(s0, steps);
    var s := Run(s0, steps);
    if s.poll.Handing? && s.poll.todo != [] { assert s.poll.todo[0] in s.poll.todo; }
    forall c | c in s.channels ensures |s.channels[c].buffer| <= CHANNEL_CAPACITY {
      assert ChannelOk(s.channels[c]);
    }
    forall g, h, c | g in s.gateways && h in s.gateways
                     && c in s.gateways[g].subscribers && c in s.gateways[h].subscribers
      ensures g == h
    {
      assert s.channels[c].owner == g;
    }
  }

  /** Over a whole run each channel carries only events of its gateway, in timestamp order,
      and its consumer has taken exactly a prefix of what was sent. */
  lemma DeliveryInOrder(s0: State, steps: seq<Step>, c: ChanId)
    requires Initial(s0) && c in Run(s0, steps).channels
    ensures var ch := Run(s0, steps).channels[c];
      && TimeOrdered(ch.sent)
      && (forall e | e in ch.sent :: e.gatewayId == ch.owner)
      && exists taken :: ch.sent == taken + ch.buffer
  {
    InitialInv(s0);
    RunKeepsInv(s0, steps);
    var s := Run(s0, steps);
    var ch := s.channels[c];
    assert ChannelOk(ch) && SentOk(ch, Out(s.log, s.poll));
    var taken := ch.sent[..|ch.sent| - |ch.buffer|];
    assert ch.sent == taken + ch.buffer;
  }

  // ----------------------------------------------------------------- cursors

  lemma OtherStepsKeepRegistry(s: State, step: Step, g: GatewayId)
    requires Enabled(s, step) && !RegistryStep(step) && !step.WriteBack? && g in s.gateways
    ensures g in Do(s, step).gateways && Do(s, step).gateways[g].lastPolled == s.gateways[g].lastPolled
  {
    match step {
      case HandOut | OfferNext | SendNext => HandOutStepFrame(s, step);
      case _ =>
    }
  }

  lemma StepKeepsCursor(s: State, step: Step, g: GatewayId)
    requires VersionInv(s) && HistoryInv(s) && g in s.gateways
    ensures g in Apply(s, step).gateways
    ensures s.gateways[g].lastPolled <= Apply(s, step).gateways[g].lastPolled
  {
    if Enabled(s, step) {
      if RegistryStep(step) {
        RegistryStepFrame(s, step);
      } else if step.WriteBack? {
        WriteBackReachesReach(s);
      } else {
        OtherStepsKeepRegistry(s, step, g);
      }
    }
  }

  /** The cursor of a gateway never moves back. */
  lemma {:induction false} CursorNeverDecreases(s: State, steps: seq<Step>, g: GatewayId)
    requires Inv(s) && g in s.gateways
    ensures g in Run(s, steps).gateways
    ensures s.gateways[g].lastPolled <= Run(s, steps).gateways[g].lastPolled
    decreases |steps|
  {
    if steps != [] {
      StepKeepsCursor(s, steps[0], g);
      StepKeepsInv(s, steps[0]);
      CursorNeverDecreases(Apply(s, steps[0]), steps[1..], g);
    }
  }

  lemma SendingMovesReach(s: State, c: ChanId)
    requires Inv(s) && c in s.channels
    ensures var ch := s.channels[c];
      ch.sent != [] ==> ch.owner in s.gateways && Reach(s.gateways, s.poll, ch.owner) > 0
  {
    var ch := s.channels[c];
    assert ChannelOk(ch) && SentOk(ch, Out(s.log, s.poll));
    assert ch.sent != [] ==> ch.sent[0] in ch.sent;
  }

  /** The cursor is 0 or the timestamp of an event handed out for the gateway, decodes to itself,
      and while it is 0, and no poll in flight has sent anything, nothing has been sent on the gateway's channels. */
  lemma CursorIsLastHandedOut(s0: State, steps: seq<Step>, g: GatewayId)
    requires Initial(s0) && g in Run(s0, steps).gateways
    ensures var s := Run(s0, steps);
      var cursor := s.gateways[g].lastPolled;
      && (cursor != 0 ==>
            && UnixTimestampToTime(cursor) == cursor
            && exists d :: d in s.log && d.event.gatewayId == g && d.event.processed == cursor)
      && (cursor == 0 && !(!s.poll.Idle? && s.poll.id == g && Passing(s.poll) != []) ==>
            forall c | c in s.channels && s.channels[c].owner == g :: s.channels[c].sent == [])
  {
    InitialInv(s0);
    RunKeepsInv(s0, steps);
    var s := Run(s0, steps);
    CursorInRange(s, g);
    assert CursorOk(s.gateways[g], g, Handed(s.log));
    var cursor := s.gateways[g].lastPolled;
    if cursor != 0 { CursorRoundTrip(cursor); }
    if cursor == 0 && !(!s.poll.Idle? && s.poll.id == g && Passing(s.poll) != []) {
      forall c | c in s.channels && s.channels[c].owner == g ensures s.channels[c].sent == [] {
        SendingMovesReach(s, c);
      }
    }
  }

  // ------------------------------------------------------------ exactly once

  /** An event that is handed out twice in a run shares its timestamp with another row of its gateway. */
  lemma RepeatedOnlyWithTwin(s0: State, steps: seq<Step>, i: nat, j: nat)
    requires Initial(s0) && i < j < |Run(s0, steps).log|
    requires Run(s0, steps).log[i].event == Run(s0, steps).log[j].event
    ensures HasTwin(Run(s0, steps).committed, Run(s0, steps).log[i].event)
  {
    InitialInv(s0);
    RunKeepsInv(s0, steps);
  }

  ghost predicate DistinctTimes(rows: set<Event>, g: GatewayId) {
    forall e, f | e in rows && f in rows && e.gatewayId == g && f.gatewayId == g && e.processed == f.processed :: e == f
  }

  /** If no two rows of a gateway share a timestamp, no event of it is handed out twice. */
  lemma ExactlyOnce(s0: State, steps: seq<Step>, g: GatewayId)
    requires Initial(s0) && DistinctTimes(Run(s0, steps).committed, g)
    ensures var log := Run(s0, steps).log;
      forall i, j | 0 <= i < j < |log| && log[i].event.gatewayId == g :: log[i].event != log[j].event
  {
    InitialInv(s0);
    RunKeepsInv(s0, steps);
    var s := Run(s0, steps);
    forall i, j | 0 <= i < j < |s.log| && s.log[i].event.gatewayId == g
      ensures s.log[i].event != s.log[j].event
    {
      assert s.log[i] in s.log && s.log[i].event in Handed(s.log);
    }
  }

  /** A gateway whose stored version is empty never had an event committed, so the poll may skip it. */
  lemma UnstampedHasNoEvents(s0: State, steps: seq<Step>, g: GatewayId)
    requires Initial(s0) && g in Run(s0, steps).versions && Run(s0, steps).versions[g] == ""
    ensures forall e | e in Run(s0, steps).committed :: e.gatewayId != g
  {
    InitialInv(s0);
    RunKeepsInv(s0, steps);
  }

  // --------------------------------------------------------------- wake-ups

  /** If the known version is the stored one and the cursor is established, every retained row
      from the cursor on has been handed out; it holds in every state, polls in flight included. */
  lemma NoLostWakeUp(s0: State, steps: seq<Step>, g: GatewayId)
    requires Initial(s0) && Throughout(s0, steps, AfterCleanup)
    requires g in Run(s0, steps).gateways && g in Run(s0, steps).versions
    ensures var s := Run(s0, steps);
      var gw := s.gateways[g];
      s.versions[g] != "" && gw.knownVersion == s.versions[g] && gw.lastPolled != 0 ==>
        forall r | r in s.rows && r.gatewayId == g && r.processed >= gw.lastPolled :: r in Handed(s.log)
  {
    InitialInv(s0);
    InitialWakeInv(s0);
    RunKeepsWake(s0, steps);
  }

  /** Whatever row the trim drops at a fetch, in any run, had been handed out before. */
  lemma BoundaryTrimIsSound(s0: State, steps: seq<Step>, result: seq<Event>)
    requires Initial(s0) && Throughout(s0, steps, AfterCleanup)
    requires Enabled(Run(s0, steps), Fetch(result))
    ensures var s := Run(s0, steps);
      var batch := Apply(s, Fetch(result)).poll.batch;
      forall e | e in result :: e in batch || e in Handed(s.log)
  {
    InitialInv(s0);
    InitialWakeInv(s0);
    RunKeepsWake(s0, steps);
    FetchCovers(Run(s0, steps), result);
  }

  // ---------------------------------------------------------------- no loss

  lemma LossInvAccounts(s: State, e: Event)
    requires Inv(s) && WakeInv(s) && LossInv(s)
    requires e in s.committed && e.gatewayId in s.gateways && e.gatewayId in s.origin
    requires e.processed >= s.origin[e.gatewayId]
    ensures Accounted(s, e)
  {
    var g := e.gatewayId;
    if e in s.rows && e !in Received(s.log) && e.processed == s.gateways[g].lastPolled {
      assert CursorOk(s.gateways[g], g, Handed(s.log));
      var f :| f in Handed(s.log) && f.gatewayId == g && f.processed == s.gateways[g].lastPolled;
      assert f in s.rows && f != e;
    }
  }

  /** Across sessions nothing is lost: from the window its first delivering poll replayed, every
      committed event of a gateway reached a subscriber, was cleaned up, or is still pending. */
  lemma NoLoss(s0: State, steps: seq<Step>, e: Event)
    requires Initial(s0) && Throughout(s0, steps, Orderly)
    requires e in Run(s0, steps).committed
    requires e.gatewayId in Run(s0, steps).gateways && e.gatewayId in Run(s0, steps).origin
    requires e.processed >= Run(s0, steps).origin[e.gatewayId]
    ensures Accounted(Run(s0, steps), e)
  {
    InitialInv(s0);
    InitialWakeInv(s0);
    RunKeepsLoss(s0, steps);
    LossInvAccounts(Run(s0, steps), e);
  }

  /** The window starts no later than the cursor, so every event committed once the cursor is established is covered. */
  lemma LaterCommitsAreCovered(s0: State, steps: seq<Step>, e: Event, v: Version)
    requires Initial(s0) && Throughout(s0, steps, Orderly)
    requires e.gatewayId in Run(s0, steps).gateways && Run(s0, steps).gateways[e.gatewayId].lastPolled != 0
    requires CommitOrder(Run(s0, steps), Publish(e, v))
    ensures e.gatewayId in Run(s0, steps).origin && e.processed >= Run(s0, steps).origin[e.gatewayId]
  {
    InitialInv(s0);
    InitialWakeInv(s0);
    RunKeepsLoss(s0, steps);
    var s, g := Run(s0, steps), e.gatewayId;
    assert CursorOk(s.gateways[g], g, Handed(s.log));
  }

  /** Pending means what it says: any answer to the next query keeps the event in the batch. */
  lemma PendingIsFetched(rows: set<Event>, g: GatewayId, gw: Gateway, result: seq<Event>, e: Event)
    requires Pending(rows, gw, e) && e.gatewayId == g && IsQueryResult(rows, g, gw.lastPolled, result)
    ensures e in TrimSingleBoundaryReplay(result, gw.lastPolled, true)
  {
    assert e in result;
    var k :| 0 <= k < |result| && result[k] == e;
    var batch := TrimSingleBoundaryReplay(result, gw.lastPolled, true);
    if batch != result {
      forall f | f in rows && f.gatewayId == g && f.processed == gw.lastPolled ensures f == result[0] {
        TrimmedIsAlone(rows, g, gw.lastPolled, result, f);
      }
      assert k != 0;
      assert batch[k - 1] == e;
    }
  }
}
