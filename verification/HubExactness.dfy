// The two assumptions that no-loss rests on are needed, and exactly when each may be
// dropped: who must be there at a hand-out, and how late a row may commit.
module HubExactness {
  import opened HubModel
  import opened HubInvariant
  import opened HubDelivery
  import opened HubHandOuts
  import opened HubRuns

  // ---------------------------------------------------- who is at a hand-out

  /** Of rows of one gateway with one timestamp, cleanup leaves all or none. */
  lemma TwinSurvives(rows: set<Event>, committed: set<Event>, e: Event, f: Event)
    requires CleanOk(rows, committed) && e in rows && f in committed
    requires f != e && f.gatewayId == e.gatewayId && f.processed == e.processed
    ensures HasTwin(rows, e)
  {
    assert f in rows;
  }

  /** Received before, or with the last timestamp of the batch and not alone there: the next poll replays it. */
  ghost predicate ReplayedAnyway(log: seq<Delivery>, batch: seq<Event>, rows: set<Event>, e: Event) {
    e in Received(log) || (batch != [] && e.processed == batch[|batch| - 1].processed && HasTwin(rows, e))
  }

  /** What the write-back at the end of a hand-out leaves. */
  lemma HandOutEnds(s: State, u: State)
    requires Inv(u) && InHandOut(s, u) && u.poll.HandedOut?
    ensures var subscribers := s.gateways[s.poll.id].subscribers;
      var t := DoWriteBack(u);
      && t.rows == u.rows && t.gateways.Keys == u.gateways.Keys
      && t.gateways[s.poll.id].lastPolled == NextCursor(s.gateways[s.poll.id].lastPolled, u.poll.delivered)
      && Handed(t.log) == Handed(s.log) + (set e | e in u.poll.delivered)
      && Received(t.log) == Received(s.log) + (if subscribers != [] then set e | e in u.poll.delivered else {})
  {
    WriteBackReachesReach(u);
    HandedGrows(s.log, u.poll.delivered, s.gateways[s.poll.id].subscribers);
  }

  /** A batch row that is not delivered stays pending at the next cursor. */
  lemma UndeliveredStaysPending(rows: set<Event>, committed: set<Event>, cursor: int, batch: seq<Event>,
                                delivered: seq<Event>, gw': Gateway, e: Event)
    requires CleanOk(rows, committed) && TimeOrdered(batch) && delivered <= batch
    requires forall b | b in batch :: b in committed && b.gatewayId == e.gatewayId && b.processed >= cursor
    requires forall b | b in batch && b.processed == cursor :: HasTwin((set f | f in batch), b)
    requires gw'.lastPolled == NextCursor(cursor, delivered)
    requires e in batch && e in rows && e !in delivered
    ensures Pending(rows, gw', e)
  {
    RestNotBefore(batch, delivered, e);
    if delivered != [] {
      var last := delivered[|delivered| - 1];
      assert last in delivered && last in batch;
      if last.processed == e.processed { TwinSurvives(rows, committed, e, last); }
    } else if e.processed == cursor {
      var f :| f in batch && f != e && f.gatewayId == e.gatewayId && f.processed == e.processed;
      TwinSurvives(rows, committed, e, f);
    }
  }

  lemma BatchOfPoll(s: State)
    requires Inv(s) && s.poll.Fetched?
    ensures s.poll.id in s.gateways && TimeOrdered(s.poll.batch)
    ensures var cursor := s.gateways[s.poll.id].lastPolled;
      && (forall b | b in s.poll.batch :: b in s.committed && b.gatewayId == s.poll.id && b.processed >= cursor)
      && (forall b | b in s.poll.batch && b.processed == cursor :: HasTwin((set f | f in s.poll.batch), b))
  {
    BatchStartsAtCursor(s);
    CursorInRange(s, s.poll.id);
  }

  lemma AttendedLosesNothing(s: State, u: State, e: Event)
    requires Inv(s) && Inv(u) && CleanOk(u.rows, u.committed) && InHandOut(s, u) && u.poll.HandedOut?
    requires s.gateways[s.poll.id].subscribers != [] && e in s.poll.batch && e in u.rows
    ensures e.gatewayId in DoWriteBack(u).gateways && Accounted(DoWriteBack(u), e)
  {
    HandOutEnds(s, u);
    BatchOfPoll(s);
    if e !in u.poll.delivered {
      UndeliveredStaysPending(u.rows, u.committed, s.gateways[s.poll.id].lastPolled, s.poll.batch, u.poll.delivered,
                              DoWriteBack(u).gateways[s.poll.id], e);
    }
  }

  lemma PendingAtLast(rows: set<Event>, gw: Gateway, batch: seq<Event>, e: Event)
    requires TimeOrdered(batch) && e in batch && e in rows
    requires gw.lastPolled == NextCursor(0, batch)
    ensures Pending(rows, gw, e) <==> e.processed == batch[|batch| - 1].processed && HasTwin(rows, e)
  {
  }

  lemma UnattendedEnds(s: State, u: State)
    requires Inv(u) && InHandOut(s, u) && u.poll.HandedOut? && s.gateways[s.poll.id].subscribers == []
    ensures var t := DoWriteBack(u);
      && t.rows == u.rows && s.poll.id in t.gateways && Received(t.log) == Received(s.log)
      && t.gateways[s.poll.id].lastPolled == NextCursor(s.gateways[s.poll.id].lastPolled, s.poll.batch)
  {
    HandOutEnds(s, u);
    assert u.poll.delivered == s.poll.batch;
  }

  lemma UnattendedKeepsOnlyReplayed(s: State, u: State, e: Event)
    requires Inv(s) && Inv(u) && InHandOut(s, u) && u.poll.HandedOut?
    requires s.gateways[s.poll.id].subscribers == [] && e in s.poll.batch && e in u.rows
    ensures e.gatewayId in DoWriteBack(u).gateways
    ensures Accounted(DoWriteBack(u), e) <==> ReplayedAnyway(s.log, s.poll.batch, u.rows, e)
  {
    UnattendedEnds(s, u);
    BatchOfPoll(s);
    PendingAtLast(u.rows, DoWriteBack(u).gateways[s.poll.id], s.poll.batch, e);
  }

  lemma WholeHandOut(s: State, steps: seq<Step>)
    requires Inv(s) && WakeInv(s) && s.poll.Fetched? && WriteBack !in steps
    requires Throughout(DoHandOut(s), steps, AfterCleanup)
    ensures var u := Run(DoHandOut(s), steps); Inv(u) && WakeInv(u) && InHandOut(s, u)
  {
    StepKeepsInv(s, HandOut);
    PollerStepKeepsWake(s, HandOut);
    RunKeepsWake(DoHandOut(s), steps);
    HandOutBegins(s);
    HandOutGoesOn(s, DoHandOut(s), steps);
  }

  /** The steps bring the hand-out to its end, with others acting in between. */
  ghost predicate EndsHandOut(s: State, steps: seq<Step>)
    requires s.poll.Fetched?
  {
    WriteBack !in steps && Throughout(DoHandOut(s), steps, AfterCleanup) && Run(DoHandOut(s), steps).poll.HandedOut?
  }

  /** After the write-back every retained row of the batch is accounted for. */
  ghost predicate LosesNothing(batch: seq<Event>, u: State) {
    && u.poll.HandedOut? && u.poll.id in u.gateways
    && forall e | e in batch && e in u.rows :: e.gatewayId in DoWriteBack(u).gateways && Accounted(DoWriteBack(u), e)
  }

  /** One way a hand-out may go: it loses no row of the batch exactly when somebody is subscribed when it begins, or every
      row that is left was received before or will be replayed anyway. */
  lemma RunLosesNothingIff(s: State, steps: seq<Step>)
    requires Inv(s) && WakeInv(s) && s.poll.Fetched? && EndsHandOut(s, steps)
    ensures var u := Run(DoHandOut(s), steps);
      && s.poll.id in s.gateways
      && (LosesNothing(s.poll.batch, u)
          <==> (s.gateways[s.poll.id].subscribers != []
                || forall e | e in s.poll.batch && e in u.rows :: ReplayedAnyway(s.log, s.poll.batch, u.rows, e)))
  {
    var u := Run(DoHandOut(s), steps);
    WholeHandOut(s, steps);
    BatchOfPoll(s);
    forall e | e in s.poll.batch && e in u.rows
      ensures e.gatewayId in DoWriteBack(u).gateways
      ensures s.gateways[s.poll.id].subscribers != [] ==> Accounted(DoWriteBack(u), e)
      ensures s.gateways[s.poll.id].subscribers == [] ==>
        (Accounted(DoWriteBack(u), e) <==> ReplayedAnyway(s.log, s.poll.batch, u.rows, e))
    {
      if s.gateways[s.poll.id].subscribers != [] {
        AttendedLosesNothing(s, u, e);
      } else {
        UnattendedKeepsOnlyReplayed(s, u, e);
      }
    }
  }

  lemma StaysDeleted(s: State, step: Step, e: Event)
    requires Enabled(s, step) && AfterCleanup(s, step) && e in s.committed && e !in s.rows
    ensures e in Do(s, step).committed && e !in Do(s, step).rows
  {
    match step {
      case HandOut | OfferNext | SendNext => HandOutStepFrame(s, step);
      case _ =>
    }
  }

  /** A row that cleanup has deleted does not come back. */
  lemma {:induction false} NeverComesBack(s: State, steps: seq<Step>, e: Event)
    requires Throughout(s, steps, AfterCleanup) && e in s.committed && e !in s.rows
    ensures e !in Run(s, steps).rows
    decreases |steps|
  {
    if steps != [] {
      if Enabled(s, steps[0]) { StaysDeleted(s, steps[0], e); }
      NeverComesBack(Apply(s, steps[0]), steps[1..], e);
    }
  }

  /** What will be replayed at the lock and is still there at the end will be replayed. */
  lemma StillReplayed(s: State, u: State, e: Event)
    requires CleanOk(u.rows, u.committed) && s.rows <= s.committed <= u.committed && e in u.rows
    requires s.poll.Fetched? && ReplayedAnyway(s.log, s.poll.batch, s.rows, e)
    ensures ReplayedAnyway(s.log, s.poll.batch, u.rows, e)
  {
    if e !in Received(s.log) {
      var f :| f in s.rows && f != e && f.gatewayId == e.gatewayId && f.processed == e.processed;
      TwinSurvives(u.rows, u.committed, e, f);
    }
  }

  lemma UndisturbedEnds(s: State) returns (steps: seq<Step>)
    requires Inv(s) && s.poll.Fetched?
    ensures EndsHandOut(s, steps) && Run(DoHandOut(s), steps).rows == s.rows
  {
    StepKeepsInv(s, HandOut);
    LockApplies(s);
    steps := Undisturbed(DoHandOut(s));
    ThroughoutOf(DoHandOut(s), steps, AfterCleanup);
  }

  lemma ReplayedIsKept(s: State, steps: seq<Step>)
    requires Inv(s) && WakeInv(s) && s.poll.Fetched? && EndsHandOut(s, steps)
    requires forall e | e in s.poll.batch && e in s.rows :: ReplayedAnyway(s.log, s.poll.batch, s.rows, e)
    ensures LosesNothing(s.poll.batch, Run(DoHandOut(s), steps))
  {
    var u := Run(DoHandOut(s), steps);
    WholeHandOut(s, steps);
    BatchOfPoll(s);
    forall e | e in s.poll.batch && e in u.rows ensures ReplayedAnyway(s.log, s.poll.batch, u.rows, e) {
      if e !in s.rows { NeverComesBack(DoHandOut(s), steps, e); }
      StillReplayed(s, u, e);
    }
    RunLosesNothingIff(s, steps);
  }

  /** However a hand-out goes on, it loses no row of the batch, if and only if, when it takes the lock, somebody is
      subscribed or every row that is left was received before or will be replayed anyway. */
  lemma HandOutLosesNothingIff(s: State)
    requires Inv(s) && WakeInv(s) && s.poll.Fetched?
    ensures s.poll.id in s.gateways
    ensures (forall steps | EndsHandOut(s, steps) :: LosesNothing(s.poll.batch, Run(DoHandOut(s), steps)))
      <==> (s.gateways[s.poll.id].subscribers != []
            || forall e | e in s.poll.batch && e in s.rows :: ReplayedAnyway(s.log, s.poll.batch, s.rows, e))
  {
    BatchOfPoll(s);
    if s.gateways[s.poll.id].subscribers != [] {
      forall steps | EndsHandOut(s, steps) ensures LosesNothing(s.poll.batch, Run(DoHandOut(s), steps)) {
        RunLosesNothingIff(s, steps);
      }
    } else if forall e | e in s.poll.batch && e in s.rows :: ReplayedAnyway(s.log, s.poll.batch, s.rows, e) {
      forall steps | EndsHandOut(s, steps) ensures LosesNothing(s.poll.batch, Run(DoHandOut(s), steps)) {
        ReplayedIsKept(s, steps);
      }
    } else {
      var steps := UndisturbedEnds(s);
      RunLosesNothingIff(s, steps);
    }
  }
}
