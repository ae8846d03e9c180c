// Delivery guarantees of the event hub that need the clock: what a known version
// promises, why the trimmed boundary row is safe to drop, and when no event is lost.
module HubDelivery {
  import opened HubModel
  import opened HubInvariant

  // --------------------------------------------------------------- hypotheses

  /** A new row is later than every row of its gateway that cleanup has already deleted. */
  ghost predicate AfterCleanup(s: State, step: Step) {
    step.Publish? ==>
      forall d | d in s.committed - s.rows && d.gatewayId == step.event.gatewayId :: d.processed < step.event.processed
  }

  /** The rows of a gateway are committed in timestamp order. */
  ghost predicate CommitOrder(s: State, step: Step) {
    step.Publish? ==>
      forall d | d in s.committed && d.gatewayId == step.event.gatewayId :: d.processed <= step.event.processed
  }

  /** A batch is handed out while somebody is subscribed; nobody leaves before the hand-out is over. */
  ghost predicate Attended(s: State, step: Step) {
    (step.HandOut? && s.poll.Fetched? && s.poll.id in s.gateways && s.poll.batch != []) ==>
      s.gateways[s.poll.id].subscribers != []
  }

  ghost predicate Orderly(s: State, step: Step) {
    AfterCleanup(s, step) && CommitOrder(s, step) && Attended(s, step)
  }

  // --------------------------------------------------------------- invariants

  /** Cleanup deletes whole timestamps: what is gone is older than what is left. */
  ghost predicate CleanOk(rows: set<Event>, committed: set<Event>) {
    forall d, r | d in committed - rows && r in rows && d.gatewayId == r.gatewayId :: d.processed < r.processed
  }

  /** Every retained row of the gateway from `since` on has been handed out. */
  ghost predicate AllHanded(rows: set<Event>, handed: set<Event>, id: GatewayId, since: int) {
    forall r | r in rows && r.gatewayId == id && r.processed >= since :: r in handed
  }

  ghost predicate WakeOk(versions: map<GatewayId, Version>, gateways: Gateways, rows: set<Event>, handed: set<Event>) {
    forall g | g in gateways && g in versions && versions[g] != ""
               && gateways[g].knownVersion == versions[g] && gateways[g].lastPolled != 0 ::
      AllHanded(rows, handed, g, gateways[g].lastPolled)
  }

  /** As long as the version that started the poll is the stored one, the poll has seen every row. */
  ghost predicate CoverOk(versions: map<GatewayId, Version>, rows: set<Event>, poll: Poll, handed: set<Event>) {
    !poll.Idle? && poll.id in versions && versions[poll.id] == poll.version ==>
      && (poll.Fetched? ==> AllHanded(rows, handed + (set e | e in poll.batch), poll.id, poll.since))
      && (poll.Handing? ==> AllHanded(rows, handed + (set e | e in poll.rest), poll.id, poll.since))
      && (poll.HandedOut? && !poll.blocked ==> AllHanded(rows, handed, poll.id, poll.since))
  }

  ghost predicate UnknownOk(gateways: Gateways, poll: Poll) {
    !poll.Idle? && poll.id in gateways ==> gateways[poll.id].knownVersion != poll.version
  }

  ghost predicate WakeInv(s: State) {
    && CleanOk(s.rows, s.committed)
    && WakeOk(s.versions, s.gateways, s.rows, Handed(s.log))
    && CoverOk(s.versions, s.rows, s.poll, Handed(s.log))
    && UnknownOk(s.gateways, s.poll)
  }

  lemma InitialWakeInv(s: State)
    requires Initial(s)
    ensures WakeInv(s)
  {
  }

  // ------------------------------------------------------------ trim soundness

  /** When the trim drops a row, it is the only one of the gateway at the boundary. */
  lemma TrimmedIsAlone(rows: set<Event>, g: GatewayId, boundary: int, result: seq<Event>, f: Event)
    requires IsQueryResult(rows, g, boundary, result)
    requires TrimSingleBoundaryReplay(result, boundary, true) != result
    requires f in rows && f.gatewayId == g && f.processed == boundary
    ensures f == result[0]
  {
    assert f in result;
    var m :| 0 <= m < |result| && result[m] == f;
    assert forall j | 1 < j < |result| :: result[1].processed <= result[j].processed;
  }

  lemma TrimmedIsCursorRow(rows: set<Event>, committed: set<Event>, handed: set<Event>, gw: Gateway, g: GatewayId,
                           result: seq<Event>)
    requires CleanOk(rows, committed) && CursorOk(gw, g, handed) && gw.lastPolled != 0
    requires forall e | e in handed :: e in committed
    requires IsQueryResult(rows, g, gw.lastPolled, result) && TrimSingleBoundaryReplay(result, gw.lastPolled, true) != result
    ensures TrimSingleBoundaryReplay(result, gw.lastPolled, true) == result[1..]
    ensures result[0] in handed && result[0].processed == gw.lastPolled
  {
    var e :| e in handed && e.gatewayId == g && e.processed == gw.lastPolled;
    assert result[0] in result;
    assert e in rows;
    TrimmedIsAlone(rows, g, gw.lastPolled, result, e);
  }

  /** A poll that resumes does so from the timestamp of an event that was handed out. */
  lemma ResumedAtCursor(s: State)
    requires Inv(s) && s.poll.Snapped? && s.poll.resuming
    ensures s.poll.id in s.gateways && s.poll.since == s.gateways[s.poll.id].lastPolled != 0
    ensures CursorOk(s.gateways[s.poll.id], s.poll.id, Handed(s.log))
  {
  }

  lemma HandedIsCommitted(s: State)
    requires Inv(s)
    ensures forall e | e in Handed(s.log) :: e in s.committed
  {
    assert forall e | e in Handed(s.log) :: e in Out(s.log, s.poll);
  }

  /** The row that the trim drops has been handed out before. */
  lemma TrimmedRowWasHanded(s: State, result: seq<Event>)
    requires Inv(s) && CleanOk(s.rows, s.committed) && Enabled(s, Fetch(result))
    requires TrimSingleBoundaryReplay(result, s.poll.since, s.poll.resuming) != result
    ensures TrimSingleBoundaryReplay(result, s.poll.since, s.poll.resuming) == result[1..]
    ensures result[0] in Handed(s.log) && result[0].processed == s.gateways[s.poll.id].lastPolled
  {
    ResumedAtCursor(s);
    HandedIsCommitted(s);
    TrimmedIsCursorRow(s.rows, s.committed, Handed(s.log), s.gateways[s.poll.id], s.poll.id, result);
  }

  lemma FetchCovers(s: State, result: seq<Event>)
    requires Inv(s) && CleanOk(s.rows, s.committed) && Enabled(s, Fetch(result))
    ensures var batch := TrimSingleBoundaryReplay(result, s.poll.since, s.poll.resuming);
      AllHanded(s.rows, Handed(s.log) + (set e | e in batch), s.poll.id, s.poll.since)
  {
    var batch := TrimSingleBoundaryReplay(result, s.poll.since, s.poll.resuming);
    forall r | r in s.rows && r.gatewayId == s.poll.id && r.processed >= s.poll.since
      ensures r in Handed(s.log) + (set e | e in batch)
    {
      assert r in result;
      var k :| 0 <= k < |result| && result[k] == r;
      if batch != result {
        TrimmedRowWasHanded(s, result);
        if k > 0 { assert batch[k - 1] == r; }
      }
    }
  }

  // ------------------------------------------------------- steps and wake-ups

  lemma PublishKeepsWake(s: State, e: Event, v: Version)
    requires Inv(s) && WakeInv(s) && Enabled(s, Publish(e, v)) && AfterCleanup(s, Publish(e, v))
    ensures WakeInv(DoPublish(s, e, v))
  {
    var s' := DoPublish(s, e, v);
    forall g | g in s'.gateways && g in s'.versions && s'.versions[g] != ""
               && s'.gateways[g].knownVersion == s'.versions[g] && s'.gateways[g].lastPolled != 0
      ensures AllHanded(s'.rows, Handed(s'.log), g, s'.gateways[g].lastPolled)
    {
      assert g != e.gatewayId;
      assert AllHanded(s.rows, Handed(s.log), g, s.gateways[g].lastPolled);
    }
  }

  lemma CleanupKeepsWake(s: State, rows: set<Event>)
    requires WakeInv(s) && rows <= s.rows
    requires forall d, r | d in s.rows - rows && r in rows && d.gatewayId == r.gatewayId :: d.processed < r.processed
    ensures WakeInv(s.(rows := rows))
  {
    forall g | g in s.gateways && g in s.versions && s.versions[g] != ""
               && s.gateways[g].knownVersion == s.versions[g] && s.gateways[g].lastPolled != 0
      ensures AllHanded(rows, Handed(s.log), g, s.gateways[g].lastPolled)
    {
      assert AllHanded(s.rows, Handed(s.log), g, s.gateways[g].lastPolled);
    }
  }

  lemma RegistryFrameKeepsWake(versions: map<GatewayId, Version>, gateways: Gateways, rows: set<Event>,
                               handed: set<Event>, poll: Poll, gateways': Gateways)
    requires RegistryFrame(gateways, gateways') && WakeOk(versions, gateways, rows, handed) && UnknownOk(gateways, poll)
    requires !poll.Idle? ==> poll.id in gateways && poll.version != ""
    ensures WakeOk(versions, gateways', rows, handed) && UnknownOk(gateways', poll)
  {
    forall g | g in gateways' && g in versions && versions[g] != ""
               && gateways'[g].knownVersion == versions[g] && gateways'[g].lastPolled != 0
      ensures AllHanded(rows, handed, g, gateways'[g].lastPolled)
    {
      assert AllHanded(rows, handed, g, gateways[g].lastPolled);
    }
  }

  lemma PassKeepsCover(versions: map<GatewayId, Version>, rows: set<Event>, poll: Poll, handed: set<Event>)
    requires CoverOk(versions, rows, poll, handed) && poll.Handing? && poll.rest != []
    ensures CoverOk(versions, rows, poll.(delivered := poll.delivered + [poll.rest[0]], rest := poll.rest[1..], todo := []),
                    handed + {poll.rest[0]})
  {
    assert poll.rest == [poll.rest[0]] + poll.rest[1..];
  }

  lemma PassKeepsWake(s: State)
    requires WakeInv(s) && s.poll.Handing? && s.poll.id in s.gateways && s.poll.rest != []
    ensures WakeInv(DoPass(s))
  {
    LogGrows(s.log, s.poll.rest[0], s.gateways[s.poll.id].subscribers);
    PassKeepsCover(s.versions, s.rows, s.poll, Handed(s.log));
    WakeMonotone(s.versions, s.gateways, s.rows, Handed(s.log), Handed(DoPass(s).log));
  }

  lemma OfferKeepsWake(s: State)
    requires WakeInv(s) && Enabled(s, OfferNext)
    ensures WakeInv(DoOffer(s))
  {
    var p, subscribers := s.poll, s.gateways[s.poll.id].subscribers;
    if p.rest == [] || !ChannelsAvailable(s.channels, subscribers) {
      EndKeepsWake(s);
    } else if subscribers == [] {
      PassKeepsWake(s);
    } else {
      SameForWake(s, s.(poll := p.(todo := subscribers)));
    }
  }

  lemma EndKeepsWake(s: State)
    requires WakeInv(s) && s.poll.Handing?
    ensures var p := s.poll;
      WakeInv(s.(poll := HandedOut(p.id, p.version, p.since, p.resuming, p.delivered, p.rest != [])))
  {
    if s.poll.rest == [] { assert Handed(s.log) + (set e | e in s.poll.rest) == Handed(s.log); }
  }

  lemma SendKeepsWake(s: State)
    requires WakeInv(s) && Enabled(s, SendNext)
    ensures WakeInv(DoSend(s))
  {
    var r := Send(s.channels, s.poll.todo[0], s.poll.rest[0]);
    var m := s.(channels := r.channels, fault := s.fault || r.fault, poll := s.poll.(todo := s.poll.todo[1..]));
    SameForWake(s, m);
    if |s.poll.todo| == 1 { PassKeepsWake(m); }
  }

  lemma WakeMonotone(versions: map<GatewayId, Version>, gateways: Gateways, rows: set<Event>,
                     handed: set<Event>, handed': set<Event>)
    requires WakeOk(versions, gateways, rows, handed) && handed <= handed'
    ensures WakeOk(versions, gateways, rows, handed')
  {
    forall g | g in gateways && g in versions && versions[g] != ""
               && gateways[g].knownVersion == versions[g] && gateways[g].lastPolled != 0
      ensures AllHanded(rows, handed', g, gateways[g].lastPolled)
    {
      assert AllHanded(rows, handed, g, gateways[g].lastPolled);
    }
  }

  /** The write-back of an unblocked poll may claim the version: everything from the new cursor on was handed out. */
  lemma WriteBackKeepsWake(s: State)
    requires Inv(s) && WakeInv(s) && s.poll.HandedOut?
    ensures WakeInv(DoWriteBack(s))
  {
    var s', id, handed := DoWriteBack(s), s.poll.id, Handed(s.log);
    WriteBackReachesReach(s);
    assert SeenOk(s.versions, s.stamped, s.gateways, id, s.poll.version);
    forall g | g in s'.gateways && g in s'.versions && s'.versions[g] != ""
               && s'.gateways[g].knownVersion == s'.versions[g] && s'.gateways[g].lastPolled != 0
      ensures AllHanded(s'.rows, handed, g, s'.gateways[g].lastPolled)
    {
      if g == id {
        assert !s.poll.blocked && AllHanded(s.rows, handed, id, s.poll.since);
        if s.poll.delivered != [] {
          assert s.poll.delivered[|s.poll.delivered| - 1] in s.poll.delivered;
        }
        assert s.poll.since <= s'.gateways[g].lastPolled;
      } else {
        assert AllHanded(s.rows, handed, g, s.gateways[g].lastPolled);
      }
    }
  }

  lemma SnapshotKeepsWake(s: State, now: int)
    requires WakeInv(s) && s.poll.Idle? && s.page != []
    ensures WakeInv(DoSnapshot(s, now))
  {
  }

  lemma PollerStepKeepsWake(s: State, step: Step)
    requires Inv(s) && WakeInv(s) && Enabled(s, step) && PollerStep(step)
    ensures WakeInv(Do(s, step))
  {
    match step {
      case Fetch(result) => FetchCovers(s, result);
      case OfferNext => OfferKeepsWake(s);
      case SendNext => SendKeepsWake(s);
      case WriteBack => WriteBackKeepsWake(s);
      case Snapshot(now) => SnapshotKeepsWake(s, now);
      case HandOut => HandOutKeepsWake(s);
      case ReadPage(_) | SkipRow | AbortFetch | Stop => SameForWake(s, Do(s, step));
      case _ =>
    }
  }

  lemma RegistryStepKeepsWake(s: State, step: Step)
    requires Inv(s) && WakeInv(s) && Enabled(s, step) && RegistryStep(step)
    ensures WakeInv(Do(s, step))
  {
    RegistryStepFrame(s, step);
    RegistryFrameKeepsWake(s.versions, s.gateways, s.rows, Handed(s.log), s.poll, Do(s, step).gateways);
  }

  lemma HandOutKeepsWake(s: State)
    requires WakeInv(s) && s.poll.Fetched?
    ensures WakeInv(DoHandOut(s))
  {
  }

  ghost predicate SamePoll(p: Poll, q: Poll) {
    p == q || (p.Handing? && q.Handing? && q == p.(todo := q.todo))
  }

  /** Only the cursors, versions, rows and the log matter, and what is still to be handed out. */
  lemma SameForWake(s: State, t: State)
    requires WakeInv(s) && t.rows == s.rows && t.committed == s.committed && t.versions == s.versions
    requires t.gateways == s.gateways && t.log == s.log && (SamePoll(s.poll, t.poll) || t.poll == Idle)
    ensures WakeInv(t)
  {
  }

  lemma InsertKeepsWake(s: State, id: GatewayId)
    requires Inv(s) && WakeInv(s) && Enabled(s, InsertGateway(id))
    ensures WakeInv(Do(s, InsertGateway(id)))
  {
  }

  lemma CallerStepKeepsWake(s: State, step: Step)
    requires Inv(s) && WakeInv(s) && Enabled(s, step) && !PollerStep(step) && AfterCleanup(s, step)
    ensures WakeInv(Do(s, step))
  {
    if RegistryStep(step) {
      RegistryStepKeepsWake(s, step);
    } else {
      match step {
        case Publish(e, v) => PublishKeepsWake(s, e, v);
        case Cleanup(_) => CleanupKeepsWake(s, Do(s, step).rows);
        case CleanupRange(_, _) => CleanupKeepsWake(s, Do(s, step).rows);
        case InsertGateway(id) => InsertKeepsWake(s, id);
        case CloseDetached(_) | Receive(_) => SameForWake(s, Do(s, step));
        case _ =>
      }
    }
  }

  lemma StepKeepsWakeInv(s: State, step: Step)
    requires Inv(s) && WakeInv(s) && Enabled(s, step) && AfterCleanup(s, step)
    ensures WakeInv(Do(s, step))
  {
    if PollerStep(step) { PollerStepKeepsWake(s, step); } else { CallerStepKeepsWake(s, step); }
  }

  lemma {:induction false} RunKeepsWake(s: State, steps: seq<Step>)
    requires Inv(s) && WakeInv(s) && Throughout(s, steps, AfterCleanup)
    ensures Inv(Run(s, steps)) && WakeInv(Run(s, steps))
    decreases |steps|
  {
    if steps != [] {
      var step := steps[0];
      StepKeepsInv(s, step);
      if Enabled(s, step) { StepKeepsWakeInv(s, step); }
      RunKeepsWake(Apply(s, step), steps[1..]);
    }
  }

  // ------------------------------------------------------------------ no loss

  /** The next poll from the cursor will fetch the row and not trim it. */
  ghost predicate Pending(rows: set<Event>, gw: Gateway, e: Event) {
    && e in rows
    && e.processed >= gw.lastPolled
    && (e.processed == gw.lastPolled ==> HasTwin(rows, e))
  }

  /** The event reached a subscriber, was deleted by cleanup, or is still pending. */
  ghost predicate Accounted(s: State, e: Event)
    requires e.gatewayId in s.gateways
  {
    e in Received(s.log) || e !in s.rows || Pending(s.rows, s.gateways[e.gatewayId], e)
  }

  ghost predicate KeptOk(gateways: Gateways, origin: map<GatewayId, int>, rows: set<Event>, handed: set<Event>) {
    forall g | g in gateways && g in origin ::
      && origin[g] <= gateways[g].lastPolled
      && forall r | r in rows && r.gatewayId == g && r.processed >= origin[g] ::
           r in handed || r.processed >= gateways[g].lastPolled
  }

  /** The row is handed out or not before anything in the sequence. */
  ghost predicate NotBefore(r: Event, es: seq<Event>) {
    forall b | b in es :: b.processed <= r.processed
  }

  ghost predicate InFlightOk(rows: set<Event>, poll: Poll, handed: set<Event>) {
    && (poll.Fetched? ==> forall r | r in rows && r.gatewayId == poll.id && r.processed >= poll.since ::
          r in handed || r in poll.batch || NotBefore(r, poll.batch))
    && (poll.Handing? ==> forall r | r in rows && r.gatewayId == poll.id && r.processed >= poll.since ::
          r in handed || r in poll.rest || NotBefore(r, poll.delivered + poll.rest))
    && (poll.HandedOut? ==> forall r | r in rows && r.gatewayId == poll.id && r.processed >= poll.since ::
          r in handed || NotBefore(r, poll.delivered))
  }

  /** While there is something to hand out, somebody is there to get it. */
  ghost predicate ServedOk(gateways: Gateways, poll: Poll) {
    poll.Handing? && poll.rest != [] ==> poll.id in gateways && gateways[poll.id].subscribers != []
  }

  ghost predicate LossInv(s: State) {
    && KeptOk(s.gateways, s.origin, s.rows, Handed(s.log))
    && InFlightOk(s.rows, s.poll, Handed(s.log))
    && Handed(s.log) == Received(s.log)
    && ServedOk(s.gateways, s.poll)
  }

  lemma PublishKeepsKept(gateways: Gateways, origin: map<GatewayId, int>, rows: set<Event>, handed: set<Event>, e: Event)
    requires KeptOk(gateways, origin, rows, handed)
    requires e.gatewayId in gateways && e.gatewayId in origin ==> e.processed >= gateways[e.gatewayId].lastPolled
    ensures KeptOk(gateways, origin, rows + {e}, handed)
  {
  }

  lemma PublishKeepsInFlight(rows: set<Event>, committed: set<Event>, gateways: Gateways, poll: Poll, handed: set<Event>, e: Event)
    requires InFlightOk(rows, poll, handed) && PollOk(gateways, poll, committed, handed)
    requires forall d | d in committed && d.gatewayId == e.gatewayId :: d.processed <= e.processed
    ensures InFlightOk(rows + {e}, poll, handed)
  {
  }

  lemma PublishKeepsLoss(s: State, e: Event, v: Version)
    requires Inv(s) && LossInv(s) && Enabled(s, Publish(e, v)) && CommitOrder(s, Publish(e, v))
    ensures LossInv(DoPublish(s, e, v))
  {
    var g := e.gatewayId;
    if g in s.gateways && g in s.origin {
      assert CursorOk(s.gateways[g], g, Handed(s.log));
    }
    PublishKeepsKept(s.gateways, s.origin, s.rows, Handed(s.log), e);
    PublishKeepsInFlight(s.rows, s.committed, s.gateways, s.poll, Handed(s.log), e);
  }

  lemma RegistryFrameKeepsLoss(gateways: Gateways, origin: map<GatewayId, int>, rows: set<Event>,
                               handed: set<Event>, gateways': Gateways)
    requires RegistryFrame(gateways, gateways') && KeptOk(gateways, origin, rows, handed)
    requires origin.Keys <= gateways.Keys
    ensures KeptOk(gateways', origin, rows, handed)
  {
  }

  lemma FetchKeepsLoss(s: State, result: seq<Event>)
    requires Inv(s) && CleanOk(s.rows, s.committed) && LossInv(s) && Enabled(s, Fetch(result))
    ensures LossInv(DoFetch(s, result))
  {
    FetchCovers(s, result);
  }

  /** An undelivered event of the batch is not before any delivered one. */
  lemma RestNotBefore(batch: seq<Event>, delivered: seq<Event>, e: Event)
    requires TimeOrdered(batch) && delivered <= batch && e in batch && e !in delivered
    ensures NotBefore(e, delivered)
  {
    var k :| 0 <= k < |batch| && batch[k] == e;
    assert forall i | 0 <= i < |delivered| :: batch[i] == delivered[i] && delivered[i] in delivered;
  }

  lemma PassKeepsInFlight(rows: set<Event>, poll: Poll, handed: set<Event>)
    requires InFlightOk(rows, poll, handed) && poll.Handing? && poll.rest != []
    ensures InFlightOk(rows, poll.(delivered := poll.delivered + [poll.rest[0]], rest := poll.rest[1..], todo := []),
                       handed + {poll.rest[0]})
  {
    assert poll.rest == [poll.rest[0]] + poll.rest[1..];
    assert (poll.delivered + [poll.rest[0]]) + poll.rest[1..] == poll.delivered + poll.rest;
  }

  lemma PassKeepsLoss(s: State)
    requires LossInv(s) && s.poll.Handing? && s.poll.rest != []
    ensures s.poll.id in s.gateways && LossInv(DoPass(s))
  {
    LogGrows(s.log, s.poll.rest[0], s.gateways[s.poll.id].subscribers);
    PassKeepsInFlight(s.rows, s.poll, Handed(s.log));
  }

  lemma EndKeepsInFlight(rows: set<Event>, poll: Poll, handed: set<Event>, blocked: bool)
    requires InFlightOk(rows, poll, handed) && poll.Handing? && TimeOrdered(poll.delivered + poll.rest)
    ensures InFlightOk(rows, HandedOut(poll.id, poll.version, poll.since, poll.resuming, poll.delivered, blocked), handed)
  {
    var batch := poll.delivered + poll.rest;
    forall r | r in rows && r.gatewayId == poll.id && r.processed >= poll.since
      ensures r in handed || NotBefore(r, poll.delivered)
    {
      if r !in handed && r in poll.rest { RestIsLater(batch, poll.delivered, poll.rest, r); }
    }
  }

  lemma RestIsLater(batch: seq<Event>, delivered: seq<Event>, rest: seq<Event>, e: Event)
    requires batch == delivered + rest && TimeOrdered(batch) && e in rest
    ensures NotBefore(e, delivered)
  {
    var k :| 0 <= k < |rest| && rest[k] == e;
    assert batch[|delivered| + k] == e;
    assert forall i | 0 <= i < |delivered| :: batch[i] == delivered[i];
  }

  lemma EndKeepsLoss(s: State)
    requires Inv(s) && LossInv(s) && s.poll.Handing?
    ensures var p := s.poll;
      LossInv(s.(poll := HandedOut(p.id, p.version, p.since, p.resuming, p.delivered, p.rest != [])))
  {
    EndKeepsInFlight(s.rows, s.poll, Handed(s.log), s.poll.rest != []);
  }

  lemma OfferKeepsLoss(s: State)
    requires Inv(s) && LossInv(s) && Enabled(s, OfferNext)
    ensures LossInv(DoOffer(s))
  {
    var p, subscribers := s.poll, s.gateways[s.poll.id].subscribers;
    if p.rest == [] || !ChannelsAvailable(s.channels, subscribers) {
      EndKeepsLoss(s);
    } else if subscribers == [] {
      PassKeepsLoss(s);
    } else {
      SameForLoss(s, s.(poll := p.(todo := subscribers)));
    }
  }

  lemma SameForLoss(s: State, t: State)
    requires LossInv(s) && t.rows == s.rows && t.origin == s.origin && t.gateways == s.gateways && t.log == s.log
    requires SamePoll(s.poll, t.poll) || t.poll.Idle?
    ensures LossInv(t)
  {
  }

  lemma SendKeepsLoss(s: State)
    requires LossInv(s) && Enabled(s, SendNext)
    ensures LossInv(DoSend(s))
  {
    var r := Send(s.channels, s.poll.todo[0], s.poll.rest[0]);
    var m := s.(channels := r.channels, fault := s.fault || r.fault, poll := s.poll.(todo := s.poll.todo[1..]));
    SameForLoss(s, m);
    if |s.poll.todo| == 1 { PassKeepsLoss(m); }
  }

  lemma HandOutKeepsLoss(s: State)
    requires Inv(s) && LossInv(s) && s.poll.Fetched? && Attended(s, HandOut)
    ensures LossInv(DoHandOut(s))
  {
    assert [] + s.poll.batch == s.poll.batch;
  }

  lemma WriteBackKeepsLoss(s: State)
    requires Inv(s) && LossInv(s) && s.poll.HandedOut?
    ensures LossInv(DoWriteBack(s))
  {
    WriteBackReachesReach(s);
    CursorInRange(s, s.poll.id);
    if s.poll.delivered != [] {
      assert s.poll.delivered[|s.poll.delivered| - 1] in s.poll.delivered;
    }
  }

  lemma SnapshotKeepsLoss(s: State, now: int)
    requires LossInv(s) && s.poll.Idle? && s.page != []
    ensures LossInv(DoSnapshot(s, now))
  {
  }

  lemma PollerStepKeepsLoss(s: State, step: Step)
    requires Inv(s) && WakeInv(s) && LossInv(s) && Enabled(s, step) && PollerStep(step) && Attended(s, step)
    ensures LossInv(Do(s, step))
  {
    match step {
      case Fetch(result) => FetchKeepsLoss(s, result);
      case HandOut => HandOutKeepsLoss(s);
      case OfferNext => OfferKeepsLoss(s);
      case SendNext => SendKeepsLoss(s);
      case WriteBack => WriteBackKeepsLoss(s);
      case Snapshot(now) => SnapshotKeepsLoss(s, now);
      case ReadPage(_) | SkipRow | AbortFetch | Stop => SameForLoss(s, Do(s, step));
      case _ =>
    }
  }

  lemma RegistryStepKeepsLoss(s: State, step: Step)
    requires Inv(s) && LossInv(s) && Enabled(s, step) && RegistryStep(step)
    ensures LossInv(Do(s, step))
  {
    RegistryStepLeaves(s, step);
    RegistryStepFrame(s, step);
    RegistryFrameKeepsLoss(s.gateways, s.origin, s.rows, Handed(s.log), Do(s, step).gateways);
  }

  /** Steps that at most take rows away. */
  lemma FewerRowsKeepLoss(s: State, t: State)
    requires LossInv(s) && t.rows <= s.rows && t.origin == s.origin && t.gateways == s.gateways && t.log == s.log
    requires t.poll == s.poll
    ensures LossInv(t)
  {
  }

  lemma OtherStepTakesRows(s: State, step: Step)
    requires Enabled(s, step) && !PollerStep(step) && !RegistryStep(step) && !step.Publish?
    ensures var t := Do(s, step);
      t.rows <= s.rows && t.origin == s.origin && t.gateways == s.gateways && t.log == s.log && t.poll == s.poll
  {
  }

  lemma CallerStepKeepsLoss(s: State, step: Step)
    requires Inv(s) && LossInv(s) && Enabled(s, step) && !PollerStep(step) && CommitOrder(s, step)
    ensures LossInv(Do(s, step))
  {
    if RegistryStep(step) {
      RegistryStepKeepsLoss(s, step);
    } else if step.Publish? {
      PublishKeepsLoss(s, step.event, step.version);
    } else {
      OtherStepTakesRows(s, step);
      FewerRowsKeepLoss(s, Do(s, step));
    }
  }

  lemma {:induction false} RunKeepsLoss(s: State, steps: seq<Step>)
    requires Inv(s) && WakeInv(s) && LossInv(s) && Throughout(s, steps, Orderly)
    ensures Inv(Run(s, steps)) && WakeInv(Run(s, steps)) && LossInv(Run(s, steps))
    decreases |steps|
  {
    if steps != [] {
      var step := steps[0];
      StepKeepsInv(s, step);
      if Enabled(s, step) {
        if PollerStep(step) {
          PollerStepKeepsWake(s, step);
          PollerStepKeepsLoss(s, step);
        } else {
          CallerStepKeepsWake(s, step);
          CallerStepKeepsLoss(s, step);
        }
      }
      RunKeepsLoss(Apply(s, step), steps[1..]);
    }
  }
}
