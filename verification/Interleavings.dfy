// Runs in which the steps of one goroutine are mixed with those of others.
module Interleavings {
  import opened HubModel

  /** What goes on beside the poll goroutine: other replicas work on the tables, consumers receive, and callers of this
      replica register, subscribe, unsubscribe and close channels. */
  predicate Foreign(step: Step) {
    !PollerStep(step)
  }

  /** The gateway row that the step may add is one of these. */
  predicate Among(ids: set<GatewayId>, step: Step) {
    (step.InsertGateway? ==> step.id in ids) && (step.Publish? ==> step.event.gatewayId in ids)
  }

  ghost predicate AllForeign(steps: seq<Step>) {
    forall step | step in steps :: Foreign(step)
  }

  ghost predicate Scheduled(others: nat -> seq<Step>, ids: set<GatewayId>) {
    forall k, step | step in others(k) :: Foreign(step) && Among(ids, step)
  }

  lemma ScheduledAmongMore(others: nat -> seq<Step>, ids: set<GatewayId>, more: set<GatewayId>)
    requires Scheduled(others, ids) && ids <= more
    ensures Scheduled(others, more)
  {
    forall k, step | step in others(k) ensures Foreign(step) && Among(more, step) {
      assert Among(ids, step);
    }
  }

  /** The steps of the poll goroutine in a run. */
  ghost function Own(steps: seq<Step>): seq<Step> {
    if steps == [] then []
    else Own(steps[..|steps| - 1]) + if PollerStep(steps[|steps| - 1]) then [steps[|steps| - 1]] else []
  }

  lemma {:induction false} OwnConcat(a: seq<Step>, b: seq<Step>)
    ensures Own(a + b) == Own(a) + Own(b)
    decreases |b|
  {
    if b == [] {
      assert a + b == a;
    } else {
      var n := |b| - 1;
      assert (a + b)[..|a + b| - 1] == a + b[..n];
      OwnConcat(a, b[..n]);
    }
  }

  lemma {:induction false} ForeignHasNoOwn(steps: seq<Step>)
    requires AllForeign(steps)
    ensures Own(steps) == []
    decreases |steps|
  {
    if steps != [] {
      assert steps[|steps| - 1] in steps;
      ForeignHasNoOwn(steps[..|steps| - 1]);
    }
  }

  lemma OwnStep(steps: seq<Step>, step: Step)
    ensures Own(steps + [step]) == Own(steps) + if PollerStep(step) then [step] else []
  {
    assert (steps + [step])[..|steps|] == steps;
  }

  /** The run is made up of these steps of the poll goroutine and others in between. */
  ghost predicate Traced(steps: seq<Step>, own: seq<Step>) {
    Own(steps) == own
  }

  lemma TraceOthers(steps: seq<Step>, own: seq<Step>, acts: seq<Step>)
    requires Traced(steps, own) && AllForeign(acts)
    ensures Traced(steps + acts, own)
  {
    OwnConcat(steps, acts);
    ForeignHasNoOwn(acts);
    assert own + [] == own;
  }

  lemma TraceStep(steps: seq<Step>, own: seq<Step>, step: Step)
    requires Traced(steps, own) && PollerStep(step)
    ensures Traced(steps + [step], own + [step])
  {
    OwnStep(steps, step);
  }

  lemma TraceConcat(a: seq<Step>, ownA: seq<Step>, b: seq<Step>, ownB: seq<Step>)
    requires Traced(a, ownA) && Traced(b, ownB)
    ensures Traced(a + b, ownA + ownB)
  {
    OwnConcat(a, b);
  }

  lemma {:induction false} OwnContains(steps: seq<Step>, step: Step)
    requires step in steps && PollerStep(step)
    ensures step in Own(steps)
    decreases |steps|
  {
    if step != steps[|steps| - 1] { OwnContains(steps[..|steps| - 1], step); }
  }

  type EventQuery = (set<Event>, GatewayId, int) -> seq<Event>

  /** The database answers every query correctly, with rows of equal timestamps in some order. */
  ghost predicate Answering(query: EventQuery) {
    forall rows, id, since :: IsQueryResult(rows, id, since, query(rows, id, since))
  }

  ghost predicate ChannelsNumbered(channels: Channels, next: ChanId) {
    forall c | c in channels :: c < next
  }
}
