// Whole hand-outs, from the lock to the last check, whatever consumers, publishers
// and cleaners do in between: what any of them amounts to, and runs that complete one.
module HubHandOuts {
  import opened HubModel
  import opened HubInvariant
  import opened HubReceipts
  import opened HubRuns

  function LogOf(delivered: seq<Event>, receivers: seq<ChanId>): (d: seq<Delivery>)
    ensures |d| == |delivered|
  {
    seq(|delivered|, i requires 0 <= i < |delivered| => Delivery(delivered[i], receivers))
  }

  lemma HandedGrows(log: seq<Delivery>, delivered: seq<Event>, receivers: seq<ChanId>)
    ensures Handed(log + LogOf(delivered, receivers)) == Handed(log) + (set e | e in delivered)
    ensures Received(log + LogOf(delivered, receivers))
         == Received(log) + (if receivers != [] then (set e | e in delivered) else {})
  {
    var more := LogOf(delivered, receivers);
    forall e | e in delivered
      ensures e in Handed(log + more)
      ensures receivers != [] ==> e in Received(log + more)
    {
      var i :| 0 <= i < |delivered| && delivered[i] == e;
      assert more[i] in log + more && more[i].event == e;
    }
    assert forall d | d in log :: d in log + more;
    assert forall d | d in more :: d.event in delivered && d.receivers == receivers;
  }

  // ------------------------------------------------------ any interleaving

  /** How far a hand-out of `batch` to `subscribers` has got. */
  ghost predicate SoFar(subscribers: seq<ChanId>, batch: seq<Event>, log0: seq<Delivery>, poll: Poll, log: seq<Delivery>) {
    && (poll.Handing? || poll.HandedOut?)
    && log == log0 + LogOf(poll.delivered, subscribers)
    && poll.delivered <= batch
    && (poll.Handing? ==> poll.delivered + poll.rest == batch && (subscribers == [] ==> poll.todo == []))
    && (poll.HandedOut? ==> poll.blocked == (|poll.delivered| < |batch|) && (subscribers == [] ==> !poll.blocked))
  }

  /** The hand-out that began in `s0` is still the poll in flight. */
  ghost predicate InHandOut(s0: State, s: State) {
    && s0.poll.Fetched? && s0.poll.id in s0.gateways && s0.poll.id in s.gateways
    && !s.poll.Idle? && s.poll.id == s0.poll.id && s.poll.version == s0.poll.version
    && s.poll.since == s0.poll.since && s.poll.resuming == s0.poll.resuming
    && s.gateways[s.poll.id].lastPolled == s0.gateways[s.poll.id].lastPolled
    && s0.committed <= s.committed
    && SoFar(s0.gateways[s.poll.id].subscribers, s0.poll.batch, s0.log, s.poll, s.log)
    && (s.poll.Handing? ==> s.gateways[s.poll.id].subscribers == s0.gateways[s.poll.id].subscribers)
  }

  lemma LogOneMore(delivered: seq<Event>, e: Event, receivers: seq<ChanId>, log: seq<Delivery>)
    ensures (log + LogOf(delivered, receivers)) + [Delivery(e, receivers)] == log + LogOf(delivered + [e], receivers)
  {
  }

  lemma PassGoesOn(subscribers: seq<ChanId>, batch: seq<Event>, log0: seq<Delivery>, poll: Poll, log: seq<Delivery>)
    requires SoFar(subscribers, batch, log0, poll, log) && poll.Handing? && poll.rest != []
    ensures SoFar(subscribers, batch, log0,
                  poll.(delivered := poll.delivered + [poll.rest[0]], rest := poll.rest[1..], todo := []),
                  log + [Delivery(poll.rest[0], subscribers)])
  {
    LogOneMore(poll.delivered, poll.rest[0], subscribers, log0);
    assert (poll.delivered + [poll.rest[0]]) + poll.rest[1..] == poll.delivered + poll.rest;
  }

  lemma LockApplies(s: State)
    requires s.poll.Fetched? && s.poll.id in s.gateways
    ensures Apply(s, HandOut) == DoHandOut(s)
  {
  }

  lemma HandOutBegins(s: State)
    requires s.poll.Fetched? && s.poll.id in s.gateways
    ensures InHandOut(s, DoHandOut(s))
  {
    var subscribers := s.gateways[s.poll.id].subscribers;
    assert [] + s.poll.batch == s.poll.batch && s.log + LogOf([], subscribers) == s.log;
  }

  lemma OfferGoesOn(s0: State, s: State)
    requires InHandOut(s0, s) && Enabled(s, OfferNext)
    ensures InHandOut(s0, DoOffer(s))
  {
    OfferStays(s);
    var subscribers := s.gateways[s.poll.id].subscribers;
    if s.poll.rest != [] && ChannelsAvailable(s.channels, subscribers) && subscribers == [] {
      PassGoesOn(subscribers, s0.poll.batch, s0.log, s.poll, s.log);
    }
  }

  lemma SendGoesOn(s0: State, s: State)
    requires InHandOut(s0, s) && Enabled(s, SendNext)
    ensures InHandOut(s0, DoSend(s))
  {
    SendStays(s);
    PassGoesOn(s.gateways[s.poll.id].subscribers, s0.poll.batch, s0.log, s.poll, s.log);
  }

  lemma SameHandOut(s0: State, s: State, t: State)
    requires InHandOut(s0, s) && t.poll == s.poll && t.log == s.log && s.committed <= t.committed
    requires s.poll.id in t.gateways && t.gateways[s.poll.id].lastPolled == s.gateways[s.poll.id].lastPolled
    requires s.poll.Handing? ==> t.gateways == s.gateways
    ensures InHandOut(s0, t)
  {
  }

  lemma CallerGoesOn(s0: State, s: State, step: Step)
    requires ChannelInv(s) && InHandOut(s0, s) && Enabled(s, step) && !PollerStep(step)
    ensures InHandOut(s0, Do(s, step))
  {
    CallerStepKeeps(s, step);
    CallerKeepsCursor(s, step, s.poll.id);
    SameHandOut(s0, s, Do(s, step));
  }

  lemma CallerKeepsCursor(s: State, step: Step, g: GatewayId)
    requires Enabled(s, step) && !PollerStep(step) && g in s.gateways
    ensures var t := Do(s, step);
      s.committed <= t.committed && g in t.gateways && t.gateways[g].lastPolled == s.gateways[g].lastPolled
  {
    if RegistryStep(step) {
      RegistryStepLeaves(s, step);
      RegistryStepFrame(s, step);
    }
  }

  lemma OtherPollerStepsWait(s: State, step: Step)
    requires s.poll.Handing? || s.poll.HandedOut?
    requires PollerStep(step) && !step.OfferNext? && !step.SendNext? && !step.WriteBack?
    ensures !Enabled(s, step)
  {
  }

  lemma StepGoesOn(s0: State, s: State, step: Step)
    requires ChannelInv(s) && InHandOut(s0, s) && !step.WriteBack?
    ensures InHandOut(s0, Apply(s, step))
  {
    if !PollerStep(step) {
      if Enabled(s, step) { CallerGoesOn(s0, s, step); }
    } else if step.OfferNext? {
      if Enabled(s, step) { OfferGoesOn(s0, s); }
    } else if step.SendNext? {
      if Enabled(s, step) { SendGoesOn(s0, s); }
    } else {
      OtherPollerStepsWait(s, step);
    }
  }

  /** Up to its write-back, a hand-out has put a prefix of the batch on the list that was there when it took the lock,
      whatever else happens; it stops short only because a buffer was full, and never if nobody is there. */
  lemma {:induction false} HandOutGoesOn(s0: State, s: State, steps: seq<Step>)
    requires Inv(s) && InHandOut(s0, s) && WriteBack !in steps
    ensures InHandOut(s0, Run(s, steps))
    decreases |steps|
  {
    if steps != [] {
      StepKeepsInv(s, steps[0]);
      StepGoesOn(s0, s, steps[0]);
      HandOutGoesOn(s0, Apply(s, steps[0]), steps[1..]);
    }
  }

  // ------------------------------------------------------- runs that complete

  /** The steps of the delivery loop, and those of consumers. */
  predicate LoopStep(step: Step) {
    step.OfferNext? || step.SendNext?
  }

  predicate LoopOrReceive(step: Step) {
    LoopStep(step) || step.Receive?
  }

  ghost predicate OnlyLoop(steps: seq<Step>) {
    forall step | step in steps :: LoopStep(step)
  }

  ghost predicate OnlyLoopOrReceive(steps: seq<Step>) {
    forall step | step in steps :: LoopOrReceive(step)
  }

  /** Only channels, the log and the poll itself have changed. */
  lemma LoopStepStays(s: State, step: Step)
    requires (s.poll.Handing? || s.poll.HandedOut?) && LoopOrReceive(step)
    ensures StaysWithPoll(s, Apply(s, step))
  {
    if Enabled(s, step) && LoopStep(step) { HandOutStepFrame(s, step); }
  }

  lemma {:induction false} LoopStays(s: State, steps: seq<Step>)
    requires (s.poll.Handing? || s.poll.HandedOut?) && OnlyLoopOrReceive(steps)
    ensures StaysWithPoll(s, Run(s, steps))
    decreases |steps|
  {
    if steps != [] {
      LoopStepStays(s, steps[0]);
      LoopStays(Apply(s, steps[0]), steps[1..]);
      StaysTransitive(s, Apply(s, steps[0]), Run(s, steps));
    }
  }

  lemma StaysTransitive(s: State, t: State, u: State)
    requires StaysWithPoll(s, t) && StaysWithPoll(t, u)
    ensures StaysWithPoll(s, u)
  {
  }

  /** What the loop does next when nothing else happens. */
  ghost function NextLoopStep(s: State): Step
    requires s.poll.Handing?
  {
    if s.poll.todo == [] then OfferNext else SendNext
  }

  ghost function ToGo(s: State): nat
    requires s.poll.Handing? && s.poll.id in s.gateways
  {
    if s.poll.todo == [] then |s.gateways[s.poll.id].subscribers| + 1 else |s.poll.todo|
  }

  /** If the loop goes on, there is less to do. */
  ghost predicate Advanced(s: State, t: State)
    requires s.poll.Handing? && s.poll.id in s.gateways
  {
    t.poll.Handing? && t.poll.id in t.gateways ==>
      |t.poll.rest| < |s.poll.rest| || (|t.poll.rest| == |s.poll.rest| && ToGo(t) < ToGo(s))
  }

  lemma OfferAdvances(s: State)
    requires Enabled(s, OfferNext)
    ensures StaysWithPoll(s, DoOffer(s)) && Advanced(s, DoOffer(s))
  {
    OfferStays(s);
  }

  lemma SendAdvances(s: State)
    requires Enabled(s, SendNext)
    ensures StaysWithPoll(s, DoSend(s)) && Advanced(s, DoSend(s))
  {
    SendStays(s);
  }

  lemma LoopAdvances(s: State)
    requires ChannelInv(s) && s.poll.Handing?
    ensures Enabled(s, NextLoopStep(s))
    ensures var t := Do(s, NextLoopStep(s)); StaysWithPoll(s, t) && Advanced(s, t)
  {
    if s.poll.todo == [] { OfferAdvances(s); } else { SendAdvances(s); }
  }

  /** Left alone, the loop comes to its end. */
  lemma {:induction false} Undisturbed(s: State) returns (steps: seq<Step>)
    requires Inv(s) && s.poll.Handing?
    ensures OnlyLoop(steps) && Run(s, steps).poll.HandedOut?
    ensures StaysWithPoll(s, Run(s, steps))
    decreases |s.poll.rest|, ToGo(s)
  {
    var step := NextLoopStep(s);
    var t := Apply(s, step);
    StepKeepsInv(s, step);
    LoopAdvances(s);
    if t.poll.HandedOut? {
      steps := [step];
      RunOne(s, step);
    } else {
      var more := Undisturbed(t);
      steps := [step] + more;
      StaysTransitive(s, t, Run(t, more));
    }
  }

  // With consumers that make room, everything goes out.

  /** What has gone out and what is to come is the same batch as before. */
  ghost predicate Goes(s: State, t: State) {
    && s.poll.Handing? && (t.poll.Handing? || t.poll.HandedOut?)
    && (t.poll.Handing? ==>
          && t.poll.delivered + t.poll.rest == s.poll.delivered + s.poll.rest
          && Handed(t.log) + (set e | e in t.poll.rest) == Handed(s.log) + (set e | e in s.poll.rest))
    && (t.poll.HandedOut? && !t.poll.blocked ==>
          && t.poll.delivered == s.poll.delivered + s.poll.rest
          && Handed(t.log) == Handed(s.log) + (set e | e in s.poll.rest))
  }

  lemma GoesTransitive(s: State, t: State, u: State)
    requires Goes(s, t) && Goes(t, u)
    ensures Goes(s, u)
  {
  }

  lemma PassGoes(s: State)
    requires s.poll.Handing? && s.poll.id in s.gateways && s.poll.rest != []
    ensures Goes(s, DoPass(s))
  {
    var p := s.poll;
    LogGrows(s.log, p.rest[0], s.gateways[p.id].subscribers);
    assert p.rest == [p.rest[0]] + p.rest[1..];
    assert (p.delivered + [p.rest[0]]) + p.rest[1..] == p.delivered + p.rest;
  }

  lemma OfferGoes(s: State)
    requires Enabled(s, OfferNext)
    ensures Goes(s, DoOffer(s))
  {
    var p, subscribers := s.poll, s.gateways[s.poll.id].subscribers;
    if p.rest == [] {
      assert p.delivered + p.rest == p.delivered;
    } else if ChannelsAvailable(s.channels, subscribers) && subscribers == [] {
      PassGoes(s);
    }
  }

  lemma SendGoes(s: State)
    requires Enabled(s, SendNext)
    ensures Goes(s, DoSend(s))
  {
    PassGoes(s);
  }

  lemma NextGoes(s: State)
    requires ChannelInv(s) && s.poll.Handing?
    ensures Enabled(s, NextLoopStep(s)) && Goes(s, Do(s, NextLoopStep(s)))
  {
    if s.poll.todo == [] { OfferGoes(s); } else { SendGoes(s); }
  }

  ghost function Receives(cs: seq<ChanId>): seq<Step> {
    seq(|cs|, i requires 0 <= i < |cs| => Receive(cs[i]))
  }

  /** Consumers have taken from the channels, and nothing else has happened. */
  ghost predicate OnlyTaken(s: State, t: State) {
    && t == s.(channels := t.channels)
    && forall c | c in s.channels :: c in t.channels && |t.channels[c].buffer| <= |s.channels[c].buffer|
  }

  lemma ReceiveTakes(s: State, c: ChanId)
    requires Inv(s) && c in s.channels
    ensures var t := Apply(s, Receive(c));
      Inv(t) && OnlyTaken(s, t) && |t.channels[c].buffer| < CHANNEL_CAPACITY
  {
    StepKeepsInv(s, Receive(c));
    assert ChannelOk(s.channels[c]);
    ReceiveIs(s, c);
  }

  lemma ReceiveIs(s: State, c: ChanId)
    requires c in s.channels
    ensures Apply(s, Receive(c)) == if s.channels[c].buffer == [] then s else DoReceive(s, c)
  {
  }

  lemma TakenTransitive(s: State, t: State, u: State)
    requires OnlyTaken(s, t) && OnlyTaken(t, u)
    ensures OnlyTaken(s, u)
  {
  }

  lemma {:induction false} RoomIsMade(s: State, cs: seq<ChanId>)
    requires Inv(s) && forall c | c in cs :: c in s.channels
    ensures var t := Run(s, Receives(cs));
      Inv(t) && OnlyTaken(s, t) && forall c | c in cs :: |t.channels[c].buffer| < CHANNEL_CAPACITY
    decreases |cs|
  {
    if cs != [] {
      var s1 := Apply(s, Receive(cs[0]));
      ReceiveTakes(s, cs[0]);
      assert Receives(cs)[0] == Receive(cs[0]) && Receives(cs)[1..] == Receives(cs[1..]);
      RoomIsMade(s1, cs[1..]);
      TakenTransitive(s, s1, Run(s1, Receives(cs[1..])));
    }
  }

  lemma OfferTakesUp(s: State)
    requires ChannelInv(s) && s.poll.Handing? && s.poll.todo == [] && s.poll.rest != []
    requires ChannelsAvailable(s.channels, s.gateways[s.poll.id].subscribers)
    ensures DoOffer(s).poll.Handing?
  {
  }

  lemma MakeRoom(s: State) returns (steps: seq<Step>)
    requires Inv(s) && s.poll.Handing?
    ensures forall step | step in steps :: step.Receive?
    ensures var t := Run(s, steps);
      Inv(t) && OnlyTaken(s, t) && ChannelsAvailable(t.channels, s.gateways[s.poll.id].subscribers)
  {
    var subscribers := s.gateways[s.poll.id].subscribers;
    steps := Receives(subscribers);
    RoomIsMade(s, subscribers);
  }

  lemma NextIsNotBlocked(s: State)
    requires ChannelInv(s) && s.poll.Handing? && ChannelsAvailable(s.channels, s.gateways[s.poll.id].subscribers)
    ensures Enabled(s, NextLoopStep(s))
    ensures var t := Do(s, NextLoopStep(s)); t.poll.HandedOut? ==> !t.poll.blocked
  {
    if s.poll.todo == [] && s.poll.rest != [] { OfferTakesUp(s); }
  }

  lemma TakenStays(s: State, t: State, u: State)
    requires OnlyTaken(s, t) && StaysWithPoll(t, u) && Goes(t, u)
    ensures StaysWithPoll(s, u) && Goes(s, u)
  {
  }

  /** One step of the loop after consumers have made room. */
  lemma NextWithRoom(s: State) returns (steps: seq<Step>)
    requires Inv(s) && s.poll.Handing?
    ensures OnlyLoopOrReceive(steps)
    ensures var t := Run(s, steps);
      && Inv(t) && StaysWithPoll(s, t) && Goes(s, t) && (t.poll.HandedOut? ==> !t.poll.blocked)
      && (t.poll.Handing? ==> |t.poll.rest| < |s.poll.rest| || (|t.poll.rest| == |s.poll.rest| && ToGo(t) < ToGo(s)))
  {
    var room := MakeRoom(s);
    var s1 := Run(s, room);
    var step := NextLoopStep(s1);
    StepKeepsInv(s1, step);
    LoopAdvances(s1);
    NextIsNotBlocked(s1);
    NextGoes(s1);
    RunThenStep(s, room, step);
    TakenStays(s, s1, Apply(s1, step));
    steps := room + [step];
  }

  /** If consumers keep taking, the whole batch goes out. */
  lemma {:induction false} Completed(s: State) returns (steps: seq<Step>)
    requires Inv(s) && s.poll.Handing?
    ensures OnlyLoopOrReceive(steps)
    ensures var t := Run(s, steps); t.poll.HandedOut? && !t.poll.blocked && StaysWithPoll(s, t) && Goes(s, t)
    decreases |s.poll.rest|, ToGo(s)
  {
    steps := NextWithRoom(s);
    var t := Run(s, steps);
    if t.poll.Handing? {
      var more := Completed(t);
      RunConcat(s, steps, more);
      StaysTransitive(s, t, Run(t, more));
      GoesTransitive(s, t, Run(t, more));
      steps := steps + more;
    }
  }
}
