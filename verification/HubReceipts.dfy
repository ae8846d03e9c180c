// What the history of hand-outs means on the channels: an entry is written when the
// event has been put on every channel of its list.
module HubReceipts {
  import opened HubModel
  import opened HubChannels
  import opened HubInvariant

  /** Channels stay, and what was sent on them stays sent. */
  ghost predicate Keeps(channels: Channels, channels': Channels) {
    forall c | c in channels :: c in channels' && channels[c].sent <= channels'[c].sent
  }

  ghost predicate HasGot(channels: Channels, c: ChanId, e: Event) {
    c in channels && e in channels[c].sent
  }

  /** Every entry of the log is on all channels of its list. */
  ghost predicate ReceiptsOk(log: seq<Delivery>, channels: Channels) {
    forall d, c | d in log && c in d.receivers :: HasGot(channels, c, d.event)
  }

  /** Subscribers that are no longer to do have got the event in hand. */
  ghost predicate InHandOk(gateways: Gateways, channels: Channels, poll: Poll) {
    poll.Handing? && poll.id in gateways && poll.rest != [] && poll.todo != [] ==>
      forall c | c in gateways[poll.id].subscribers && c !in poll.todo :: HasGot(channels, c, poll.rest[0])
  }

  ghost predicate ReceiptInv(s: State) {
    ReceiptsOk(s.log, s.channels) && InHandOk(s.gateways, s.channels, s.poll)
  }

  lemma KeepsReceipts(log: seq<Delivery>, channels: Channels, channels': Channels)
    requires ReceiptsOk(log, channels) && Keeps(channels, channels')
    ensures ReceiptsOk(log, channels')
  {
    forall d, c | d in log && c in d.receivers ensures HasGot(channels', c, d.event) {
      StillGot(channels, channels', c, d.event);
    }
  }

  lemma StillGot(channels: Channels, channels': Channels, c: ChanId, e: Event)
    requires HasGot(channels, c, e) && Keeps(channels, channels')
    ensures HasGot(channels', c, e)
  {
    var i :| 0 <= i < |channels[c].sent| && channels[c].sent[i] == e;
    assert channels'[c].sent[i] == e;
  }

  lemma SendReaches(channels: Channels, c: ChanId, e: Event)
    requires HasRoom(channels, c)
    ensures var channels' := Send(channels, c, e).channels; Keeps(channels, channels') && HasGot(channels', c, e)
  {
    var sent := Send(channels, c, e).channels[c].sent;
    assert sent[|sent| - 1] == e;
  }

  lemma PassKeepsReceipts(s: State)
    requires s.poll.Handing? && s.poll.id in s.gateways && s.poll.rest != [] && ReceiptsOk(s.log, s.channels)
    requires forall c | c in s.gateways[s.poll.id].subscribers :: HasGot(s.channels, c, s.poll.rest[0])
    ensures ReceiptInv(DoPass(s))
  {
  }

  lemma SendKeepsReceipts(s: State)
    requires Inv(s) && ReceiptInv(s) && Enabled(s, SendNext)
    ensures ReceiptInv(DoSend(s))
  {
    SendFindsRoom(s);
    var c0, e, subscribers := s.poll.todo[0], s.poll.rest[0], s.gateways[s.poll.id].subscribers;
    var r := Send(s.channels, c0, e);
    SendReaches(s.channels, c0, e);
    KeepsReceipts(s.log, s.channels, r.channels);
    forall c | c in subscribers && c !in s.poll.todo[1..] ensures HasGot(r.channels, c, e) {
      if c in s.poll.todo {
        assert c == c0;
      } else {
        StillGot(s.channels, r.channels, c, e);
      }
    }
    var m := s.(channels := r.channels, fault := s.fault || r.fault, poll := s.poll.(todo := s.poll.todo[1..]));
    if |s.poll.todo| == 1 { PassKeepsReceipts(m); }
  }

  lemma OfferKeepsReceipts(s: State)
    requires ReceiptInv(s) && Enabled(s, OfferNext)
    ensures ReceiptInv(DoOffer(s))
  {
    var p, subscribers := s.poll, s.gateways[s.poll.id].subscribers;
    if p.rest != [] && ChannelsAvailable(s.channels, subscribers) && subscribers == [] { PassKeepsReceipts(s); }
  }

  lemma CloseGatewayKeeps(s: State, id: GatewayId)
    requires ChannelInv(s) && Enabled(s, CloseGateway(id))
    ensures Keeps(s.channels, DoCloseGateway(s, id).channels)
  {
    CloseAllCloses(s.channels, s.gateways[id].subscribers);
  }

  lemma RegistryStepKeeps(s: State, step: Step)
    requires ChannelInv(s) && Enabled(s, step) && RegistryStep(step)
    ensures Keeps(s.channels, Do(s, step).channels) && Do(s, step).log == s.log && Do(s, step).poll == s.poll
  {
    match step {
      case CloseGateway(id) => CloseGatewayKeeps(s, id);
      case _ =>
    }
  }

  lemma CallerStepKeeps(s: State, step: Step)
    requires ChannelInv(s) && Enabled(s, step) && !PollerStep(step)
    ensures Keeps(s.channels, Do(s, step).channels) && Do(s, step).log == s.log && Do(s, step).poll == s.poll
    ensures s.poll.Handing? ==> Do(s, step).gateways == s.gateways
  {
    if RegistryStep(step) { RegistryStepKeeps(s, step); }
  }

  lemma CallerStepKeepsReceipts(s: State, step: Step)
    requires ChannelInv(s) && ReceiptInv(s) && Enabled(s, step) && !PollerStep(step)
    ensures ReceiptInv(Do(s, step))
  {
    CallerStepKeeps(s, step);
    var s' := Do(s, step);
    KeepsReceipts(s.log, s.channels, s'.channels);
    var p := s.poll;
    if p.Handing? && p.id in s.gateways && p.rest != [] && p.todo != [] {
      forall c | c in s.gateways[p.id].subscribers && c !in p.todo ensures HasGot(s'.channels, c, p.rest[0]) {
        StillGot(s.channels, s'.channels, c, p.rest[0]);
      }
    }
  }

  lemma PollerStepKeepsReceipts(s: State, step: Step)
    requires Inv(s) && ReceiptInv(s) && Enabled(s, step) && PollerStep(step)
    ensures ReceiptInv(Do(s, step))
  {
    match step {
      case OfferNext => OfferKeepsReceipts(s);
      case SendNext => SendKeepsReceipts(s);
      case _ =>
    }
  }

  lemma {:induction false} RunKeepsReceipts(s: State, steps: seq<Step>)
    requires Inv(s) && ReceiptInv(s)
    ensures ReceiptInv(Run(s, steps))
    decreases |steps|
  {
    if steps != [] {
      var step := steps[0];
      StepKeepsInv(s, step);
      if Enabled(s, step) {
        if PollerStep(step) { PollerStepKeepsReceipts(s, step); } else { CallerStepKeepsReceipts(s, step); }
      }
      RunKeepsReceipts(Apply(s, step), steps[1..]);
    }
  }

  /** Whatever the interleaving, a hand-out that the history records has put the event on every channel
      that was on the list. */
  lemma HandedOutMeansSent(s0: State, steps: seq<Step>, d: Delivery, c: ChanId)
    requires Initial(s0) && d in Run(s0, steps).log && c in d.receivers
    ensures var s := Run(s0, steps); c in s.channels && d.event in s.channels[c].sent
  {
    InitialInv(s0);
    RunKeepsReceipts(s0, steps);
    assert HasGot(Run(s0, steps).channels, c, d.event);
  }
}
