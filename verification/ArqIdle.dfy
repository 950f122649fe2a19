/** An endpoint that owes nothing says nothing: acknowledgements are not themselves acknowledged. */
module ArqIdle {
  import opened Bytes
  import opened Arq
  import opened ArqNetwork
  import opened ArqTimers

  /** Nothing to send, nothing unacknowledged, and no acknowledgement owed. */
  predicate Idle(s: State) { s.pending == [] && s.unacked == [] && !s.needAck }

  /** The event gives the endpoint nothing to say: no bytes to send, and no segment arrives. */
  predicate Restful(x: End, e: Event) {
    && (e.Send? ==> e.data == [])
    && (e.Recv? && From(e.d, x.arq.rxSalt) ==> !e.d.body.Data?)
  }

  lemma NothingDropped(s: State, ack: nat, now: int)
    requires s.unacked == []
    ensures var s' := ProcessAck(s, ack, now); s' == s.(lastAck := s'.lastAck, dupAcks := s'.dupAcks)
  {
    DropTimesOnce(s, ack, now);
    NoSamples(s.timer, now);
    assert s.unacked[..0] == [] && s.unacked[0..] == [];
    hide DropAcked, Estimate, Sampled;
  }

  /** Such an event, at an endpoint at rest, leaves it at rest and adds nothing to its queue. */
  lemma StaysIdle(x: End, net: set<Datagram>, e: Event)
    requires Idle(x.arq) && Restful(x, e)
    ensures var x' := StepEnd(x, net, e);
            && Idle(x'.arq) && x'.arq.txSalt == x.arq.txSalt && x'.arq.rxSalt == x.arq.rxSalt
            && x'.arq.pktSeq == x.arq.pktSeq && (x'.arq.outq == x.arq.outq || (e.Poll? && x'.arq.outq == []))
  {
    match e
    case Send(_, data, _) => assert x.arq.pending + data == [];
    case Recv(_, d, now) =>
      if Receivable(net, d) && From(d, x.arq.rxSalt) { NothingDropped(x.arq, d.body.ack, now); }
      hide ProcessAck;
    case Tick(_, _) =>
    case Poll(_) =>
    case Take(_) =>
  }

  /** The endpoint of `side`. */
  function At(w: World, side: Side): End { if side == A then w.a else w.b }

  /**
   From any state in which an endpoint is at rest, and through any events of the network and its peer that
   bring it no segment, it seals nothing: its counter stands still and its queue at most empties. So two
   endpoints that have finished do not acknowledge each other for ever.
   */
  lemma {:induction false} IdleSilent(w: World, es: seq<Event>, side: Side)
    requires Idle(At(w, side).arq) && forall e | e in es && e.side == side :: Restful(At(w, side), e)
    ensures var x, x' := At(w, side).arq, At(Run(w, es), side).arq;
            && Idle(x') && x'.txSalt == x.txSalt && x'.rxSalt == x.rxSalt
            && x'.pktSeq == x.pktSeq && (x'.outq == x.outq || x'.outq == [])
  {
    if es != [] {
      var init, e := es[..|es| - 1], es[|es| - 1];
      IdleSilent(w, init, side);
      var w1 := Run(w, init);
      assert e in es;
      hide Run, StepEnd, StepNet, Idle;
      if e.side == side { StaysIdle(At(w1, side), w1.net, e); }
    }
  }

  /** A tick with nothing to send or resend pays the acknowledgement owed, if one is, and nothing else. */
  lemma TickPaysOnce(s: State, now: int)
    requires s.pending == [] && s.unacked == []
    ensures var s' := Arq.Tick(s, now);
            && Idle(s')
            && s'.outq == s.outq + if s.needAck then [Sealed(s.txSalt, s.pktSeq, PureAck(s.rcvNxt))] else []
  {
  }

  lemma {:induction false} FillDebt(s: State, now: int)
    ensures FillWindow(s, now).needAck ==> s.needAck
    decreases |s.pending|
  {
    if s.CanFill() { FillDebt(FillOne(s, now), now); }
  }

  lemma {:induction false} DropDebt(s: State, ack: nat, now: int)
    ensures DropAcked(s, ack, now).needAck == s.needAck
    decreases |s.unacked|
  {
    hide RttUpdate;
    if s.unacked != [] && s.unacked[0].End() <= ack {
      var t := if s.unacked[0].xmits == 1 then RttUpdate(s.timer, now - s.unacked[0].sentMs) else s.timer;
      DropDebt(s.(unacked := s.unacked[1..], timer := t), ack, now);
    }
  }

  lemma AckDebt(s: State, ack: nat, now: int)
    ensures ProcessAck(s, ack, now).needAck ==> s.needAck
  {
    hide DropAcked;
    DropDebt(s, ack, now);
  }

  /** Only a segment makes a debt: no other datagram does. */
  lemma OnlySegmentsOwe(s: State, d: Datagram, now: int)
    requires !s.needAck && (From(d, s.rxSalt) ==> !d.body.Data?)
    ensures !OnPacket(s, d, now).needAck
  {
    hide ProcessAck, FillWindow, Deliver;
    if From(d, s.rxSalt) {
      AckDebt(s, d.body.ack, now);
      FillDebt(ProcessAck(s, d.body.ack, now), now);
    }
  }
}
