/** An `Arq` never seals two different payloads under one nonce of its own counter. */
module ArqNonces {
  import opened Bytes
  import opened Arq
  import opened ArqNetwork

  /** From `s` to `s'` the queue grew by datagrams numbered on from the counter. */
  ghost predicate Numbers(s: State, s': State) {
    && s'.txSalt == s.txSalt && s.outq <= s'.outq
    && |s'.outq| - |s.outq| == s'.pktSeq - s.pktSeq
    && forall i | |s.outq| <= i < |s'.outq| ::
         && s'.outq[i].Sealed? && s'.outq[i].salt == s.txSalt && s'.outq[i].nonce == s.pktSeq + i - |s.outq|
         && !s'.outq[i].body.Control?
  }

  lemma Chained(s: State, t: State, u: State)
    requires Numbers(s, t) && Numbers(t, u)
    ensures Numbers(s, u)
  {
    forall i | |s.outq| <= i < |u.outq|
      ensures u.outq[i].Sealed? && u.outq[i].salt == s.txSalt && u.outq[i].nonce == s.pktSeq + i - |s.outq|
      ensures !u.outq[i].body.Control?
    {
      if i < |t.outq| { assert u.outq[i] == t.outq[i]; }
    }
  }

  lemma SealNumbers(s: State, body: Body)
    requires !body.Control?
    ensures Numbers(s, SealOut(s, body))
  {
  }

  lemma SameCounter(s: State, s': State)
    requires s'.txSalt == s.txSalt && s'.outq == s.outq && s'.pktSeq == s.pktSeq
    ensures Numbers(s, s')
  {
  }

  lemma {:induction false} FillNumbers(s: State, now: int)
    ensures Numbers(s, FillWindow(s, now))
    decreases |s.pending|
  {
    if s.CanFill() {
      FillNumbers(FillOne(s, now), now);
      assert Numbers(s, FillOne(s, now));
      hide FillOne, Numbers;
      Chained(s, FillOne(s, now), FillWindow(FillOne(s, now), now));
    } else {
      SameCounter(s, s);
    }
  }

  lemma {:induction false} DropSame(s: State, ack: nat, now: int)
    ensures var s' := DropAcked(s, ack, now); s'.txSalt == s.txSalt && s'.outq == s.outq && s'.pktSeq == s.pktSeq
    decreases |s.unacked|
  {
    hide RttUpdate;
    if s.unacked != [] && s.unacked[0].End() <= ack {
      var t := if s.unacked[0].xmits == 1 then RttUpdate(s.timer, now - s.unacked[0].sentMs) else s.timer;
      DropSame(s.(unacked := s.unacked[1..], timer := t), ack, now);
    }
  }

  lemma RetransmitNumbers(s: State, now: int)
    ensures Numbers(s, RetransmitFirst(s, now))
  {
  }

  lemma AckNumbers(s: State, ack: nat, now: int)
    ensures Numbers(s, ProcessAck(s, ack, now))
  {
    DropSame(s, ack, now);
    var s1 := DropAcked(s, ack, now);
    hide DropAcked;
    RetransmitNumbers(s1.(dupAcks := s1.dupAcks + 1), now);
  }

  lemma {:induction false} DrainSame(s: State)
    ensures var s' := DrainReorder(s); s'.txSalt == s.txSalt && s'.outq == s.outq && s'.pktSeq == s.pktSeq
    decreases |s.reorder|
  {
    var i := FirstHit(s.reorder, s.rcvNxt);
    if i < |s.reorder| { DrainSame(DrainOne(s, i)); }
  }

  lemma AbsorbNumbers(s: State, body: Body)
    requires !body.Control?
    ensures Numbers(s, Absorb(s, body))
  {
    if body.Data? && body.off <= s.rcvNxt < body.off + |body.data| {
      DrainSame(Extend(s, body.data[s.rcvNxt - body.off..]));
    }
    hide DrainReorder;
    SameCounter(s, Absorb(s, body));
  }

  lemma PacketNumbers(s: State, d: Datagram, now: int)
    ensures Numbers(s, OnPacket(s, d, now))
  {
    hide Absorb, ProcessAck, FillWindow, Numbers;
    match Open(s, d)
    case None => SameCounter(s, s);
    case Some(body) =>
      var s1 := ProcessAck(s, body.ack, now);
      var s2 := Absorb(s1, body);
      AckNumbers(s, body.ack, now);
      AbsorbNumbers(s1, body);
      FillNumbers(s2, now);
      Chained(s, s1, s2);
      Chained(s, s2, FillWindow(s2, now));
  }

  lemma TickNumbers(s: State, now: int)
    ensures Numbers(s, Arq.Tick(s, now))
  {
    var s1 := HeadTimer(s, now);
    var s2 := FillWindow(s1, now);
    RetransmitNumbers(s.(timer := Backoff(s.timer)), now);
    assert Numbers(s, s1);
    FillNumbers(s1, now);
    SealNumbers(s2, PureAck(s2.rcvNxt));
    SameCounter(s2, s2);
    hide Numbers, HeadTimer, FillWindow;
    Chained(s, s1, s2);
    Chained(s, s2, PayAck(s2));
  }

  // ----- Every datagram ever sealed -----

  ghost predicate OneEach(salt: nat, top: nat, log: set<Datagram>) {
    && (forall d | d in log && From(d, salt) :: d.nonce < top)
    && forall d, e | d in log && e in log && From(d, salt) && From(e, salt) && d.nonce == e.nonce :: d == e
  }

  /** The queue is this endpoint's, and its nonces lie between those sent and the counter. */
  ghost predicate Fresh(s: State, net: set<Datagram>) {
    && |s.outq| <= s.pktSeq
    && (forall i | 0 <= i < |s.outq| ::
          s.outq[i].Sealed? && s.outq[i].salt == s.txSalt && s.outq[i].nonce == s.pktSeq - |s.outq| + i)
    && OneEach(s.txSalt, s.pktSeq - |s.outq|, net)
  }

  lemma NumbersFresh(s: State, s': State, net: set<Datagram>)
    requires Fresh(s, net) && Numbers(s, s')
    ensures Fresh(s', net)
  {
    forall i | 0 <= i < |s'.outq|
      ensures s'.outq[i].Sealed? && s'.outq[i].salt == s'.txSalt && s'.outq[i].nonce == s'.pktSeq - |s'.outq| + i
    {
      if i < |s.outq| { assert s'.outq[i] == s.outq[i]; }
    }
  }

  lemma PollFresh(s: State, net: set<Datagram>)
    requires Fresh(s, net)
    ensures Fresh(PollOut(s), net + Queued(s))
  {
  }

  /** What the other side sends bears another salt. */
  lemma OtherFresh(s: State, net: set<Datagram>, other: State)
    requires Fresh(s, net) && other.txSalt != s.txSalt
    requires forall i | 0 <= i < |other.outq| :: other.outq[i].Sealed? && other.outq[i].salt == other.txSalt
    ensures Fresh(s, net + Queued(other))
  {
  }

  ghost predicate BothFresh(w: World) {
    && Fresh(w.a.arq, w.net) && Fresh(w.b.arq, w.net)
    && w.a.arq.txSalt == SALT_A && w.b.arq.txSalt == SALT_B
  }

  lemma EndFresh(x: End, net: set<Datagram>, e: Event)
    requires Fresh(x.arq, net)
    ensures Fresh(StepEnd(x, net, e).arq, StepNet(x, net, e)) && StepEnd(x, net, e).arq.txSalt == x.arq.txSalt
  {
    match e
    case Send(_, data, now) =>
      FillNumbers(x.arq.(pending := x.arq.pending + data), now);
      hide FillWindow;
      NumbersFresh(x.arq, AppSend(x.arq, data, now), net);
    case Recv(_, d, now) =>
      PacketNumbers(x.arq, d, now);
      hide OnPacket;
      NumbersFresh(x.arq, OnPacket(x.arq, d, now), net);
    case Tick(_, now) =>
      TickNumbers(x.arq, now);
      NumbersFresh(x.arq, Arq.Tick(x.arq, now), net);
    case Poll(_) => PollFresh(x.arq, net);
    case Take(_) => NumbersFresh(x.arq, TakeInbox(x.arq), net);
  }

  lemma StepFresh(w: World, e: Event)
    requires BothFresh(w)
    ensures BothFresh(Step(w, e))
  {
    var x, y := if e.side == A then w.a else w.b, if e.side == A then w.b else w.a;
    EndFresh(x, w.net, e);
    OtherFresh(y.arq, w.net, x.arq);
    hide StepEnd;
  }

  lemma {:induction false} RunFresh(es: seq<Event>)
    ensures BothFresh(Run(Start(), es))
  {
    hide Step, Fresh;
    if es == [] {
      assert Fresh(Init(SALT_A, SALT_B), {}) && Fresh(Init(SALT_B, SALT_A), {}) by { StartFresh(); }
    } else {
      RunFresh(es[..|es| - 1]);
      StepFresh(Run(Start(), es[..|es| - 1]), es[|es| - 1]);
    }
  }

  lemma StartFresh()
    ensures Fresh(Init(SALT_A, SALT_B), {}) && Fresh(Init(SALT_B, SALT_A), {})
  {
  }

  /** For every run: two datagrams one endpoint sealed under the same nonce are the same datagram. */
  lemma NoncesFresh(es: seq<Event>, d: Datagram, e: Datagram, salt: nat)
    requires salt == SALT_A || salt == SALT_B
    requires var w := Run(Start(), es);
             var all := All(w.a, w.b, w.net);
             d in all && e in all && From(d, salt) && From(e, salt) && d.nonce == e.nonce
    ensures d == e
  {
    RunFresh(es);
    var w := Run(Start(), es);
    PollFresh(w.a.arq, w.net);
    PollFresh(w.b.arq, w.net);
    OtherFresh(w.a.arq, w.net, w.b.arq);
    OtherFresh(w.b.arq, w.net, w.a.arq);
    hide Fresh;
  }
}
