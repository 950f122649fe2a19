/** Run-level facts about retransmission: which segments are timed, and how often acks trigger a resend. */
module ArqKarn {
  import opened Bytes
  import opened Arq
  import opened ArqNetwork
  import opened ArqTimers

  predicate Carries(d: Datagram, salt: nat, off: nat) { From(d, salt) && d.body.Data? && d.body.off == off }

  /** A segment counted as sent once has had exactly one datagram sealed for it. */
  ghost predicate Once(s: State, log: set<Datagram>) {
    forall i | 0 <= i < |s.unacked| ::
      && s.unacked[i].xmits >= 1
      && (s.unacked[i].xmits == 1 ==>
            forall d1, d2 | d1 in log && d2 in log && Carries(d1, s.txSalt, s.unacked[i].off)
                            && Carries(d2, s.txSalt, s.unacked[i].off) :: d1 == d2)
  }

  ghost predicate LogGenuine(s: State, log: set<Datagram>, c: Cuts) {
    forall d | d in log && From(d, s.txSalt) :: Genuine(d, c)
  }

  lemma FillOneOnce(s: State, app: seq<Byte>, c: Cuts, log: set<Datagram>, now: int)
    requires Queue(s, app, c) && s.CanFill() && LogGenuine(s, log, c) && Once(s, log) && Queued(s) <= log
    ensures var s' := FillOne(s, now); Once(s', log + Queued(s')) && Queued(s') <= log + Queued(s')
    ensures var s' := FillOne(s, now); log + Queued(s') == log + {s'.outq[|s.outq|]}
  {
    var s' := FillOne(s, now);
    var novel := s'.outq[|s.outq|];
    FillOneQueues(s, app, c, now);
    assert forall d | d in Queued(s') :: d in Queued(s) || d == novel;
    forall i | 0 <= i < |s.unacked|
      ensures s'.unacked[i] == s.unacked[i] && s.unacked[i].off != s.sndNxt
    {
      assert s.unacked[i].off in c;
    }
  }

  lemma {:induction false} FillOnce(s: State, app: seq<Byte>, c: Cuts, log: set<Datagram>, now: int)
    requires Queue(s, app, c) && LogGenuine(s, log, c) && Once(s, log) && Queued(s) <= log
    ensures var s' := FillWindow(s, now); Once(s', log + Queued(s'))
    decreases |s.pending|
  {
    if s.CanFill() {
      FillOneOnce(s, app, c, log, now);
      var s1 := FillOne(s, now);
      var log1 := log + Queued(s1);
      var c1 := FillOneKeeps(s, app, c, now);
      assert LogGenuine(s1, log1, c1);
      FillOnce(s1, app, c1, log1, now);
      var c2 := FillKeeps(s1, app, c1, now);
      var s2 := FillWindow(s1, now);
      QueueGrows(s1, s2, c2);
      assert log1 + Queued(s2) == log + Queued(s2);
    } else {
      assert log + Queued(s) == log;
    }
  }

  lemma QueueGrows(s: State, s': State, c: Cuts)
    requires Sent(s, s', c)
    ensures Queued(s) <= Queued(s')
  {
    forall d | d in Queued(s)
      ensures d in Queued(s')
    {
      var i :| 0 <= i < |s.outq| && s.outq[i] == d;
      assert s'.outq[..|s.outq|][i] == d;
    }
  }

  lemma RetransmitOnce(s: State, app: seq<Byte>, c: Cuts, log: set<Datagram>, now: int)
    requires Queue(s, app, c) && Once(s, log) && Queued(s) <= log
    ensures var s' := RetransmitFirst(s, now); Once(s', log + Queued(s'))
  {
    var s' := RetransmitFirst(s, now);
    if s.unacked == [] {
      assert log + Queued(s') == log;
    } else {
      var novel := s'.outq[|s.outq|];
      assert forall d | d in Queued(s') :: d in Queued(s) || d == novel;
      forall i | 0 < i < |s.unacked|
        ensures s.unacked[i].off != s.unacked[0].off && s'.unacked[i] == s.unacked[i]
      {
        ChainAscends(s.unacked, s.sndNxt, c, 0, i);
      }
    }
  }

  lemma {:induction false} ChainAscends(us: seq<Segment>, top: nat, c: Cuts, i: nat, j: nat)
    requires Chain(us, top, c) && i < j < |us| && forall o | o in c :: |c[o]| > 0
    ensures us[i].off < us[j].off
    decreases j
  {
    assert us[j - 1].End() == us[j].off;
    assert us[j - 1].off in c;
    if i < j - 1 { ChainAscends(us, top, c, i, j - 1); }
  }

  lemma {:induction false} DropOnce(s: State, log: set<Datagram>, ack: nat, now: int)
    requires Once(s, log)
    ensures var s' := DropAcked(s, ack, now); Once(s', log) && s'.outq == s.outq && s'.txSalt == s.txSalt
    decreases |s.unacked|
  {
    hide RttUpdate;
    if s.unacked != [] && s.unacked[0].End() <= ack {
      var t := if s.unacked[0].xmits == 1 then RttUpdate(s.timer, now - s.unacked[0].sentMs) else s.timer;
      DropOnce(s.(unacked := s.unacked[1..], timer := t), log, ack, now);
    }
  }

  /** `Once` is about the unacknowledged segments and their salt, nothing else. */
  lemma SameOnce(s: State, s': State, log: set<Datagram>)
    requires Once(s, log) && s'.unacked == s.unacked && s'.txSalt == s.txSalt
    ensures Once(s', log)
  {
  }

  lemma AckOnce(s: State, app: seq<Byte>, c: Cuts, log: set<Datagram>, ack: nat, now: int)
    requires Sending(s, app, c) && ack <= s.sndNxt && Edge(c, s.sndNxt, ack)
    requires Once(s, log) && Queued(s) <= log
    ensures var s' := ProcessAck(s, ack, now); Once(s', log + Queued(s'))
  {
    DropOnce(s, log, ack, now);
    DropKeeps(s, app, c, ack, now);
    hide DropAcked, Queue, Once, RetransmitFirst;
    var s1, s' := DropAcked(s, ack, now), ProcessAck(s, ack, now);
    assert log + Queued(s1) == log;
    var s2 := s1.(dupAcks := s1.dupAcks + 1);
    SameOnce(s1, s2, log);
    if s' == RetransmitFirst(s2, now) {
      RetransmitOnce(s2, app, c, log, now);
    } else {
      SameOnce(s1, s', log);
    }
  }

  ghost predicate PairOnce(x: End, y: End, net: set<Datagram>) {
    Once(x.arq, All(x, y, net)) && Once(y.arq, All(x, y, net))
  }

  lemma SenderOnce(x: End, x': End, y: End, net: set<Datagram>, c: Cuts)
    requires PairOnce(x, y, net) && Sent(x.arq, x'.arq, c) && x.arq.txSalt != y.arq.txSalt
    requires Once(x'.arq, All(x, y, net) + Queued(x'.arq))
    ensures PairOnce(x', y, net)
  {
    forall d | d in All(x', y, net)
      ensures d in All(x, y, net) || From(d, x.arq.txSalt)
    {
      if d in Queued(x'.arq) {
        var i :| 0 <= i < |x'.arq.outq| && x'.arq.outq[i] == d;
        if i < |x.arq.outq| { assert x'.arq.outq[..|x.arq.outq|][i] == x.arq.outq[i]; }
      }
    }
    assert All(x', y, net) <= All(x, y, net) + Queued(x'.arq);
  }

  lemma FillStepOnce(x: End, y: End, net: set<Datagram>, cx: Cuts, cy: Cuts, now: int)
    requires Pair(x, y, net, cx, cy) && PairOnce(x, y, net)
    ensures PairOnce(x.(arq := FillWindow(x.arq, now)), y, net)
  {
    FillOnce(x.arq, x.app, cx, All(x, y, net), now);
    var cx' := FillKeeps(x.arq, x.app, cx, now);
    hide Queue, Receiving, Once;
    SenderOnce(x, x.(arq := FillWindow(x.arq, now)), y, net, cx');
  }

  lemma AckStepOnce(x: End, y: End, net: set<Datagram>, cx: Cuts, cy: Cuts, d: Datagram, now: int)
    requires Pair(x, y, net, cx, cy) && PairOnce(x, y, net) && d in All(x, y, net) && From(d, x.arq.rxSalt)
    ensures PairOnce(x.(arq := ProcessAck(x.arq, d.body.ack, now)), y, net)
  {
    AckOnce(x.arq, x.app, cx, All(x, y, net), d.body.ack, now);
    AckKeeps(x.arq, x.app, cx, d.body.ack, now);
    hide Sending, Receiving, Once;
    SenderOnce(x, x.(arq := ProcessAck(x.arq, d.body.ack, now)), y, net, cx);
  }

  lemma AbsorbOnce(x: End, y: End, net: set<Datagram>, body: Body)
    requires PairOnce(x, y, net) && !body.Control?
    ensures PairOnce(x.(arq := Absorb(x.arq, body)), y, net)
  {
    AbsorbSender(x.arq, body);
    hide Absorb;
    var x' := x.(arq := Absorb(x.arq, body));
    assert All(x', y, net) == All(x, y, net);
  }

  lemma Honest(x: End, y: End, net: set<Datagram>, cx: Cuts, cy: Cuts, d: Datagram)
    requires Pair(x, y, net, cx, cy) && d in net && From(d, x.arq.rxSalt)
    ensures d in All(x, y, net) && Genuine(d, cy)
  {
  }

  lemma RecvStepOnce(x: End, y: End, net: set<Datagram>, cx: Cuts, cy: Cuts, d: Datagram, now: int)
    requires Pair(x, y, net, cx, cy) && PairOnce(x, y, net) && Receivable(net, d)
    ensures PairOnce(x.(arq := OnPacket(x.arq, d, now)), y, net)
  {
    hide Direction, Once;
    if From(d, x.arq.rxSalt) {
      Honest(x, y, net, cx, cy, d);
      AckStepOnce(x, y, net, cx, cy, d, now);
      AckStep(x, y, net, cx, cy, d, now);
      var x1 := x.(arq := ProcessAck(x.arq, d.body.ack, now));
      AbsorbKeeps(x1, y, net, cx, cy, d.body);
      AbsorbOnce(x1, y, net, d.body);
      FillStepOnce(x1.(arq := Absorb(x1.arq, d.body)), y, net, cx, cy, now);
    }
  }

  lemma TickStepOnce(x: End, y: End, net: set<Datagram>, cx: Cuts, cy: Cuts, now: int)
    requires Pair(x, y, net, cx, cy) && PairOnce(x, y, net)
    ensures PairOnce(x.(arq := Arq.Tick(x.arq, now)), y, net)
  {
    var s0 := x.arq.(timer := if Expired(x.arq, now) then Backoff(x.arq.timer) else x.arq.timer);
    RetransmitOnce(s0, x.app, cx, All(x, y, net), now);
    RetransmitKeeps(s0, x.app, cx, now);
    var x1 := x.(arq := HeadTimer(x.arq, now));
    assert All(x, y, net) + Queued(x.arq) == All(x, y, net);
    SenderOnce(x, x1, y, net, cx);
    HeadStep(x, y, net, cx, cy, now);
    hide Direction;
    FillStepOnce(x1, y, net, cx, cy, now);
    var cx' := FillStep(x1, y, net, cx, cy, now);
    PayOnce(x1.(arq := FillWindow(x1.arq, now)), y, net, cx', cy);
  }

  lemma PayOnce(x: End, y: End, net: set<Datagram>, cx: Cuts, cy: Cuts)
    requires Pair(x, y, net, cx, cy) && PairOnce(x, y, net)
    ensures PairOnce(x.(arq := PayAck(x.arq)), y, net)
  {
    if x.arq.needAck {
      var s' := PayAck(x.arq);
      var novel := s'.outq[|x.arq.outq|];
      assert forall d | d in Queued(s') :: d in Queued(x.arq) || d == novel;
      SenderOnce(x, x.(arq := s'), y, net, cx);
    }
  }

  lemma StepOnce(x: End, y: End, net: set<Datagram>, cx: Cuts, cy: Cuts, e: Event)
    requires Pair(x, y, net, cx, cy) && PairOnce(x, y, net)
    ensures PairOnce(StepEnd(x, net, e), y, StepNet(x, net, e))
  {
    hide Direction;
    match e
    case Send(_, data, now) =>
      var x1 := x.(arq := x.arq.(pending := x.arq.pending + data), app := x.app + data);
      assert All(x1, y, net) == All(x, y, net);
      AppendStep(x, y, net, cx, cy, data);
      FillStepOnce(x1, y, net, cx, cy, now);
    case Recv(_, d, now) =>
      if Receivable(net, d) { RecvStepOnce(x, y, net, cx, cy, d, now); }
    case Tick(_, now) => TickStepOnce(x, y, net, cx, cy, now);
    case Poll(_) =>
      assert All(StepEnd(x, net, e), y, StepNet(x, net, e)) == All(x, y, net);
    case Take(_) =>
      assert All(StepEnd(x, net, e), y, StepNet(x, net, e)) == All(x, y, net);
  }

  /** In every run, a segment that would be timed (sent exactly once) has one datagram on record. */
  lemma {:induction false} TimedSegmentsSentOnce(es: seq<Event>)
    ensures var w := Run(Start(), es); PairOnce(w.a, w.b, w.net)
  {
    if es != [] {
      var e := es[|es| - 1];
      TimedSegmentsSentOnce(es[..|es| - 1]);
      RunInv(es[..|es| - 1]);
      var w := Run(Start(), es[..|es| - 1]);
      var ca: Cuts, cb: Cuts :| Pair(w.a, w.b, w.net, ca, cb);
      PairSwap(w.a, w.b, w.net, ca, cb);
      assert All(w.a, w.b, w.net) == All(w.b, w.a, w.net);
      hide Pair, Once;
      if e.side == A {
        StepOnce(w.a, w.b, w.net, ca, cb, e);
      } else {
        StepOnce(w.b, w.a, w.net, cb, ca, e);
        var w' := Step(w, e);
        assert All(w'.a, w'.b, w'.net) == All(w'.b, w'.a, w'.net);
      }
    }
  }

  // ----- Fast retransmit -----

  /** Handling `ack` in state `s` triggers the fast retransmit. */
  predicate Fires(s: State, ack: nat, now: int) {
    ack == s.lastAck && DropAcked(s, ack, now).unacked != [] && s.dupAcks + 1 == 3
  }

  /** `Fires` describes the source's branch: exactly then the head segment goes out again, alone. */
  lemma FiresIffResends(s: State, ack: nat, now: int)
    ensures var s' := ProcessAck(s, ack, now);
            if Fires(s, ack, now)
            then var head := DropAcked(s, ack, now).unacked[0];
                 s'.outq == s.outq + [Sealed(s.txSalt, s.pktSeq, Data(s.rcvNxt, head.off, head.data))]
            else s'.outq == s.outq
  {
    DropSameAck(s, ack, now);
  }

  /** The same acknowledgement again, at each of these times. */
  function Repeats(s: State, ack: nat, ts: seq<int>): State {
    if ts == [] then s else ProcessAck(Repeats(s, ack, ts[..|ts| - 1]), ack, ts[|ts| - 1])
  }

  /** `ack` is the last one, and the oldest segment lies beyond it. */
  predicate Stuck(s: State, ack: nat) { s.lastAck == ack && s.unacked != [] && s.unacked[0].End() > ack }

  lemma RepeatOnce(s: State, ack: nat, now: int)
    requires Stuck(s, ack)
    ensures var s', head := ProcessAck(s, ack, now), s.unacked[0];
            && Stuck(s', ack) && s'.dupAcks == s.dupAcks + 1
            && s'.unacked[0].off == head.off && s'.unacked[0].data == head.data
            && s'.outq == s.outq + (if s.dupAcks == 2
                                    then [Sealed(s.txSalt, s.pktSeq, Data(s.rcvNxt, head.off, head.data))] else [])
            && s'.rcvNxt == s.rcvNxt && s'.txSalt == s.txSalt && (s.dupAcks < 2 ==> s'.pktSeq == s.pktSeq)
  {
    assert s.outq + [] == s.outq;
  }

  lemma {:induction false} AckPast(s: State, ack: nat, now: int)
    ensures var s' := DropAcked(s, ack, now); s'.unacked != [] ==> s'.unacked[0].End() > ack
    decreases |s.unacked|
  {
    hide RttUpdate;
    if s.unacked != [] && s.unacked[0].End() <= ack {
      var t := if s.unacked[0].xmits == 1 then RttUpdate(s.timer, now - s.unacked[0].sentMs) else s.timer;
      AckPast(s.(unacked := s.unacked[1..], timer := t), ack, now);
    }
  }

  /**
   After every new acknowledgement that leaves something outstanding, however often it is repeated: the
   third repeat sends the oldest segment again, once, and no other repeat sends anything.
   */
  lemma {:induction false} ThirdRepeatResends(s: State, ack: nat, now: int, ts: seq<int>)
    requires ack > s.lastAck && ProcessAck(s, ack, now).unacked != []
    ensures var s1 := ProcessAck(s, ack, now);
            var s', head := Repeats(s1, ack, ts), s1.unacked[0];
            && s1.outq == s.outq && Stuck(s', ack) && s'.dupAcks == |ts|
            && s'.unacked[0].off == head.off && s'.unacked[0].data == head.data
            && s'.rcvNxt == s1.rcvNxt && s'.txSalt == s1.txSalt && (|ts| < 3 ==> s'.pktSeq == s1.pktSeq)
            && s'.outq == s1.outq + (if |ts| >= 3
                                     then [Sealed(s1.txSalt, s1.pktSeq, Data(s1.rcvNxt, head.off, head.data))] else [])
  {
    var s1 := ProcessAck(s, ack, now);
    AckPast(s, ack, now);
    DropSameAck(s, ack, now);
    if ts == [] {
      assert s1.outq + [] == s1.outq;
    } else {
      var init := ts[..|ts| - 1];
      ThirdRepeatResends(s, ack, now, init);
      RepeatOnce(Repeats(s1, ack, init), ack, ts[|ts| - 1]);
      hide ProcessAck;
    }
  }

  predicate FiresAt(x: End, net: set<Datagram>, e: Event, v: nat) {
    e.Recv? && Receivable(net, e.d) && From(e.d, x.arq.rxSalt) && x.arq.lastAck == v
      && Fires(x.arq, e.d.body.ack, e.now)
  }

  function EndOf(w: World, side: Side): End { if side == A then w.a else w.b }

  /** How many events of the run triggered a fast retransmit on `side` while the last ack was `v`. */
  function FastRetransmits(es: seq<Event>, side: Side, v: nat): nat {
    if es == [] then 0
    else
      var w, e := Run(Start(), es[..|es| - 1]), es[|es| - 1];
      FastRetransmits(es[..|es| - 1], side, v)
        + if e.side == side && FiresAt(EndOf(w, side), w.net, e, v) then 1 else 0
  }

  lemma {:induction false} FillSameAck(s: State, now: int)
    ensures var s' := FillWindow(s, now); s'.lastAck == s.lastAck && s'.dupAcks == s.dupAcks
    decreases |s.pending|
  {
    if s.CanFill() { FillSameAck(FillOne(s, now), now); }
  }

  lemma {:induction false} DropSameAck(s: State, ack: nat, now: int)
    ensures var s' := DropAcked(s, ack, now);
            && s'.lastAck == s.lastAck && s'.dupAcks == s.dupAcks && s'.rcvNxt == s.rcvNxt
            && s'.outq == s.outq && s'.pktSeq == s.pktSeq && s'.txSalt == s.txSalt
    decreases |s.unacked|
  {
    hide RttUpdate;
    if s.unacked != [] && s.unacked[0].End() <= ack {
      var t := if s.unacked[0].xmits == 1 then RttUpdate(s.timer, now - s.unacked[0].sentMs) else s.timer;
      DropSameAck(s.(unacked := s.unacked[1..], timer := t), ack, now);
    }
  }

  /** Ack bookkeeping only moves forward, and a firing ack is the third repeat of the last one. */
  lemma EndAcks(x: End, net: set<Datagram>, e: Event, v: nat)
    ensures var s, s' := x.arq, StepEnd(x, net, e).arq;
            && s'.lastAck >= s.lastAck && (s'.lastAck == s.lastAck ==> s'.dupAcks >= s.dupAcks)
            && (FiresAt(x, net, e, v) ==> s.lastAck == s'.lastAck == v && s.dupAcks == 2 && s'.dupAcks == 3)
  {
    match e
    case Send(_, data, now) => FillSameAck(x.arq.(pending := x.arq.pending + data), now);
    case Recv(_, d, now) =>
      if From(d, x.arq.rxSalt) {
        DropSameAck(x.arq, d.body.ack, now);
        var s := ProcessAck(x.arq, d.body.ack, now);
        AbsorbSender(s, d.body);
        FillSameAck(Absorb(s, d.body), now);
      }
    case Tick(_, now) => FillSameAck(HeadTimer(x.arq, now), now);
    case Poll(_) =>
    case Take(_) =>
  }

  lemma {:induction false} FastRetransmitCount(es: seq<Event>, side: Side, v: nat)
    ensures var s := EndOf(Run(Start(), es), side).arq;
            FastRetransmits(es, side, v) <=
              if s.lastAck > v || (s.lastAck == v && s.dupAcks >= 3) then 1 else 0
  {
    if es != [] {
      var w, e := Run(Start(), es[..|es| - 1]), es[|es| - 1];
      FastRetransmitCount(es[..|es| - 1], side, v);
      if e.side == side { EndAcks(EndOf(w, side), w.net, e, v); }
    }
  }

  /** In every run, each cumulative-ack value triggers at most one fast retransmit. */
  lemma OneFastRetransmitPerAck(es: seq<Event>, side: Side, v: nat)
    ensures FastRetransmits(es, side, v) <= 1
  {
    FastRetransmitCount(es, side, v);
  }

  // ----- The estimate over a run -----

  /** The round trips an event makes the endpoint measure. */
  function SamplesAt(x: End, net: set<Datagram>, e: Event): seq<int> {
    if e.Recv? && Receivable(net, e.d) && From(e.d, x.arq.rxSalt)
    then Sampled(x.arq.unacked[..Covered(x.arq.unacked, e.d.body.ack)], e.now)
    else []
  }

  function History(es: seq<Event>, side: Side): seq<int> {
    if es == [] then []
    else
      var w, e := Run(Start(), es[..|es| - 1]), es[|es| - 1];
      History(es[..|es| - 1], side) + if e.side == side then SamplesAt(EndOf(w, side), w.net, e) else []
  }

  predicate SameEstimate(t: Timer, u: Timer) { t.srtt == u.srtt && t.rttvar == u.rttvar }

  lemma {:induction false} EstimateSame(t: Timer, u: Timer, samples: seq<int>)
    requires SameEstimate(t, u)
    ensures SameEstimate(Estimate(t, samples), Estimate(u, samples))
  {
    if samples != [] { EstimateSame(t, u, samples[..|samples| - 1]); }
  }

  lemma {:induction false} EstimateAppend(t: Timer, a: seq<int>, b: seq<int>)
    ensures Estimate(t, a + b) == Estimate(Estimate(t, a), b)
  {
    hide RttUpdate;
    if b == [] {
      assert a + b == a;
    } else {
      assert (a + b)[..|a + b| - 1] == a + b[..|b| - 1];
      EstimateAppend(t, a, b[..|b| - 1]);
    }
  }

  lemma RecvEstimate(x: End, d: Datagram, now: int)
    requires From(d, x.arq.rxSalt)
    ensures OnPacket(x.arq, d, now).timer
         == Estimate(x.arq.timer, Sampled(x.arq.unacked[..Covered(x.arq.unacked, d.body.ack)], now))
  {
    hide RttUpdate, Estimate, Sampled, Covered;
    DropTimesOnce(x.arq, d.body.ack, now);
    var s := ProcessAck(x.arq, d.body.ack, now);
    AbsorbSender(s, d.body);
    FillSameTimer(Absorb(s, d.body), now);
  }

  lemma EndEstimate(x: End, net: set<Datagram>, e: Event)
    ensures SameEstimate(StepEnd(x, net, e).arq.timer, Estimate(x.arq.timer, SamplesAt(x, net, e)))
  {
    hide RttUpdate, Sampled, Covered;
    match e
    case Send(_, data, now) => FillSameTimer(x.arq.(pending := x.arq.pending + data), now);
    case Recv(_, d, now) => if From(d, x.arq.rxSalt) { RecvEstimate(x, d, now); }
    case Tick(_, now) => FillSameTimer(HeadTimer(x.arq, now), now);
    case Poll(_) =>
    case Take(_) =>
  }

  lemma {:induction false} TimerIsEstimate(es: seq<Event>, side: Side)
    ensures SameEstimate(EndOf(Run(Start(), es), side).arq.timer, Estimate(Timer(0, 0, RTO_MIN), History(es, side)))
  {
    hide RttUpdate;
    if es != [] {
      var w, e := Run(Start(), es[..|es| - 1]), es[|es| - 1];
      var t0 := Timer(0, 0, RTO_MIN);
      var before := History(es[..|es| - 1], side);
      TimerIsEstimate(es[..|es| - 1], side);
      if e.side == side {
        var more := SamplesAt(EndOf(w, side), w.net, e);
        EndEstimate(EndOf(w, side), w.net, e);
        EstimateAppend(t0, before, more);
        EstimateSame(EndOf(w, side).arq.timer, Estimate(t0, before), more);
      } else {
        assert before + [] == before;
      }
    }
  }

  /** In every run the smoothed round trip lies within the measured ones and is 0 only before the first. */
  lemma SmoothedWithinMeasured(es: seq<Event>, side: Side, lo: int, hi: int)
    requires forall i | 0 <= i < |History(es, side)| :: lo <= Max(History(es, side)[i], 1) <= hi
    ensures var t := EndOf(Run(Start(), es), side).arq.timer;
            if History(es, side) == [] then t.srtt == 0 else 1 <= t.srtt && lo <= t.srtt <= hi
  {
    TimerIsEstimate(es, side);
    EstimateWithinSamples(History(es, side), lo, hi);
  }
}
