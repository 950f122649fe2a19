/**
 Progress: if only the retransmitted head segment and one acknowledgement get through in each
 round, finitely many rounds deliver and acknowledge everything.
 */
module ArqProgress {
  import opened Bytes
  import opened Arq
  import opened ArqNetwork
  import opened ArqSafety
  import opened ArqTimers

  /**
   One round at time `now`: whatever was queued is sent (and lost), `a`'s timer fires, the first
   datagram it emits reaches `b`, `b`'s timer fires, and the last datagram it emits reaches `a`.
   */
  function Round(w: World, now: int): World {
    Back(Out(Step(Step(w, Poll(A)), Poll(B)), now), now)
  }

  function Out(w: World, now: int): World {
    var w1 := Step(w, Tick(A, now));
    var w2 := Step(w1, Poll(A));
    if w1.a.arq.outq == [] then w2 else Step(w2, Recv(B, w1.a.arq.outq[0], now))
  }

  function Back(w: World, now: int): World {
    var w1 := Step(w, Tick(B, now));
    var w2 := Step(w1, Poll(B));
    if w1.b.arq.outq == [] then w2 else Step(w2, Recv(A, w1.b.arq.outq[|w1.b.arq.outq| - 1], now))
  }

  /** `n` rounds, each the longest retransmission timeout after the one before. */
  function Rounds(w: World, now: int, n: nat): World
    decreases n
  {
    if n == 0 then w else Rounds(Round(w, now + RTO_MAX), now + RTO_MAX, n - 1)
  }

  /** Bytes of `a`'s stream not yet known to have arrived: unsent plus unacknowledged. */
  function Unfinished(w: World): int { |w.a.app| - w.a.arq.SndUna() }

  ghost predicate Due(s: State, now: int) {
    s.unacked != [] ==> now - s.unacked[0].sentMs >= s.timer.rto
  }

  lemma HeadGoesFirst(s: State, app: seq<Byte>, c: Cuts, now: int)
    requires Queue(s, app, c) && s.outq == [] && Due(s, now) && s.SndUna() < |app|
    ensures var q := Arq.Tick(s, now).outq;
            q != [] && From(q[0], s.txSalt) && q[0].body.Data? && q[0].body.off == s.SndUna()
            && |q[0].body.data| > 0
  {
    if s.unacked != [] {
      var s1 := HeadTimer(s, now);
      RetransmitKeeps(s.(timer := Backoff(s.timer)), app, c, now);
      var c' := FillKeeps(s1, app, c, now);
      var q := FillWindow(s1, now).outq;
      assert q[..|s1.outq|][0] == s1.outq[0];
    } else {
      var c1 := FillOneKeeps(s, app, c, now);
      var s1 := FillOne(s, now);
      var c' := FillKeeps(s1, app, c1, now);
      var q := FillWindow(s1, now).outq;
      assert q[..|s1.outq|][0] == s1.outq[0];
    }
  }

  /** The last queued datagram acknowledges everything received, or the endpoint owes such an ack. */
  ghost predicate Owes(s: State) {
    s.needAck || (s.outq != [] && From(s.outq[|s.outq| - 1], s.txSalt) && s.outq[|s.outq| - 1].body.ack == s.rcvNxt)
  }

  lemma {:induction false} FillOwes(s: State, now: int)
    requires Owes(s)
    ensures Owes(FillWindow(s, now)) && FillWindow(s, now).rcvNxt == s.rcvNxt && FillWindow(s, now).txSalt == s.txSalt
    decreases |s.pending|
  {
    if s.CanFill() { FillOwes(FillOne(s, now), now); }
  }

  lemma TickPays(s: State, now: int)
    requires Owes(s)
    ensures var s' := Arq.Tick(s, now);
            s'.outq != [] && From(s'.outq[|s'.outq| - 1], s.txSalt) && s'.outq[|s'.outq| - 1].body.ack == s'.rcvNxt
  {
    FillOwes(HeadTimer(s, now), now);
  }

  /** A datagram that carries `x`'s first unacknowledged byte. */
  ghost predicate Head(d: Datagram, x: End) {
    From(d, x.arq.txSalt) && d.body.Data? && d.body.off == x.arq.SndUna() && |d.body.data| > 0
  }

  lemma Launch(x: End, y: End, net: set<Datagram>, cx: Cuts, cy: Cuts, now: int) returns (cx': Cuts)
    requires Pair(x, y, net, cx, cy) && x.arq.outq == []
    requires Due(x.arq, now) && x.arq.SndUna() < |x.app|
    ensures var x1 := StepEnd(x, net, Tick(A, now));
            && x1.arq.outq != [] && Head(x1.arq.outq[0], x1) && x1.arq.SndUna() == x.arq.SndUna()
            && Pair(x1.(arq := PollOut(x1.arq)), y, net + Queued(x1.arq), cx', cy)
  {
    hide Tiling, Chain, Receiving;
    HeadGoesFirst(x.arq, x.app, cx, now);
    cx' := TickStep(x, y, net, cx, cy, now);
    cx' := StepKeeps(StepEnd(x, net, Tick(A, now)), y, net, cx', cy, Poll(A));
  }

  lemma Answer(y: End, x: End, net: set<Datagram>, cy: Cuts, cx: Cuts, d: Datagram, now: int)
    returns (cy': Cuts)
    requires Pair(x, y, net, cx, cy) && d in net && Head(d, x)
    ensures var y1 := StepEnd(y, net, Recv(B, d, now));
            Pair(y1, x, net, cy', cx) && Owes(y1.arq) && y1.arq.rcvNxt > x.arq.SndUna()
  {
    PairSwap(x, y, net, cx, cy);
    cy' := RecvStep(y, x, net, cy, cx, d, now);
    FillOwes(Absorb(ProcessAck(y.arq, d.body.ack, now), d.body), now);
  }

  lemma OutAdvances(w: World, ca: Cuts, cb: Cuts, now: int) returns (ca': Cuts, cb': Cuts)
    requires Pair(w.a, w.b, w.net, ca, cb) && w.a.arq.outq == []
    requires Due(w.a.arq, now) && w.a.arq.SndUna() < |w.a.app|
    ensures var w' := Out(w, now);
            && Pair(w'.b, w'.a, w'.net, cb', ca') && w'.b.arq.txSalt == w'.a.arq.rxSalt && Owes(w'.b.arq)
            && w'.b.arq.rcvNxt > w'.a.arq.SndUna() == w.a.arq.SndUna() && w'.a.app == w.a.app
  {
    ca' := Launch(w.a, w.b, w.net, ca, cb, now);
    var w1 := Step(w, Tick(A, now));
    var w2 := Step(w1, Poll(A));
    cb' := Answer(w2.b, w2.a, w2.net, cb, ca', w1.a.arq.outq[0], now);
  }

  lemma BackAdvances(w: World, ca: Cuts, cb: Cuts, now: int) returns (ca': Cuts, cb': Cuts)
    requires Pair(w.b, w.a, w.net, cb, ca) && w.b.arq.txSalt == w.a.arq.rxSalt
    requires Owes(w.b.arq) && w.b.arq.rcvNxt > w.a.arq.SndUna()
    ensures var w' := Back(w, now);
            Pair(w'.a, w'.b, w'.net, ca', cb') && w'.a.app == w.a.app && w'.a.arq.SndUna() > w.a.arq.SndUna()
  {
    hide Direction;
    cb' := TickStep(w.b, w.a, w.net, cb, ca, now);
    TickPays(w.b.arq, now);
    var w1 := Step(w, Tick(B, now));
    cb' := StepKeeps(w1.b, w1.a, w1.net, cb', ca, Poll(B));
    var w2 := Step(w1, Poll(B));
    PairSwap(w2.b, w2.a, w2.net, cb', ca);
    var ack := w1.b.arq.outq[|w1.b.arq.outq| - 1];
    assert ack in w2.net;
    ca' := RecvStep(w2.a, w2.b, w2.net, ca, cb', ack, now);
  }

  lemma RoundAdvances(w: World, now: int)
    requires Inv(w) && Due(w.a.arq, now) && w.a.arq.SndUna() < |w.a.app|
    ensures var w' := Round(w, now);
            Inv(w') && w'.a.app == w.a.app && w'.a.arq.SndUna() > w.a.arq.SndUna()
  {
    hide Direction;
    StepInv(w, Poll(A));
    StepInv(Step(w, Poll(A)), Poll(B));
    var w0 := Step(Step(w, Poll(A)), Poll(B));
    var ca: Cuts, cb: Cuts :| Pair(w0.a, w0.b, w0.net, ca, cb);
    ca, cb := OutAdvances(w0, ca, cb, now);
    ca, cb := BackAdvances(Out(w0, now), ca, cb, now);
  }

  // ----- Any round, progress or not -----

  lemma EndHolds(x: End, y: End, net: set<Datagram>, cx: Cuts, cy: Cuts, e: Event)
    requires Pair(x, y, net, cx, cy) && !e.Send?
    ensures var x' := StepEnd(x, net, e); x'.app == x.app && x'.arq.SndUna() >= x.arq.SndUna()
  {
    hide Pair, Arq.Tick, ProcessAck, Absorb, FillWindow, Receivable;
    if e.Recv? && Receivable(net, e.d) {
      var _ := RecvStep(x, y, net, cx, cy, e.d, e.now);
    } else if e.Tick? {
      var _ := TickStep(x, y, net, cx, cy, e.now);
    }
  }

  lemma StepHolds(w: World, e: Event)
    requires Inv(w) && !e.Send?
    ensures var w' := Step(w, e); Inv(w') && w'.a.app == w.a.app && w'.a.arq.SndUna() >= w.a.arq.SndUna()
  {
    StepInv(w, e);
    if e.side == A {
      var ca: Cuts, cb: Cuts :| Pair(w.a, w.b, w.net, ca, cb);
      hide Inv, Pair, StepEnd;
      EndHolds(w.a, w.b, w.net, ca, cb, e);
    }
  }

  lemma RoundHolds(w: World, now: int)
    requires Inv(w)
    ensures var w' := Round(w, now);
            Inv(w') && w'.a.app == w.a.app && w'.a.arq.SndUna() >= w.a.arq.SndUna()
  {
    hide Inv;
    StepHolds(w, Poll(A));
    var w0 := Step(w, Poll(A));
    StepHolds(w0, Poll(B));
    OutHolds(Step(w0, Poll(B)), now);
    BackHolds(Out(Step(w0, Poll(B)), now), now);
  }

  lemma OutHolds(w: World, now: int)
    requires Inv(w)
    ensures var w' := Out(w, now); Inv(w') && w'.a.app == w.a.app && w'.a.arq.SndUna() >= w.a.arq.SndUna()
  {
    hide Inv;
    StepHolds(w, Tick(A, now));
    var w1 := Step(w, Tick(A, now));
    StepHolds(w1, Poll(A));
    if w1.a.arq.outq != [] { StepHolds(Step(w1, Poll(A)), Recv(B, w1.a.arq.outq[0], now)); }
  }

  lemma BackHolds(w: World, now: int)
    requires Inv(w)
    ensures var w' := Back(w, now); Inv(w') && w'.a.app == w.a.app && w'.a.arq.SndUna() >= w.a.arq.SndUna()
  {
    hide Inv;
    StepHolds(w, Tick(B, now));
    var w1 := Step(w, Tick(B, now));
    StepHolds(w1, Poll(B));
    if w1.b.arq.outq != [] {
      StepHolds(Step(w1, Poll(B)), Recv(A, w1.b.arq.outq[|w1.b.arq.outq| - 1], now));
    }
  }

  // ----- The clock -----

  ghost predicate WorldTimely(w: World, clock: int) { Timely(w.a.arq, clock) && Timely(w.b.arq, clock) }

  lemma StepTimely(w: World, e: Event, clock: int)
    requires WorldTimely(w, clock) && NotAfter(e, clock)
    ensures WorldTimely(Step(w, e), clock)
  {
    EndTimely(if e.side == A then w.a else w.b, w.net, e, clock);
  }

  lemma RoundTimely(w: World, now: int)
    requires WorldTimely(w, now)
    ensures WorldTimely(Round(w, now), now)
  {
    hide WorldTimely, Step;
    StepTimely(w, Poll(A), now);
    var w0 := Step(w, Poll(A));
    StepTimely(w0, Poll(B), now);
    OutTimely(Step(w0, Poll(B)), now);
    BackTimely(Out(Step(w0, Poll(B)), now), now);
  }

  lemma OutTimely(w: World, now: int)
    requires WorldTimely(w, now)
    ensures WorldTimely(Out(w, now), now)
  {
    hide WorldTimely, Step;
    StepTimely(w, Tick(A, now), now);
    var w1 := Step(w, Tick(A, now));
    StepTimely(w1, Poll(A), now);
    if w1.a.arq.outq != [] { StepTimely(Step(w1, Poll(A)), Recv(B, w1.a.arq.outq[0], now), now); }
  }

  lemma BackTimely(w: World, now: int)
    requires WorldTimely(w, now)
    ensures WorldTimely(Back(w, now), now)
  {
    hide WorldTimely, Step;
    StepTimely(w, Tick(B, now), now);
    var w1 := Step(w, Tick(B, now));
    StepTimely(w1, Poll(B), now);
    if w1.b.arq.outq != [] {
      StepTimely(Step(w1, Poll(B)), Recv(A, w1.b.arq.outq[|w1.b.arq.outq| - 1], now), now);
    }
  }

  /** Every round finishes at least one unfinished byte. */
  lemma RoundProgress(w: World, clock: int)
    requires Inv(w) && WorldTimely(w, clock)
    ensures var w' := Round(w, clock + RTO_MAX);
            && Inv(w') && WorldTimely(w', clock + RTO_MAX) && w'.a.app == w.a.app
            && (if Unfinished(w) > 0 then Unfinished(w') < Unfinished(w) else Unfinished(w') <= Unfinished(w))
  {
    var now := clock + RTO_MAX;
    assert WorldTimely(w, now);
    assert Due(w.a.arq, now);
    hide Inv, Timely, Due, Round;
    RoundTimely(w, now);
    if Unfinished(w) > 0 { RoundAdvances(w, now); } else { RoundHolds(w, now); }
  }

  lemma {:induction false} RoundsFinish(w: World, clock: int, n: nat)
    requires Inv(w) && WorldTimely(w, clock) && n >= Unfinished(w)
    ensures var w' := Rounds(w, clock, n); Inv(w') && w'.a.app == w.a.app && Unfinished(w') <= 0
    decreases n
  {
    hide Inv, WorldTimely, Round;
    if n > 0 {
      RoundProgress(w, clock);
      RoundsFinish(Round(w, clock + RTO_MAX), clock + RTO_MAX, n - 1);
    }
  }

  lemma NothingUnacked(s: State, app: seq<Byte>, c: Cuts)
    requires Queue(s, app, c) && s.SndUna() >= |app|
    ensures s.unacked == []
  {
    assert forall i | 0 <= i < |s.unacked| :: s.unacked[i].off in c;
  }

  lemma FinishedMeansDelivered(w: World)
    requires Inv(w) && Unfinished(w) <= 0
    ensures w.a.arq.pending == [] && w.a.arq.unacked == [] && w.b.Delivered() == w.a.app
  {
    var ca: Cuts, cb: Cuts :| Pair(w.a, w.b, w.net, ca, cb);
    assert w.a.app[..|w.a.app|] == w.a.app;
    NothingUnacked(w.a.arq, w.a.app, ca);
  }

  /** The same world with the endpoints exchanged. */
  function Flip(w: World): World { World(w.b, w.a, w.net) }

  lemma FlipInv(w: World)
    requires Inv(w)
    ensures Inv(Flip(w))
  {
    var ca: Cuts, cb: Cuts :| Pair(w.a, w.b, w.net, ca, cb);
    PairSwap(w.a, w.b, w.net, ca, cb);
  }

  /**
   From any reachable state, as many lossy rounds as there are unfinished bytes deliver and
   acknowledge the whole stream; for `b`'s stream the rounds run with the endpoints exchanged.
   */
  lemma EverythingArrives(es: seq<Event>, clock: int, sender: Side, n: nat)
    requires forall i | 0 <= i < |es| :: NotAfter(es[i], clock)
    requires var w := Run(Start(), es); n >= Unfinished(if sender == A then w else Flip(w))
    ensures var w0 := Run(Start(), es);
            var w := Rounds(if sender == A then w0 else Flip(w0), clock, n);
            && w.b.Delivered() == Submitted(es, sender)
            && w.a.arq.pending == [] && w.a.arq.unacked == []
  {
    var w0 := Run(Start(), es);
    RunInv(es);
    FlipInv(w0);
    RunTimely(es, clock);
    AppIsSubmitted(es);
    hide Inv, Run;
    var w := if sender == A then w0 else Flip(w0);
    RoundsFinish(w, clock, n);
    FinishedMeansDelivered(Rounds(w, clock, n));
  }
}
