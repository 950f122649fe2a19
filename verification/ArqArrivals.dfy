/**
 What has arrived decides how far a stream has got, and nothing else does: not the order in which segments
 came, nor how often. In particular a segment that comes early is kept until what precedes it has come.
 */
module ArqArrivals {
  import opened Bytes
  import opened Arq
  import opened ArqNetwork
  import opened ArqTimers

  /** The segment that reaches `x` with this event, if one does. */
  function Came(x: End, net: set<Datagram>, e: Event): seq<Piece> {
    if e.Recv? && Receivable(net, e.d) && From(e.d, x.arq.rxSalt) && e.d.body.Data?
    then [Piece(e.d.body.off, e.d.body.data)] else []
  }

  /** Every segment that has reached `side`, in the order of arrival. */
  function Received(es: seq<Event>, side: Side): seq<Piece> {
    if es == [] then []
    else
      var w, e := Run(Start(), es[..|es| - 1]), es[|es| - 1];
      Received(es[..|es| - 1], side)
      + if e.side == side then Came(if side == A then w.a else w.b, w.net, e) else []
  }

  predicate Covers(p: Piece, b: nat) { p.off <= b < p.off + |p.data| }

  /** Every byte of the stream before `n` has come in one segment or another. */
  ghost predicate Spans(ps: seq<Piece>, n: nat) { forall b: nat | b < n :: Reached(ps, b) }

  ghost predicate Reached(ps: seq<Piece>, b: nat) { exists p :: p in ps && Covers(p, b) }

  /** Each segment is delivered or kept. */
  ghost predicate Kept(r: State, ps: seq<Piece>) {
    forall p | p in ps :: p.off + |p.data| <= r.rcvNxt || p in r.reorder
  }

  /** What is delivered or kept has come. */
  ghost predicate Backed(r: State, ps: seq<Piece>) {
    Spans(ps, r.rcvNxt) && forall p | p in r.reorder :: p in ps
  }

  // ----- One segment -----

  lemma CoveredMore(ps: seq<Piece>, n: nat, p: Piece, m: nat)
    requires Spans(ps, n) && p in ps && p.off <= n && m == p.off + |p.data|
    ensures Spans(ps, m)
  {
    forall b: nat | b < m
      ensures Reached(ps, b)
    {
      if b >= n { assert Covers(p, b); } else { assert Reached(ps, b); }
    }
  }

  lemma CoveredAppend(ps: seq<Piece>, n: nat, p: Piece)
    requires Spans(ps, n)
    ensures Spans(ps + [p], n)
  {
    forall b: nat | b < n
      ensures Reached(ps + [p], b)
    {
      assert Reached(ps, b);
      var q :| q in ps && Covers(q, b);
      assert q in ps + [p];
    }
  }

  lemma DrainOneArrives(r: State, i: nat, ps: seq<Piece>)
    requires i < |r.reorder| && Hits(r.reorder[i], r.rcvNxt) && Kept(r, ps) && Backed(r, ps)
    ensures Kept(DrainOne(r, i), ps) && Backed(DrainOne(r, i), ps)
  {
    var p, r' := r.reorder[i], DrainOne(r, i);
    CoveredMore(ps, r.rcvNxt, p, r'.rcvNxt);
    hide Spans;
    forall q | q in ps
      ensures q.off + |q.data| <= r'.rcvNxt || q in r'.reorder
    {
      if q in r.reorder && q != p {
        var k :| 0 <= k < |r.reorder| && r.reorder[k] == q;
        if k < i { assert r'.reorder[k] == q; } else { assert r'.reorder[k - 1] == q; }
      }
    }
  }

  lemma {:induction false} DrainArrives(r: State, ps: seq<Piece>)
    requires Kept(r, ps) && Backed(r, ps)
    ensures Kept(DrainReorder(r), ps) && Backed(DrainReorder(r), ps)
    decreases |r.reorder|
  {
    hide Kept, Backed;
    var i := FirstHit(r.reorder, r.rcvNxt);
    if i < |r.reorder| {
      DrainOneArrives(r, i, ps);
      DrainArrives(DrainOne(r, i), ps);
    }
  }

  lemma NextArrivesToo(r: State, ps: seq<Piece>, p: Piece)
    requires Kept(r, ps) && Backed(r, ps) && p.off == r.rcvNxt
    ensures Kept(Extend(r, p.data), ps + [p]) && Backed(Extend(r, p.data), ps + [p])
  {
    CoveredAppend(ps, r.rcvNxt, p);
    CoveredMore(ps + [p], r.rcvNxt, p, r.rcvNxt + |p.data|);
    hide Spans;
  }

  /** A segment kept for later, or come again. */
  lemma EarlyArrives(r: State, r': State, ps: seq<Piece>, p: Piece)
    requires Kept(r, ps) && Backed(r, ps)
    requires r'.rcvNxt == r.rcvNxt && (r'.reorder == r.reorder || r'.reorder == r.reorder + [p])
    requires p.off + |p.data| <= r.rcvNxt || p in r'.reorder
    ensures Kept(r', ps + [p]) && Backed(r', ps + [p])
  {
    CoveredAppend(ps, r.rcvNxt, p);
    hide Spans;
  }

  lemma DeliverArrives(r: State, app: seq<Byte>, taken: seq<Byte>, c: Cuts, top: nat, off: nat, ps: seq<Piece>)
    requires Tiling(c, app, top) && Receiving(r, app, taken, c, top)
    requires off in c && off < r.rcvNxt + ARQ_WINDOW && Kept(r, ps) && Backed(r, ps)
    ensures var r', ps' := Deliver(r, off, c[off]), ps + [Piece(off, c[off])]; Kept(r', ps') && Backed(r', ps')
  {
    OnlyNextOverlaps(r, app, taken, c, top, off);
    var p := Piece(off, c[off]);
    if off == r.rcvNxt {
      assert c[off] != [];
      DeliverIsDrain(r, c[off]);
      hide Deliver, Kept, Backed;
      NextArrivesToo(r, ps, p);
      DrainArrives(Extend(r, c[off]), ps + [p]);
    } else {
      hide Kept, Backed, DrainReorder, Tiling;
      if off > r.rcvNxt && Buffered(r.reorder, off) { assert p in r.reorder; }
      EarlyArrives(r, Deliver(r, off, c[off]), ps, p);
    }
  }

  // ----- One event -----

  /** The rest of an event leaves what has arrived alone. */
  lemma SameArrivals(r: State, r': State, ps: seq<Piece>)
    requires r'.rcvNxt == r.rcvNxt && r'.reorder == r.reorder && Kept(r, ps) && Backed(r, ps)
    ensures Kept(r', ps) && Backed(r', ps)
  {
    hide Spans;
  }

  lemma {:induction false} FillReceiver(s: State, now: int)
    ensures FillWindow(s, now).rcvNxt == s.rcvNxt && FillWindow(s, now).reorder == s.reorder
    decreases |s.pending|
  {
    if s.CanFill() { FillReceiver(FillOne(s, now), now); }
  }

  lemma AckReceiver(s: State, ack: nat, now: int)
    ensures var s' := ProcessAck(s, ack, now); s'.rcvNxt == s.rcvNxt && s'.reorder == s.reorder
  {
    DropTimesOnce(s, ack, now);
    hide DropAcked, Estimate, Sampled;
  }

  lemma RecvArrives(x: End, y: End, net: set<Datagram>, cx: Cuts, cy: Cuts, d: Datagram, now: int, ps: seq<Piece>)
    requires Pair(x, y, net, cx, cy) && Receivable(net, d) && Kept(x.arq, ps) && Backed(x.arq, ps)
    ensures var r', ps' := OnPacket(x.arq, d, now), ps + Came(x, net, Recv(A, d, now));
            Kept(r', ps') && Backed(r', ps')
  {
    assert ps + [] == ps;
    if From(d, x.arq.rxSalt) {
      assert d in All(x, y, net);
      var s := ProcessAck(x.arq, d.body.ack, now);
      AckReceiver(x.arq, d.body.ack, now);
      SameArrivals(x.arq, s, ps);
      AckStep(x, y, net, cx, cy, d, now);
      FillReceiver(Absorb(s, d.body), now);
      hide Kept, Backed, ProcessAck, FillWindow, Deliver;
      if d.body.Data? {
        GenuineHere(x, y, net, cx, cy, d);
        DeliverArrives(s, y.app, x.taken, cy, y.arq.sndNxt, d.body.off, ps);
        SameArrivals(Deliver(s, d.body.off, d.body.data), FillWindow(Absorb(s, d.body), now),
                     ps + [Piece(d.body.off, d.body.data)]);
      } else {
        SameArrivals(s, FillWindow(s, now), ps);
      }
    }
  }

  /** A segment that comes is one of the peer's, and within the window. */
  lemma GenuineHere(x: End, y: End, net: set<Datagram>, cx: Cuts, cy: Cuts, d: Datagram)
    requires Pair(x, y, net, cx, cy) && d in All(x, y, net) && From(d, x.arq.rxSalt) && d.body.Data?
    ensures Tiling(cy, y.app, y.arq.sndNxt) && d.body.off in cy && d.body.data == cy[d.body.off]
    ensures d.body.off < x.arq.rcvNxt + ARQ_WINDOW
    ensures Receiving(x.arq, y.app, x.taken, cy, y.arq.sndNxt)
  {
    hide Tiling, Receiving, Chain;
    assert Genuine(d, cy);
  }

  lemma EndArrives(x: End, y: End, net: set<Datagram>, cx: Cuts, cy: Cuts, e: Event, ps: seq<Piece>)
    requires Pair(x, y, net, cx, cy) && Kept(x.arq, ps) && Backed(x.arq, ps)
    ensures var x', ps' := StepEnd(x, net, e), ps + Came(x, net, e); Kept(x'.arq, ps') && Backed(x'.arq, ps')
  {
    hide Kept, Backed, Pair, FillWindow, OnPacket;
    assert ps + [] == ps;
    match e
    case Send(_, data, now) =>
      FillReceiver(x.arq.(pending := x.arq.pending + data), now);
      SameArrivals(x.arq, StepEnd(x, net, e).arq, ps);
    case Recv(_, d, now) =>
      if Receivable(net, d) {
        RecvArrives(x, y, net, cx, cy, d, now, ps);
        assert Came(x, net, e) == Came(x, net, Recv(A, d, now));
      }
    case Tick(_, now) =>
      FillReceiver(HeadTimer(x.arq, now), now);
      SameArrivals(x.arq, StepEnd(x, net, e).arq, ps);
    case Poll(_) => SameArrivals(x.arq, StepEnd(x, net, e).arq, ps);
    case Take(_) => SameArrivals(x.arq, StepEnd(x, net, e).arq, ps);
  }

  // ----- Every run -----

  lemma {:induction false} RunArrives(es: seq<Event>)
    ensures var w := Run(Start(), es);
            && Kept(w.a.arq, Received(es, A)) && Backed(w.a.arq, Received(es, A))
            && Kept(w.b.arq, Received(es, B)) && Backed(w.b.arq, Received(es, B))
  {
    if es != [] {
      var init, e := es[..|es| - 1], es[|es| - 1];
      var w := Run(Start(), init);
      RunArrives(init);
      RunInv(init);
      var ca: Cuts, cb: Cuts :| Pair(w.a, w.b, w.net, ca, cb);
      hide Kept, Backed, Pair, StepEnd, Came;
      assert Received(init, A) + [] == Received(init, A) && Received(init, B) + [] == Received(init, B);
      if e.side == A {
        EndArrives(w.a, w.b, w.net, ca, cb, e, Received(init, A));
      } else {
        PairSwap(w.a, w.b, w.net, ca, cb);
        EndArrives(w.b, w.a, w.net, cb, ca, e, Received(init, B));
      }
    }
  }

  lemma FarAsKept(r: State, app: seq<Byte>, taken: seq<Byte>, c: Cuts, top: nat, ps: seq<Piece>, n: nat)
    requires Receiving(r, app, taken, c, top) && Kept(r, ps) && Backed(r, ps)
    ensures r.rcvNxt >= n <==> Spans(ps, n)
  {
    forall p | p in ps
      ensures !Covers(p, r.rcvNxt)
    {
      if p in r.reorder { assert p.off > r.rcvNxt; }
    }
    assert !Reached(ps, r.rcvNxt);
  }

  /**
   For every run, side and length: the stream has got that far if and only if the segments that arrived, in
   whatever order and however often, cover it. So none that came early is lost, and none is invented.
   */
  lemma FarAsArrived(es: seq<Event>, side: Side, n: nat)
    ensures var w := Run(Start(), es);
            (if side == A then w.a else w.b).arq.rcvNxt >= n <==> Spans(Received(es, side), n)
  {
    var w := Run(Start(), es);
    RunArrives(es);
    RunInv(es);
    var ca: Cuts, cb: Cuts :| Pair(w.a, w.b, w.net, ca, cb);
    hide Kept, Backed, Spans, Run, Received;
    FarAsKept(w.a.arq, w.b.app, w.a.taken, cb, w.b.arq.sndNxt, Received(es, A), n);
    FarAsKept(w.b.arq, w.a.app, w.b.taken, ca, w.a.arq.sndNxt, Received(es, B), n);
  }

  // ----- A peer that keeps to nothing -----

  /** What is buffered begins within the window, and no two pieces at one place. */
  ghost predicate Bounded(s: State) {
    && (forall i | 0 <= i < |s.reorder| :: s.reorder[i].off - s.rcvNxt <= ARQ_WINDOW)
    && (forall i, j | 0 <= i < j < |s.reorder| :: s.reorder[i].off != s.reorder[j].off)
  }

  lemma {:induction false} DrainBounded(s: State)
    requires Bounded(s)
    ensures Bounded(DrainReorder(s))
    decreases |s.reorder|
  {
    var i := FirstHit(s.reorder, s.rcvNxt);
    if i < |s.reorder| {
      hide FirstHit;
      var s' := DrainOne(s, i);
      forall k | 0 <= k < |s'.reorder|
        ensures s'.reorder[k] == s.reorder[if k < i then k else k + 1]
      {
      }
      DrainBounded(s');
    }
  }

  lemma DeliverBounded(s: State, off: nat, data: seq<Byte>)
    requires Bounded(s)
    ensures Bounded(Deliver(s, off, data))
  {
    if off <= s.rcvNxt < off + |data| { DrainBounded(Extend(s, data[s.rcvNxt - off..])); }
    hide DrainReorder;
  }

  lemma EndBounded(x: End, net: set<Datagram>, e: Event)
    requires Bounded(x.arq)
    ensures Bounded(StepEnd(x, net, e).arq)
  {
    hide FillWindow, ProcessAck, Deliver;
    match e
    case Send(_, data, now) => FillReceiver(x.arq.(pending := x.arq.pending + data), now);
    case Recv(_, d, now) =>
      if Receivable(net, d) && From(d, x.arq.rxSalt) {
        var s := ProcessAck(x.arq, d.body.ack, now);
        AckReceiver(x.arq, d.body.ack, now);
        if d.body.Data? { DeliverBounded(s, d.body.off, d.body.data); }
        FillReceiver(Absorb(s, d.body), now);
      }
    case Tick(_, now) => FillReceiver(HeadTimer(x.arq, now), now);
    case Poll(_) =>
    case Take(_) =>
  }

  /** One endpoint by itself: whatever datagrams it is sent, sealed by its peer or not. */
  function Alone(x: End, es: seq<Event>): End {
    if es == [] then x
    else
      var e := es[|es| - 1];
      StepEnd(Alone(x, es[..|es| - 1]), if e.Recv? then {e.d} else {}, e)
  }

  /**
   Whatever a peer sends, even one that keeps to no window of its own: an endpoint buffers nothing that
   begins more than a window ahead of what it has, and nothing twice.
   */
  lemma {:induction false} BufferBounded(txSalt: nat, rxSalt: nat, es: seq<Event>)
    ensures Bounded(Alone(End(Init(txSalt, rxSalt), [], []), es).arq)
  {
    if es != [] {
      var e := es[|es| - 1];
      BufferBounded(txSalt, rxSalt, es[..|es| - 1]);
      EndBounded(Alone(End(Init(txSalt, rxSalt), [], []), es[..|es| - 1]), if e.Recv? then {e.d} else {}, e);
      hide StepEnd, Bounded;
    }
  }
}
