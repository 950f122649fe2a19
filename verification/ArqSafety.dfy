/** What holds of two `Arq` endpoints after every run, whatever the network did. */
module ArqSafety {
  import opened Bytes
  import opened Arq
  import opened ArqNetwork

  /** The bytes the application on `side` asked to send, in order. */
  function Submitted(es: seq<Event>, side: Side): seq<Byte> {
    if es == [] then []
    else
      var e := es[|es| - 1];
      Submitted(es[..|es| - 1], side) + if e.Send? && e.side == side then e.data else []
  }

  lemma {:induction false} AppIsSubmitted(es: seq<Event>)
    ensures Run(Start(), es).a.app == Submitted(es, A)
    ensures Run(Start(), es).b.app == Submitted(es, B)
  {
    if es != [] { AppIsSubmitted(es[..|es| - 1]); }
  }

  /** `x`'s view of its own stream and `y`'s view of it agree. */
  ghost predicate InOrder(sent: seq<Byte>, y: End) {
    y.arq.rcvNxt <= |sent| && y.Delivered() == sent[..y.arq.rcvNxt]
  }

  /** Reliable ordered delivery: what each side has received is a prefix of what the other sent. */
  lemma ReliableInOrder(es: seq<Event>)
    ensures var w := Run(Start(), es);
            InOrder(Submitted(es, A), w.b) && InOrder(Submitted(es, B), w.a)
  {
    RunInv(es);
    AppIsSubmitted(es);
  }

  ghost predicate WindowsAgree(x: End, y: End, all: set<Datagram>) {
    && 0 <= x.arq.sndNxt - x.arq.SndUna() <= ARQ_WINDOW + SEG_MAX - 1
    && x.arq.SndUna() <= y.arq.rcvNxt
    && forall d | d in all && From(d, x.arq.txSalt) && d.body.Data? ::
         d.body.off - y.arq.rcvNxt < ARQ_WINDOW
  }

  /**
   Bytes in flight overshoot the window by less than one segment, and yet no data datagram ever
   sent, however late it arrives, fails the receiver's window test.
   */
  lemma WindowAgreement(es: seq<Event>)
    ensures var w := Run(Start(), es);
            var all := All(w.a, w.b, w.net);
            WindowsAgree(w.a, w.b, all) && WindowsAgree(w.b, w.a, all)
  {
    RunInv(es);
    var w := Run(Start(), es);
    var ca: Cuts, cb: Cuts :| Pair(w.a, w.b, w.net, ca, cb);
    HeadAtMostTop(w.a, ca);
    HeadAtMostTop(w.b, cb);
  }

  lemma HeadAtMostTop(x: End, c: Cuts)
    requires Sending(x.arq, x.app, c)
    ensures x.arq.SndUna() <= x.arq.sndNxt
  {
  }

  /** Sender and receiver bookkeeping in terms of one tiling `c` of the sender's stream. */
  ghost predicate Aligned(x: End, y: End, c: Cuts) {
    && Tiling(c, x.app, x.arq.sndNxt)
    && x.app[x.arq.sndNxt..] == x.arq.pending
    && Chain(x.arq.unacked, x.arq.sndNxt, c)
    && x.arq.lastAck == x.arq.SndUna()
    && Edge(c, x.arq.sndNxt, y.arq.rcvNxt)
    && (forall i | 0 <= i < |y.arq.reorder| ::
          var p := y.arq.reorder[i];
          p.off > y.arq.rcvNxt && p.off in c && p.data == c[p.off])
    && (forall i, j | 0 <= i < j < |y.arq.reorder| :: y.arq.reorder[i].off != y.arq.reorder[j].off)
  }

  /**
   The sender's segments tile its stream; the unacknowledged ones are the last of them, the
   pending bytes follow; the receiver's next byte is a segment boundary; and every buffered piece
   is a distinct whole segment strictly beyond it, so the buffer keeps nothing stale.
   */
  lemma Alignment(es: seq<Event>) returns (ca: Cuts, cb: Cuts)
    ensures var w := Run(Start(), es); Aligned(w.a, w.b, ca) && Aligned(w.b, w.a, cb)
  {
    RunInv(es);
    var w := Run(Start(), es);
    ca, cb :| Pair(w.a, w.b, w.net, ca, cb);
  }

  /** The fill loop is greedy: it stops only when nothing is pending or the window is full. */
  lemma {:induction false} FillIsGreedy(s: State, now: int)
    ensures var s' := FillWindow(s, now); s'.pending == [] || s'.sndNxt - s'.SndUna() >= ARQ_WINDOW
    decreases |s.pending|
  {
    if s.CanFill() { FillIsGreedy(FillOne(s, now), now); }
  }

  /** Segments are cut as large as they may be: only the last of what was pending may be smaller. */
  lemma {:induction false} SegmentsFull(s: State, now: int)
    ensures var s' := FillWindow(s, now);
            && s.unacked <= s'.unacked
            && forall i | |s.unacked| <= i < |s'.unacked| ::
                 |s'.unacked[i].data| == SEG_MAX || (i == |s'.unacked| - 1 && s'.pending == [])
    decreases |s.pending|
  {
    if s.CanFill() {
      var s1 := FillOne(s, now);
      SegmentsFull(s1, now);
      if s1.pending == [] { assert FillWindow(s1, now) == s1; }
    }
  }

  /** Nothing is kept back that the window has room for. */
  predicate Sendable(s: State) { s.pending != [] && s.sndNxt - s.SndUna() < ARQ_WINDOW }

  lemma StepFills(x: End, net: set<Datagram>, e: Event)
    requires !Sendable(x.arq)
    ensures !Sendable(StepEnd(x, net, e).arq)
  {
    hide FillWindow, ProcessAck, Absorb, HeadTimer;
    match e
    case Send(_, data, now) => FillIsGreedy(x.arq.(pending := x.arq.pending + data), now);
    case Recv(_, d, now) =>
      if Receivable(net, d) && From(d, x.arq.rxSalt) {
        FillIsGreedy(Absorb(ProcessAck(x.arq, d.body.ack, now), d.body), now);
      }
    case Tick(_, now) => FillIsGreedy(HeadTimer(x.arq, now), now);
    case Poll(_) =>
    case Take(_) =>
  }

  /** In every run, bytes wait only behind a full window: an ack that makes room is used at once. */
  lemma {:induction false} NothingHeldBack(es: seq<Event>)
    ensures !Sendable(Run(Start(), es).a.arq) && !Sendable(Run(Start(), es).b.arq)
  {
    if es != [] {
      var init, e := es[..|es| - 1], es[|es| - 1];
      NothingHeldBack(init);
      var w := Run(Start(), init);
      StepFills(if e.side == A then w.a else w.b, w.net, e);
      hide Sendable, StepEnd;
    }
  }
}
