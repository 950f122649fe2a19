/**
 Two `Arq` endpoints over a network that may lose, duplicate, delay and reorder datagrams. The
 network is the set of every datagram ever sent, and a receive event may name any of them, any
 number of times, or one nobody sealed. A run is any list of events.
 */
module ArqNetwork {
  import opened Bytes
  import opened Arq

  /** An endpoint, every byte its application sent, and every byte its application has taken. */
  datatype End = End(arq: State, app: seq<Byte>, taken: seq<Byte>) {
    function Delivered(): seq<Byte> { taken + arq.inbox }
  }

  datatype World = World(a: End, b: End, net: set<Datagram>)

  datatype Side = A | B

  datatype Event =
    | Send(side: Side, data: seq<Byte>, now: int)
    | Recv(side: Side, d: Datagram, now: int)
    | Tick(side: Side, now: int)
    | Poll(side: Side)
    | Take(side: Side)

  const SALT_A: nat := 1
  const SALT_B: nat := 2

  function Start(): World {
    World(End(Init(SALT_A, SALT_B), [], []), End(Init(SALT_B, SALT_A), [], []), {})
  }

  function Queued(s: State): set<Datagram> { set d | d in s.outq }

  /** An endpoint never seals a control packet here, but its owner does (heartbeats), and anyone can forge. */
  predicate Receivable(net: set<Datagram>, d: Datagram) {
    d in net || d.Forged? || d.body.Control?
  }

  function StepEnd(x: End, net: set<Datagram>, e: Event): End {
    match e
    case Send(_, data, now) => x.(arq := AppSend(x.arq, data, now), app := x.app + data)
    case Recv(_, d, now) => if Receivable(net, d) then x.(arq := OnPacket(x.arq, d, now)) else x
    case Tick(_, now) => x.(arq := Arq.Tick(x.arq, now))
    case Poll(_) => x.(arq := PollOut(x.arq))
    case Take(_) => x.(arq := TakeInbox(x.arq), taken := x.taken + x.arq.inbox)
  }

  function StepNet(x: End, net: set<Datagram>, e: Event): set<Datagram> {
    if e.Poll? then net + Queued(x.arq) else net
  }

  function Step(w: World, e: Event): World {
    if e.side == A
    then World(StepEnd(w.a, w.net, e), w.b, StepNet(w.a, w.net, e))
    else World(w.a, StepEnd(w.b, w.net, e), StepNet(w.b, w.net, e))
  }

  function Run(w: World, es: seq<Event>): World {
    if es == [] then w else Step(Run(w, es[..|es| - 1]), es[|es| - 1])
  }

  // ----- The invariant of one direction -----

  /** Every segment the sender ever cut, by stream offset. */
  type Cuts = map<nat, seq<Byte>>

  ghost predicate Edge(c: Cuts, top: nat, r: nat) { r == top || r in c }

  ghost function CutEnd(c: Cuts, o: nat): nat
    requires o in c
  {
    o + |c[o]|
  }

  /** The cuts tile `[0, top)` of the application stream. */
  ghost predicate Tiling(c: Cuts, app: seq<Byte>, top: nat) {
    && top <= |app|
    && (forall o | o in c :: 0 < |c[o]| <= SEG_MAX && o + |c[o]| <= top && c[o] == app[o..o + |c[o]|])
    && (forall o {:trigger CutEnd(c, o)} | o in c :: Edge(c, top, CutEnd(c, o)))
    && (forall o, p | o in c && p in c && o < p :: o + |c[o]| <= p)
  }

  /** The unacknowledged segments are consecutive cuts ending at `top`. */
  ghost predicate Chain(us: seq<Segment>, top: nat, c: Cuts) {
    && (forall i | 0 <= i < |us| :: us[i].off in c && c[us[i].off] == us[i].data)
    && (forall i, j | 0 <= i < j < |us| && j == i + 1 :: us[i].End() == us[j].off)
    && (us != [] ==> us[|us| - 1].End() == top)
  }

  ghost predicate Queue(s: State, app: seq<Byte>, c: Cuts) {
    && Tiling(c, app, s.sndNxt)
    && s.pending == app[s.sndNxt..]
    && Chain(s.unacked, s.sndNxt, c)
    && s.sndNxt - s.SndUna() < ARQ_WINDOW + SEG_MAX
  }

  ghost predicate Sending(s: State, app: seq<Byte>, c: Cuts) {
    Queue(s, app, c) && s.lastAck == s.SndUna()
  }

  predicate From(d: Datagram, salt: nat) { d.Sealed? && d.salt == salt && !d.body.Control? }

  ghost predicate Genuine(d: Datagram, c: Cuts) {
    d.Sealed? && d.body.Data? ==> d.body.off in c && d.body.data == c[d.body.off]
  }

  ghost predicate Receiving(r: State, app: seq<Byte>, taken: seq<Byte>, c: Cuts, top: nat) {
    && r.rcvNxt <= top <= |app| && Edge(c, top, r.rcvNxt)
    && taken + r.inbox == app[..r.rcvNxt]
    && (forall i | 0 <= i < |r.reorder| ::
          r.reorder[i].off > r.rcvNxt && r.reorder[i].off in c && r.reorder[i].data == c[r.reorder[i].off])
    && (forall i, j | 0 <= i < j < |r.reorder| :: r.reorder[i].off != r.reorder[j].off)
  }

  /** Everything known about the stream from `x` to `y`; `all` is every datagram sent or queued. */
  ghost predicate Direction(x: End, y: End, all: set<Datagram>, c: Cuts) {
    && x.arq.txSalt == y.arq.rxSalt && x.arq.txSalt != y.arq.txSalt
    && Sending(x.arq, x.app, c)
    && Receiving(y.arq, x.app, y.taken, c, x.arq.sndNxt)
    && x.arq.SndUna() <= y.arq.rcvNxt
    && (forall d | d in all && From(d, x.arq.txSalt) :: Genuine(d, c))
    && (forall d | d in all && From(d, y.arq.txSalt) ::
          d.body.ack <= y.arq.rcvNxt && Edge(c, x.arq.sndNxt, d.body.ack))
    && (forall o | o in c :: o < y.arq.rcvNxt + ARQ_WINDOW)
  }

  function All(x: End, y: End, net: set<Datagram>): set<Datagram> {
    net + Queued(x.arq) + Queued(y.arq)
  }

  ghost predicate Pair(x: End, y: End, net: set<Datagram>, cx: Cuts, cy: Cuts) {
    Direction(x, y, All(x, y, net), cx) && Direction(y, x, All(x, y, net), cy)
  }

  ghost predicate Inv(w: World) { exists ca: Cuts, cb: Cuts :: Pair(w.a, w.b, w.net, ca, cb) }

  // ----- Sender steps -----

  ghost predicate Grows(c: Cuts, top: nat, c': Cuts, top': nat) {
    && top <= top' && Edge(c', top', top)
    && (forall o | o in c :: o in c' && c'[o] == c[o])
  }

  /** `s'` is `s` after sender work: same receiver half, and only honest datagrams added to the queue. */
  ghost predicate Sent(s: State, s': State, c: Cuts) {
    && s'.txSalt == s.txSalt && s'.rxSalt == s.rxSalt
    && s'.rcvNxt == s.rcvNxt && s'.reorder == s.reorder && s'.inbox == s.inbox
    && |s.outq| <= |s'.outq| && s'.outq[..|s.outq|] == s.outq
    && (forall i | |s.outq| <= i < |s'.outq| ::
          From(s'.outq[i], s.txSalt) && s'.outq[i].body.ack == s.rcvNxt && Genuine(s'.outq[i], c))
  }

  lemma SentTrans(s: State, s1: State, s2: State, c1: Cuts, c2: Cuts)
    requires Sent(s, s1, c1) && Sent(s1, s2, c2)
    requires forall o | o in c1 :: o in c2 && c2[o] == c1[o]
    ensures Sent(s, s2, c2)
  {
    forall i | |s.outq| <= i < |s1.outq|
      ensures s2.outq[i] == s1.outq[i]
    {
      assert s2.outq[..|s1.outq|][i] == s1.outq[i];
    }
    assert s2.outq[..|s.outq|] == s2.outq[..|s1.outq|][..|s.outq|];
  }

  lemma CutEnds(c: Cuts, app: seq<Byte>, top: nat, chunk: seq<Byte>, o: nat)
    requires Tiling(c, app, top) && (o in c || o == top)
    ensures var c' := c[top := chunk]; Edge(c', top + |chunk|, CutEnd(c', o))
  {
    if o in c {
      assert Edge(c, top, CutEnd(c, o));
    }
  }

  lemma CutKeepsTiling(c: Cuts, app: seq<Byte>, top: nat, chunk: seq<Byte>)
    requires Tiling(c, app, top) && 0 < |chunk| <= SEG_MAX
    requires top + |chunk| <= |app| && chunk == app[top..top + |chunk|]
    ensures top !in c && Tiling(c[top := chunk], app, top + |chunk|)
  {
    hide Edge;
    var c', top' := c[top := chunk], top + |chunk|;
    forall o {:trigger CutEnd(c', o)} | o in c'
      ensures Edge(c', top', CutEnd(c', o))
    {
      CutEnds(c, app, top, chunk, o);
    }
  }

  lemma ChainSnoc(us: seq<Segment>, top: nat, c: Cuts, seg: Segment)
    requires Chain(us, top, c) && seg.off == top && top !in c
    ensures Chain(us + [seg], seg.End(), c[top := seg.data])
  {
  }

  lemma FillOneSends(s: State, c: Cuts, now: int)
    requires s.CanFill()
    ensures Sent(s, FillOne(s, now), c[s.sndNxt := s.pending[..Min(SEG_MAX, |s.pending|)]])
  {
  }

  lemma FillOneQueues(s: State, app: seq<Byte>, c: Cuts, now: int)
    requires Queue(s, app, c) && s.CanFill()
    ensures var chunk := s.pending[..Min(SEG_MAX, |s.pending|)];
            s.sndNxt !in c && chunk != [] && Queue(FillOne(s, now), app, c[s.sndNxt := chunk])
  {
    var n := Min(SEG_MAX, |s.pending|);
    CutKeepsTiling(c, app, s.sndNxt, s.pending[..n]);
    ChainSnoc(s.unacked, s.sndNxt, c, Segment(s.sndNxt, s.pending[..n], now, 1));
    hide Tiling, Chain;
    assert s.pending[n..] == app[s.sndNxt + n..];
  }

  lemma FillOneKeeps(s: State, app: seq<Byte>, c: Cuts, now: int) returns (c': Cuts)
    requires Queue(s, app, c) && s.CanFill()
    ensures var s' := FillOne(s, now);
            && Queue(s', app, c') && Grows(c, s.sndNxt, c', s'.sndNxt) && Sent(s, s', c')
            && s'.SndUna() == s.SndUna() && s'.lastAck == s.lastAck
            && forall o | o in c' :: o in c || o < s.SndUna() + ARQ_WINDOW
  {
    FillOneSends(s, c, now);
    FillOneQueues(s, app, c, now);
    hide Queue, Sent;
    c' := c[s.sndNxt := s.pending[..Min(SEG_MAX, |s.pending|)]];
  }

  lemma {:induction false} FillKeeps(s: State, app: seq<Byte>, c: Cuts, now: int) returns (c': Cuts)
    requires Queue(s, app, c)
    ensures var s' := FillWindow(s, now);
            && Queue(s', app, c') && Grows(c, s.sndNxt, c', s'.sndNxt) && Sent(s, s', c')
            && s'.SndUna() == s.SndUna() && s'.lastAck == s.lastAck
            && forall o | o in c' :: o in c || o < s.SndUna() + ARQ_WINDOW
    decreases |s.pending|
  {
    c' := c;
    if s.CanFill() {
      var c1 := FillOneKeeps(s, app, c, now);
      c' := FillKeeps(FillOne(s, now), app, c1, now);
      SentTrans(s, FillOne(s, now), FillWindow(s, now), c1, c');
    }
  }

  lemma ChainHead(us: seq<Segment>, top: nat, c: Cuts, now: int, xmits: nat)
    requires Chain(us, top, c) && us != []
    ensures Chain(us[0 := us[0].(xmits := xmits, sentMs := now)], top, c)
  {
  }

  lemma {:induction false} FillInbox(s: State, now: int)
    ensures FillWindow(s, now).inbox == s.inbox
    decreases |s.pending|
  {
    if s.CanFill() { FillInbox(FillOne(s, now), now); }
  }

  lemma RetransmitKeeps(s: State, app: seq<Byte>, c: Cuts, now: int)
    requires Queue(s, app, c)
    ensures var s' := RetransmitFirst(s, now);
            Queue(s', app, c) && Sent(s, s', c) && s'.SndUna() == s.SndUna()
            && s'.lastAck == s.lastAck && s'.sndNxt == s.sndNxt
  {
    if s.unacked != [] {
      ChainHead(s.unacked, s.sndNxt, c, now, s.unacked[0].xmits + 1);
      assert s.unacked[0].off in c;
      hide Tiling, Chain;
      var s' := RetransmitFirst(s, now);
      assert s'.unacked == s.unacked[0 := s.unacked[0].(xmits := s.unacked[0].xmits + 1, sentMs := now)];
    }
  }

  lemma AckBehindHead(s: State, app: seq<Byte>, c: Cuts, ack: nat)
    requires Queue(s, app, c) && ack <= s.sndNxt && Edge(c, s.sndNxt, ack)
    requires s.unacked != [] ==> s.unacked[0].End() > ack
    ensures ack <= s.SndUna()
  {
  }

  lemma ChainTail(us: seq<Segment>, top: nat, c: Cuts)
    requires Chain(us, top, c) && us != []
    ensures Chain(us[1..], top, c)
    ensures us[0].End() == if |us| > 1 then us[1].off else top
  {
  }

  lemma {:induction false} DropKeeps(s: State, app: seq<Byte>, c: Cuts, ack: nat, now: int)
    requires Queue(s, app, c)
    requires ack <= s.sndNxt && Edge(c, s.sndNxt, ack)
    ensures var s' := DropAcked(s, ack, now);
            && Queue(s', app, c) && Sent(s, s', c)
            && s'.SndUna() == Max(s.SndUna(), ack) && s'.lastAck == s.lastAck && s'.sndNxt == s.sndNxt
    decreases |s.unacked|
  {
    hide RttUpdate, Tiling, Chain, Edge;
    if s.unacked != [] && s.unacked[0].End() <= ack {
      var t := if s.unacked[0].xmits == 1 then RttUpdate(s.timer, now - s.unacked[0].sentMs) else s.timer;
      var s1 := s.(unacked := s.unacked[1..], timer := t);
      ChainTail(s.unacked, s.sndNxt, c);
      DropKeeps(s1, app, c, ack, now);
    } else {
      AckBehindHead(s, app, c, ack);
    }
  }

  lemma NoteAckKeeps(s: State, app: seq<Byte>, c: Cuts, ack: nat, now: int)
    requires Queue(s, app, c) && s.SndUna() == Max(s.lastAck, ack)
    ensures var s' := NoteAck(s, ack, now);
            Sending(s', app, c) && Sent(s, s', c) && s'.SndUna() == s.SndUna() && s'.sndNxt == s.sndNxt
  {
    hide Tiling, Chain;
    if ack == s.lastAck && s.unacked != [] {
      RetransmitKeeps(s.(dupAcks := s.dupAcks + 1), app, c, now);
    }
  }

  lemma AckKeeps(s: State, app: seq<Byte>, c: Cuts, ack: nat, now: int)
    requires Sending(s, app, c)
    requires ack <= s.sndNxt && Edge(c, s.sndNxt, ack)
    ensures var s' := ProcessAck(s, ack, now);
            && Sending(s', app, c) && Sent(s, s', c)
            && s'.SndUna() == Max(s.SndUna(), ack) && s'.sndNxt == s.sndNxt
  {
    DropKeeps(s, app, c, ack, now);
    NoteAckKeeps(DropAcked(s, ack, now), app, c, ack, now);
    SentTrans(s, DropAcked(s, ack, now), ProcessAck(s, ack, now), c, c);
  }

  /** Sender work at `x` that satisfies `Sent` keeps both directions. */
  lemma SenderKeeps(x: End, x': End, y: End, net: set<Datagram>, cx: Cuts, cx': Cuts, cy: Cuts)
    requires Pair(x, y, net, cx, cy)
    requires Sending(x'.arq, x'.app, cx') && Sent(x.arq, x'.arq, cx')
    requires Grows(cx, x.arq.sndNxt, cx', x'.arq.sndNxt)
    requires x.app <= x'.app && x'.taken == x.taken
    requires x.arq.SndUna() <= x'.arq.SndUna() <= y.arq.rcvNxt
    requires forall o | o in cx' :: o in cx || o < x'.arq.SndUna() + ARQ_WINDOW
    ensures Pair(x', y, net, cx', cy)
  {
    forall d | d in All(x', y, net) && d !in All(x, y, net)
      ensures From(d, x.arq.txSalt) && d.body.ack == x.arq.rcvNxt && Genuine(d, cx')
    {
      var i :| 0 <= i < |x'.arq.outq| && x'.arq.outq[i] == d;
    }
    assert x'.app[..y.arq.rcvNxt] == x.app[..y.arq.rcvNxt];
  }

  // ----- Receiver steps -----

  /** Only the receiver half (and the ack debt) differs. */
  predicate ReceiverOnly(r: State, r': State) {
    r' == r.(inbox := r'.inbox, rcvNxt := r'.rcvNxt, reorder := r'.reorder, needAck := r'.needAck)
  }

  /** `Receiving`, except that a buffered piece may be the very next one wanted. */
  ghost predicate Draining(r: State, app: seq<Byte>, taken: seq<Byte>, c: Cuts, top: nat) {
    && r.rcvNxt <= top <= |app| && Edge(c, top, r.rcvNxt)
    && taken + r.inbox == app[..r.rcvNxt]
    && (forall i | 0 <= i < |r.reorder| ::
          r.reorder[i].off >= r.rcvNxt && r.reorder[i].off in c && r.reorder[i].data == c[r.reorder[i].off])
    && (forall i, j | 0 <= i < j < |r.reorder| :: r.reorder[i].off != r.reorder[j].off)
  }

  lemma DrainOneKeeps(r: State, app: seq<Byte>, taken: seq<Byte>, c: Cuts, top: nat, i: nat)
    requires Tiling(c, app, top) && Draining(r, app, taken, c, top)
    requires i < |r.reorder| && Hits(r.reorder[i], r.rcvNxt)
    ensures Draining(DrainOne(r, i), app, taken, c, top)
  {
    var p := r.reorder[i];
    assert p.off == r.rcvNxt;
    assert Edge(c, top, CutEnd(c, p.off));
    assert app[..p.off] + app[p.off..p.off + |p.data|] == app[..p.off + |p.data|];
    assert taken + (r.inbox + p.data) == (taken + r.inbox) + p.data;
  }

  lemma {:induction false} DrainKeeps(r: State, app: seq<Byte>, taken: seq<Byte>, c: Cuts, top: nat)
    requires Tiling(c, app, top) && Draining(r, app, taken, c, top)
    ensures var r' := DrainReorder(r);
            Receiving(r', app, taken, c, top) && r.rcvNxt <= r'.rcvNxt && ReceiverOnly(r, r')
    decreases |r.reorder|
  {
    var i := FirstHit(r.reorder, r.rcvNxt);
    if i < |r.reorder| {
      DrainOneKeeps(r, app, taken, c, top, i);
      DrainKeeps(DrainOne(r, i), app, taken, c, top);
    }
  }

  lemma NextArrives(r: State, app: seq<Byte>, taken: seq<Byte>, c: Cuts, top: nat)
    requires Tiling(c, app, top) && Receiving(r, app, taken, c, top) && r.rcvNxt in c
    ensures Draining(Extend(r, c[r.rcvNxt]), app, taken, c, top)
  {
    var end := CutEnd(c, r.rcvNxt);
    assert Edge(c, top, end);
    assert app[..r.rcvNxt] + app[r.rcvNxt..end] == app[..end];
    assert taken + (r.inbox + c[r.rcvNxt]) == (taken + r.inbox) + c[r.rcvNxt];
  }

  lemma OnlyNextOverlaps(r: State, app: seq<Byte>, taken: seq<Byte>, c: Cuts, top: nat, off: nat)
    requires Tiling(c, app, top) && Receiving(r, app, taken, c, top) && off in c
    ensures off <= r.rcvNxt < CutEnd(c, off) ==> off == r.rcvNxt
  {
  }

  lemma BufferKeeps(r: State, app: seq<Byte>, taken: seq<Byte>, c: Cuts, top: nat, off: nat)
    requires Receiving(r, app, taken, c, top)
    requires off in c && off > r.rcvNxt && !Buffered(r.reorder, off)
    ensures Receiving(r.(reorder := r.reorder + [Piece(off, c[off])]), app, taken, c, top)
  {
  }

  lemma DeliverIsDrain(r: State, data: seq<Byte>)
    requires data != []
    ensures Deliver(r, r.rcvNxt, data) == DrainReorder(Extend(r, data))
  {
    hide DrainReorder, Extend;
    assert data[r.rcvNxt - r.rcvNxt..] == data;
  }

  lemma DeliverNext(r: State, app: seq<Byte>, taken: seq<Byte>, c: Cuts, top: nat)
    requires Tiling(c, app, top) && Receiving(r, app, taken, c, top) && r.rcvNxt in c
    ensures var r' := Deliver(r, r.rcvNxt, c[r.rcvNxt]);
            Receiving(r', app, taken, c, top) && CutEnd(c, r.rcvNxt) <= r'.rcvNxt && ReceiverOnly(r, r')
  {
    assert c[r.rcvNxt] != [];
    hide Deliver, DrainReorder, Tiling, Receiving, Draining;
    DeliverIsDrain(r, c[r.rcvNxt]);
    NextArrives(r, app, taken, c, top);
    DrainKeeps(Extend(r, c[r.rcvNxt]), app, taken, c, top);
  }

  lemma DeliverKeeps(r: State, app: seq<Byte>, taken: seq<Byte>, c: Cuts, top: nat, off: nat)
    requires Tiling(c, app, top) && Receiving(r, app, taken, c, top)
    requires off in c && off < r.rcvNxt + ARQ_WINDOW
    ensures var r' := Deliver(r, off, c[off]);
            Receiving(r', app, taken, c, top) && r.rcvNxt <= r'.rcvNxt && ReceiverOnly(r, r')
    ensures off <= r.rcvNxt ==> CutEnd(c, off) <= Deliver(r, off, c[off]).rcvNxt
  {
    OnlyNextOverlaps(r, app, taken, c, top, off);
    if CutEnd(c, off) <= r.rcvNxt {
    } else if off > r.rcvNxt {
      if !Buffered(r.reorder, off) { BufferKeeps(r, app, taken, c, top, off); }
    } else {
      DeliverNext(r, app, taken, c, top);
    }
  }

  lemma AbsorbKeeps(x: End, y: End, net: set<Datagram>, cx: Cuts, cy: Cuts, body: Body)
    requires Pair(x, y, net, cx, cy) && !body.Control?
    requires body.Data? ==> body.off in cy && body.data == cy[body.off]
    ensures var r := Absorb(x.arq, body);
            Pair(x.(arq := r), y, net, cx, cy) && ReceiverOnly(x.arq, r) && x.arq.rcvNxt <= r.rcvNxt
    ensures body.Data? && body.off <= x.arq.rcvNxt ==>
              body.off + |body.data| <= Absorb(x.arq, body).rcvNxt
  {
    if body.Data? {
      DeliverKeeps(x.arq, y.app, x.taken, cy, y.arq.sndNxt, body.off);
      var r := Absorb(x.arq, body);
      assert All(x.(arq := r), y, net) == All(x, y, net);
    }
  }

  // ----- Events -----

  lemma FillStep(x: End, y: End, net: set<Datagram>, cx: Cuts, cy: Cuts, now: int) returns (cx': Cuts)
    requires Pair(x, y, net, cx, cy)
    ensures Pair(x.(arq := FillWindow(x.arq, now)), y, net, cx', cy)
    ensures FillWindow(x.arq, now).SndUna() == x.arq.SndUna() && FillWindow(x.arq, now).rcvNxt == x.arq.rcvNxt
  {
    cx' := FillKeeps(x.arq, x.app, cx, now);
    SenderKeeps(x, x.(arq := FillWindow(x.arq, now)), y, net, cx, cx', cy);
  }

  lemma AppendKeeps(s: State, app: seq<Byte>, c: Cuts, data: seq<Byte>)
    requires Sending(s, app, c)
    ensures Sending(s.(pending := s.pending + data), app + data, c)
  {
    assert (app + data)[s.sndNxt..] == app[s.sndNxt..] + data;
  }

  lemma AppendStep(x: End, y: End, net: set<Datagram>, cx: Cuts, cy: Cuts, data: seq<Byte>)
    requires Pair(x, y, net, cx, cy)
    ensures Pair(x.(arq := x.arq.(pending := x.arq.pending + data), app := x.app + data), y, net, cx, cy)
  {
    var x1 := x.(arq := x.arq.(pending := x.arq.pending + data), app := x.app + data);
    AppendKeeps(x.arq, x.app, cx, data);
    hide Queue;
    SenderKeeps(x, x1, y, net, cx, cx, cy);
  }

  lemma SendStep(x: End, y: End, net: set<Datagram>, cx: Cuts, cy: Cuts, data: seq<Byte>, now: int)
    returns (cx': Cuts)
    requires Pair(x, y, net, cx, cy)
    ensures Pair(StepEnd(x, net, Send(A, data, now)), y, net, cx', cy)
  {
    hide Direction;
    AppendStep(x, y, net, cx, cy, data);
    cx' := FillStep(x.(arq := x.arq.(pending := x.arq.pending + data), app := x.app + data), y, net, cx, cy, now);
  }

  lemma AckStep(x: End, y: End, net: set<Datagram>, cx: Cuts, cy: Cuts, d: Datagram, now: int)
    requires Pair(x, y, net, cx, cy) && d in All(x, y, net) && From(d, x.arq.rxSalt)
    ensures Pair(x.(arq := ProcessAck(x.arq, d.body.ack, now)), y, net, cx, cy)
    ensures ProcessAck(x.arq, d.body.ack, now).SndUna() == Max(x.arq.SndUna(), d.body.ack)
    ensures ProcessAck(x.arq, d.body.ack, now).rcvNxt == x.arq.rcvNxt
  {
    AckKeeps(x.arq, x.app, cx, d.body.ack, now);
    SenderKeeps(x, x.(arq := ProcessAck(x.arq, d.body.ack, now)), y, net, cx, cx, cy);
  }

  lemma RecvStep(x: End, y: End, net: set<Datagram>, cx: Cuts, cy: Cuts, d: Datagram, now: int)
    returns (cx': Cuts)
    requires Pair(x, y, net, cx, cy) && Receivable(net, d)
    ensures Pair(x.(arq := OnPacket(x.arq, d, now)), y, net, cx', cy)
    ensures From(d, x.arq.rxSalt) ==> OnPacket(x.arq, d, now).SndUna() == Max(x.arq.SndUna(), d.body.ack)
    ensures From(d, x.arq.rxSalt) && d.body.Data? && d.body.off <= x.arq.rcvNxt ==>
              d.body.off + |d.body.data| <= OnPacket(x.arq, d, now).rcvNxt
  {
    hide Tiling, Chain, Receiving;
    cx' := cx;
    if From(d, x.arq.rxSalt) {
      AckStep(x, y, net, cx, cy, d, now);
      var x1 := x.(arq := ProcessAck(x.arq, d.body.ack, now));
      assert d in All(x, y, net);
      AbsorbKeeps(x1, y, net, cx, cy, d.body);
      cx' := FillStep(x1.(arq := Absorb(x1.arq, d.body)), y, net, cx, cy, now);
    }
  }

  lemma HeadStep(x: End, y: End, net: set<Datagram>, cx: Cuts, cy: Cuts, now: int)
    requires Pair(x, y, net, cx, cy)
    ensures Pair(x.(arq := HeadTimer(x.arq, now)), y, net, cx, cy)
    ensures HeadTimer(x.arq, now).SndUna() == x.arq.SndUna() && HeadTimer(x.arq, now).rcvNxt == x.arq.rcvNxt
  {
    if Expired(x.arq, now) {
      var s := x.arq.(timer := Backoff(x.arq.timer));
      RetransmitKeeps(s, x.app, cx, now);
      SenderKeeps(x, x.(arq := RetransmitFirst(s, now)), y, net, cx, cx, cy);
    }
  }

  lemma TickStep(x: End, y: End, net: set<Datagram>, cx: Cuts, cy: Cuts, now: int) returns (cx': Cuts)
    requires Pair(x, y, net, cx, cy)
    ensures Pair(x.(arq := Arq.Tick(x.arq, now)), y, net, cx', cy)
    ensures Arq.Tick(x.arq, now).SndUna() == x.arq.SndUna() && Arq.Tick(x.arq, now).rcvNxt == x.arq.rcvNxt
  {
    hide Tiling, Chain, Receiving;
    HeadStep(x, y, net, cx, cy, now);
    var x1 := x.(arq := HeadTimer(x.arq, now));
    cx' := FillStep(x1, y, net, cx, cy, now);
    var x2 := x.(arq := FillWindow(x1.arq, now));
    SenderKeeps(x2, x2.(arq := PayAck(x2.arq)), y, net, cx', cx', cy);
  }

  /** Draining a queue or inbox, or putting control packets on the network, changes nothing that matters. */
  lemma QuietStep(x: End, x': End, y: End, net: set<Datagram>, net': set<Datagram>, cx: Cuts, cy: Cuts)
    requires Pair(x, y, net, cx, cy)
    requires x' == x.(arq := x.arq.(outq := x'.arq.outq, inbox := x'.arq.inbox), taken := x'.taken)
    requires x'.Delivered() == x.Delivered()
    requires forall d | d in All(x', y, net') :: d in All(x, y, net) || (d.Sealed? && d.body.Control?)
    ensures Pair(x', y, net', cx, cy)
  {
  }

  lemma StepKeeps(x: End, y: End, net: set<Datagram>, cx: Cuts, cy: Cuts, e: Event) returns (cx': Cuts)
    requires Pair(x, y, net, cx, cy)
    ensures Pair(StepEnd(x, net, e), y, StepNet(x, net, e), cx', cy)
  {
    cx' := cx;
    match e
    case Send(_, data, now) => cx' := SendStep(x, y, net, cx, cy, data, now);
    case Recv(_, d, now) =>
      if Receivable(net, d) { cx' := RecvStep(x, y, net, cx, cy, d, now); }
    case Tick(_, now) => cx' := TickStep(x, y, net, cx, cy, now);
    case Poll(_) =>
      QuietStep(x, StepEnd(x, net, e), y, net, StepNet(x, net, e), cx, cy);
    case Take(_) =>
      var x' := StepEnd(x, net, e);
      assert x'.taken + x'.arq.inbox == x.taken + x.arq.inbox;
      QuietStep(x, x', y, net, net, cx, cy);
  }

  lemma PairSwap(x: End, y: End, net: set<Datagram>, cx: Cuts, cy: Cuts)
    requires Pair(x, y, net, cx, cy)
    ensures Pair(y, x, net, cy, cx)
  {
    assert All(x, y, net) == All(y, x, net);
  }

  lemma StepInv(w: World, e: Event)
    requires Inv(w)
    ensures Inv(Step(w, e))
  {
    var ca: Cuts, cb: Cuts :| Pair(w.a, w.b, w.net, ca, cb);
    if e.side == A {
      var ca' := StepKeeps(w.a, w.b, w.net, ca, cb, e);
    } else {
      PairSwap(w.a, w.b, w.net, ca, cb);
      var cb' := StepKeeps(w.b, w.a, w.net, cb, ca, e);
      var w' := Step(w, e);
      PairSwap(w'.b, w'.a, w'.net, cb', ca);
    }
  }

  lemma {:induction false} RunInv(es: seq<Event>)
    ensures Inv(Run(Start(), es))
  {
    if es == [] {
      assert Pair(Start().a, Start().b, {}, map[], map[]);
    } else {
      RunInv(es[..|es| - 1]);
      StepInv(Run(Start(), es[..|es| - 1]), es[|es| - 1]);
    }
  }
}
