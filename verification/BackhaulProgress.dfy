/**
 Rounds that get through deliver: one after another they bring across everything either backhaul has taken
 in, and acknowledge it, with both ends still up and nothing sent in-band.
 */
module BackhaulProgress {
  import opened Bytes
  import opened Frames
  import Arq
  import Net = ArqNetwork
  import ArqTimers
  import ArqNonces
  import Progress = ArqProgress
  import opened Backhaul
  import opened RevertNetwork
  import opened BackhaulRounds

  // ----- Debts are paid -----

  /** A datagram of this endpoint that acknowledges `ack` or more. */
  predicate Acks(d: Arq.Datagram, salt: nat, ack: nat) { Net.From(d, salt) && d.body.ack >= ack }

  /** The receiver only advances, and an acknowledgement owed stays owed until one is sealed that pays it. */
  ghost predicate Pays(s: Arq.State, s': Arq.State) {
    && s'.txSalt == s.txSalt && s.rcvNxt <= s'.rcvNxt && s.outq <= s'.outq
    && (s.needAck ==> s'.needAck || exists d :: d in s'.outq && Acks(d, s.txSalt, s.rcvNxt))
  }

  lemma PaysOn(s: Arq.State, t: Arq.State, u: Arq.State)
    requires Pays(s, t) && Pays(t, u)
    ensures Pays(s, u)
  {
    if s.needAck && !u.needAck {
      if t.needAck {
        var d :| d in u.outq && Acks(d, t.txSalt, t.rcvNxt);
        assert Acks(d, s.txSalt, s.rcvNxt);
      } else {
        var d :| d in t.outq && Acks(d, s.txSalt, s.rcvNxt);
        assert d in u.outq;
      }
    }
  }

  lemma {:induction false} FillPays(s: Arq.State, now: int)
    ensures Pays(s, Arq.FillWindow(s, now))
    decreases |s.pending|
  {
    if s.CanFill() {
      FillPays(Arq.FillOne(s, now), now);
      OnePays(s, now);
      hide Pays, Arq.FillOne;
      PaysOn(s, Arq.FillOne(s, now), Arq.FillWindow(Arq.FillOne(s, now), now));
    }
  }

  lemma OnePays(s: Arq.State, now: int)
    requires s.CanFill()
    ensures Pays(s, Arq.FillOne(s, now))
  {
    var s' := Arq.FillOne(s, now);
    var d := s'.outq[|s.outq|];
    assert d in s'.outq && Acks(d, s.txSalt, s.rcvNxt);
  }

  lemma ResendPays(s: Arq.State, now: int)
    ensures Pays(s, Arq.RetransmitFirst(s, now))
  {
    if s.unacked != [] {
      var s' := Arq.RetransmitFirst(s, now);
      var d := s'.outq[|s.outq|];
      assert d in s'.outq && Acks(d, s.txSalt, s.rcvNxt);
    }
  }

  lemma AckPays(s: Arq.State, ack: nat, now: int)
    ensures Pays(s, Arq.ProcessAck(s, ack, now))
  {
    ArqTimers.DropTimesOnce(s, ack, now);
    var s1 := Arq.DropAcked(s, ack, now);
    hide Arq.DropAcked, ArqTimers.Estimate, ArqTimers.Sampled, ArqTimers.Covered;
    assert Pays(s, s1);
    var s2 := s1.(dupAcks := s1.dupAcks + 1);
    ResendPays(s2, now);
    hide Arq.RetransmitFirst;
  }

  lemma {:induction false} DrainOnward(s: Arq.State)
    ensures Arq.DrainReorder(s).rcvNxt >= s.rcvNxt
    decreases |s.reorder|
  {
    var i := Arq.FirstHit(s.reorder, s.rcvNxt);
    if i < |s.reorder| { DrainOnward(Arq.DrainOne(s, i)); }
  }

  lemma AbsorbPays(s: Arq.State, body: Arq.Body)
    requires !body.Control?
    ensures Pays(s, Arq.Absorb(s, body))
  {
    ArqTimers.AbsorbSender(s, body);
    if body.Data? && body.off <= s.rcvNxt < body.off + |body.data| {
      DrainOnward(Arq.Extend(s, body.data[s.rcvNxt - body.off..]));
    }
    hide Arq.DrainReorder;
  }

  lemma PacketPays(s: Arq.State, d: Arq.Datagram, now: int)
    ensures Pays(s, Arq.OnPacket(s, d, now))
    ensures Net.From(d, s.rxSalt) && d.body.Data? ==>
              var s2 := Arq.Absorb(Arq.ProcessAck(s, d.body.ack, now), d.body);
              s2.needAck && Pays(s2, Arq.OnPacket(s, d, now))
  {
    hide Arq.ProcessAck, Arq.FillWindow, Arq.Deliver, Pays;
    match Arq.Open(s, d)
    case None => SelfPays(s);
    case Some(body) =>
      var s1 := Arq.ProcessAck(s, body.ack, now);
      var s2 := Arq.Absorb(s1, body);
      AckPays(s, body.ack, now);
      AbsorbPays(s1, body);
      FillPays(s2, now);
      PaysOn(s, s1, s2);
      PaysOn(s, s2, Arq.FillWindow(s2, now));
  }

  lemma SelfPays(s: Arq.State)
    ensures Pays(s, s)
  {
  }

  /** A tick pays whatever is owed. */
  lemma TickPays(s: Arq.State, now: int)
    ensures Pays(s, Arq.Tick(s, now)) && !Arq.Tick(s, now).needAck
  {
    var s1 := Arq.HeadTimer(s, now);
    ResendPays(s.(timer := Arq.Backoff(s.timer)), now);
    SelfPays(s);
    assert Pays(s, s1);
    var s2 := Arq.FillWindow(s1, now);
    hide Arq.HeadTimer, Arq.FillWindow;
    FillPays(s1, now);
    PaysOn(s, s1, s2);
    LastPays(s2);
    PaysOn(s, s2, Arq.PayAck(s2));
  }

  lemma LastPays(s: Arq.State)
    ensures Pays(s, Arq.PayAck(s)) && !Arq.PayAck(s).needAck
  {
    var s' := Arq.PayAck(s);
    if s.needAck {
      var d := s'.outq[|s.outq|];
      assert d in s'.outq && Acks(d, s.txSalt, s.rcvNxt);
    }
  }

  // ----- One event -----

  /** Both ends are up, and nothing but the backhauls carries frames. */
  ghost predicate Linked(codec: Codec, x: State, subX: seq<Frame>, y: State, subY: seq<Frame>) {
    && Joint(codec, x, subX, 0, y, subY, 0)
    && x.phase == Up && y.phase == Up && x.arq.outq == [] && y.arq.outq == []
  }

  lemma LinkedSwap(codec: Codec, x: State, subX: seq<Frame>, y: State, subY: seq<Frame>)
    requires Linked(codec, x, subX, y, subY)
    ensures Linked(codec, y, subY, x, subX)
  {
    hide Joint;
    JointSwap(codec, x, subX, 0, y, subY, 0);
  }

  /** What `Net.Pair` says of the salts and of how far each end is. */
  lemma LinkedSalts(codec: Codec, x: State, subX: seq<Frame>, y: State, subY: seq<Frame>)
    requires Linked(codec, x, subX, y, subY)
    ensures y.arq.rxSalt == x.arq.txSalt && x.arq.rxSalt == y.arq.txSalt && x.arq.SndUna() <= y.arq.rcvNxt
  {
    var cx: Net.Cuts, cy: Net.Cuts :| Pair(codec, x, y, cx, cy);
    hide Net.Tiling, Net.Chain, Net.Receiving, Compressed, Link;
  }

  lemma LinkedCuts(codec: Codec, x: State, subX: seq<Frame>, y: State, subY: seq<Frame>)
    returns (cx: Net.Cuts, cy: Net.Cuts)
    requires Linked(codec, x, subX, y, subY)
    ensures Net.Pair(ArqEnd(codec, x), ArqEnd(codec, y), Network(x, y), cx, cy)
  {
    hide Net.Pair, Link;
    cx, cy :| Pair(codec, x, y, cx, cy);
  }

  lemma UpLinked(codec: Codec, x: State, subX: seq<Frame>, y: State, subY: seq<Frame>)
    requires Linked(codec, x, subX, y, subY)
    ensures x.phase == Up && y.phase == Up && x.arq.outq == [] && y.arq.outq == []
  {
    hide Joint;
  }

  lemma LinkedStep(codec: Codec, x: State, subX: seq<Frame>, y: State, subY: seq<Frame>, e: Event)
    requires StreamingCodec(codec) && Linked(codec, x, subX, y, subY) && !e.Submit?
    requires var x' := StepOne(codec, x, y, e); x'.phase == Up && x'.arq.outq == []
    ensures Linked(codec, StepOne(codec, x, y, e), subX, y, subY)
  {
    hide Joint, StepOne, StreamingCodec;
    StepJoint(codec, x, subX, 0, y, subY, 0, e);
  }

  /** A timer on a live path: the link holds, and neither end is further than it was. */
  lemma TickLinked(codec: Codec, x: State, subX: seq<Frame>, y: State, subY: seq<Frame>, now: int)
    requires StreamingCodec(codec) && Linked(codec, x, subX, y, subY) && Alive(x, now)
    ensures var x' := StepOne(codec, x, y, Timer(A, now));
            && Linked(codec, x', subX, y, subY)
            && x'.arq.SndUna() == x.arq.SndUna() && x'.arq.rcvNxt == x.arq.rcvNxt
  {
    hide Linked, Net.Pair, StepOne, Arq.Tick, StreamingCodec;
    TickStep(codec, x, y, now);
    LinkedStep(codec, x, subX, y, subY, Timer(A, now));
    var cx, cy := LinkedCuts(codec, x, subX, y, subY);
    var _ := Net.TickStep(ArqEnd(codec, x), ArqEnd(codec, y), Network(x, y), cx, cy, now);
  }

  lemma TickStep(codec: Codec, x: State, y: State, now: int)
    requires Alive(x, now)
    ensures var x' := StepOne(codec, x, y, Timer(A, now));
            && x'.phase == Up && x'.arq.outq == [] && x'.arq == Arq.Tick(x.arq, now).(outq := [], inbox := [])
  {
    TickShape(codec, x, now);
    hide Tick, Arq.Tick;
  }

  lemma NotOpened(s: Arq.State, d: Arq.Datagram, now: int)
    requires !Net.From(d, s.rxSalt)
    ensures Arq.OnPacket(s, d, now) == s
  {
  }

  /** What a datagram says counts. */
  lemma PacketCounts(codec: Codec, x: State, subX: seq<Frame>, y: State, subY: seq<Frame>, d: Arq.Datagram, now: int)
    requires Linked(codec, x, subX, y, subY) && d in y.wire
    ensures var q := Arq.OnPacket(x.arq, d, now);
            && q.SndUna() >= x.arq.SndUna() && q.rcvNxt >= x.arq.rcvNxt
            && (Net.From(d, x.arq.rxSalt) ==> q.SndUna() >= d.body.ack)
            && (Net.From(d, x.arq.rxSalt) && d.body.Data? && d.body.off <= x.arq.rcvNxt ==>
                  d.body.off + |d.body.data| <= q.rcvNxt)
  {
    PacketOnward(x.arq, d, now);
    hide Linked, Net.Pair, Arq.OnPacket, Compressed;
    assert d in Network(x, y);
    var cx, cy := LinkedCuts(codec, x, subX, y, subY);
    var _ := Net.RecvStep(ArqEnd(codec, x), ArqEnd(codec, y), Network(x, y), cx, cy, d, now);
    if !Net.From(d, x.arq.rxSalt) { NotOpened(x.arq, d, now); }
  }

  lemma PacketOnward(s: Arq.State, d: Arq.Datagram, now: int)
    ensures Arq.OnPacket(s, d, now).rcvNxt >= s.rcvNxt
  {
    PacketPays(s, d, now);
    hide Arq.OnPacket, Arq.Absorb, Arq.ProcessAck;
  }

  /** A datagram: the link holds, and acknowledgement and data count. */
  lemma HearLinked(codec: Codec, x: State, subX: seq<Frame>, y: State, subY: seq<Frame>, d: Arq.Datagram, now: int)
    requires StreamingCodec(codec) && Linked(codec, x, subX, y, subY) && d in y.wire
    ensures var x' := StepOne(codec, x, y, Datagram(A, d, now));
            && Linked(codec, x', subX, y, subY)
            && x'.arq.SndUna() >= x.arq.SndUna() && x'.arq.rcvNxt >= x.arq.rcvNxt
            && (Net.From(d, x.arq.rxSalt) ==> x'.arq.SndUna() >= d.body.ack)
            && (Net.From(d, x.arq.rxSalt) && d.body.Data? && d.body.off <= x.arq.rcvNxt ==>
                  d.body.off + |d.body.data| <= x'.arq.rcvNxt)
  {
    hide Linked, StepOne, Arq.OnPacket, StreamingCodec;
    UpLinked(codec, x, subX, y, subY);
    HearShape(codec, x, y, d, now);
    LinkedStep(codec, x, subX, y, subY, Datagram(A, d, now));
    PacketCounts(codec, x, subX, y, subY, d, now);
  }

  /** This end has gone past `una`, and has said so since its socket had seen `from` datagrams, or owes it. */
  ghost predicate Acking(s: State, una: nat, from: nat) {
    && s.arq.rcvNxt > una && from <= |s.wire|
    && (s.arq.needAck || exists d :: d in s.wire[from..] && Acks(d, s.arq.txSalt, una + 1))
  }

  /** What the `Arq` queued has been written out. */
  lemma WrittenAcking(s: State, s': State, q: Arq.State, more: seq<Arq.Datagram>, una: nat, from: nat)
    requires Acking(s, una, from) && s.arq.outq == [] && Pays(s.arq, q)
    requires s'.arq == q.(outq := [], inbox := []) && s'.wire == s.wire + more + q.outq
    ensures Acking(s', una, from)
  {
    assert s'.wire[from..] == s.wire[from..] + more + q.outq;
    if s.arq.needAck {
      if !q.needAck {
        var d :| d in q.outq && Acks(d, s.arq.txSalt, s.arq.rcvNxt);
        assert d in s'.wire[from..] && Acks(d, s'.arq.txSalt, una + 1);
      }
    } else {
      var d :| d in s.wire[from..] && Acks(d, s.arq.txSalt, una + 1);
      assert d in s'.wire[from..];
    }
  }

  lemma TickAcking(codec: Codec, s: State, y: State, now: int, una: nat, from: nat)
    requires Acking(s, una, from) && s.arq.outq == [] && Alive(s, now)
    ensures var s' := StepOne(codec, s, y, Timer(A, now));
            from <= |s'.wire| && exists d :: d in s'.wire[from..] && Acks(d, s'.arq.txSalt, una + 1)
  {
    TickShape(codec, s, now);
    TickPays(s.arq, now);
    var s', q := StepOne(codec, s, y, Timer(A, now)), Arq.Tick(s.arq, now);
    var more := if now >= s.nextHb then [Arq.Sealed(s.arq.txSalt, s.ctlSeq, Arq.Control(CTL_PING))] else [];
    hide Arq.Tick, Tick, Pays;
    WrittenAcking(s, s', q, more, una, from);
  }

  lemma HearAcking(codec: Codec, x: State, y: State, d: Arq.Datagram, now: int, una: nat, from: nat)
    requires Acking(x, una, from) && x.arq.outq == [] && x.phase == Up && d in y.wire
    ensures Acking(StepOne(codec, x, y, Datagram(A, d, now)), una, from)
  {
    HearShape(codec, x, y, d, now);
    PacketPays(x.arq, d, now);
    var q := Arq.OnPacket(x.arq, d, now);
    hide Arq.OnPacket, StepOne, Pays, Arq.ProcessAck, Arq.Absorb;
    assert x.wire + [] == x.wire;
    WrittenAcking(x, StepOne(codec, x, y, Datagram(A, d, now)), q, [], una, from);
  }

  /** The segment that starts at `una`. */
  predicate Heads(d: Arq.Datagram, salt: nat, una: nat) {
    Net.From(d, salt) && d.body.Data? && d.body.off == una && |d.body.data| > 0
  }

  /** Once that segment has come, the end has gone past it and acknowledges it. */
  lemma HeadAcking(codec: Codec, x: State, subX: seq<Frame>, y: State, subY: seq<Frame>, d: Arq.Datagram, now: int,
                   una: nat)
    requires StreamingCodec(codec) && Linked(codec, x, subX, y, subY) && d in y.wire
    requires Heads(d, x.arq.rxSalt, una) && una <= x.arq.rcvNxt
    ensures Acking(StepOne(codec, x, y, Datagram(A, d, now)), una, |x.wire|)
  {
    HearLinked(codec, x, subX, y, subY, d, now);
    HearShape(codec, x, y, d, now);
    PacketPays(x.arq, d, now);
    var x', q := StepOne(codec, x, y, Datagram(A, d, now)), Arq.OnPacket(x.arq, d, now);
    var s2 := Arq.Absorb(Arq.ProcessAck(x.arq, d.body.ack, now), d.body);
    hide Arq.OnPacket, StepOne, Arq.ProcessAck, Arq.Absorb, Linked, StreamingCodec;
    assert x'.wire[|x.wire|..] == q.outq;
    if !q.needAck {
      var e :| e in q.outq && Acks(e, s2.txSalt, s2.rcvNxt);
      HeadPassed(x.arq, d, now);
      assert e in x'.wire[|x.wire|..] && Acks(e, x'.arq.txSalt, una + 1);
    }
  }

  lemma HeadPassed(s: Arq.State, d: Arq.Datagram, now: int)
    requires Net.From(d, s.rxSalt) && d.body.Data? && d.body.off <= s.rcvNxt && |d.body.data| > 0
    ensures Arq.Absorb(Arq.ProcessAck(s, d.body.ack, now), d.body).rcvNxt > d.body.off
  {
    var s1 := Arq.ProcessAck(s, d.body.ack, now);
    AckPays(s, d.body.ack, now);
    hide Arq.ProcessAck;
    if d.body.off + |d.body.data| > s1.rcvNxt && d.body.off <= s1.rcvNxt {
      DrainOnward(Arq.Extend(s1, d.body.data[s1.rcvNxt - d.body.off..]));
    }
    hide Arq.DrainReorder;
  }

  // ----- Everything written, delivered -----

  ghost predicate SomeHead(ds: seq<Arq.Datagram>, salt: nat, una: nat) { exists d :: d in ds && Heads(d, salt, una) }

  /** Everything these datagrams acknowledge lies before `una`. */
  predicate AckedBy(ds: seq<Arq.Datagram>, salt: nat, una: nat) {
    forall d | d in ds && Net.From(d, salt) :: d.body.ack <= una
  }

  lemma AckedNext(init: seq<Arq.Datagram>, d: Arq.Datagram, salt: nat, una: nat, una': nat)
    requires AckedBy(init, salt, una) && una <= una' && (Net.From(d, salt) ==> d.body.ack <= una')
    ensures AckedBy(init + [d], salt, una')
  {
  }

  lemma {:induction false} HearsLinked(codec: Codec, x: State, subX: seq<Frame>, y: State, subY: seq<Frame>,
                                       ds: seq<Arq.Datagram>, now: int)
    requires StreamingCodec(codec) && Linked(codec, x, subX, y, subY) && forall d | d in ds :: d in y.wire
    ensures var x' := Hears(codec, x, y, ds, now);
            && Linked(codec, x', subX, y, subY)
            && x'.arq.SndUna() >= x.arq.SndUna() && x'.arq.rcvNxt >= x.arq.rcvNxt && x'.arq.rxSalt == x.arq.rxSalt
            && AckedBy(ds, x.arq.rxSalt, x'.arq.SndUna())
  {
    hide StepOne, Linked, StreamingCodec, Net.From;
    LinkedSalts(codec, x, subX, y, subY);
    if ds != [] {
      var init, d := ds[..|ds| - 1], ds[|ds| - 1];
      assert ds == init + [d];
      HearsLinked(codec, x, subX, y, subY, init, now);
      hide AckedBy;
      var x1 := Hears(codec, x, y, init, now);
      var x' := StepOne(codec, x1, y, Datagram(A, d, now));
      LinkedSalts(codec, x1, subX, y, subY);
      HearLinked(codec, x1, subX, y, subY, d, now);
      LinkedSalts(codec, x', subX, y, subY);
      AckedNext(init, d, x.arq.rxSalt, x1.arq.SndUna(), x'.arq.SndUna());
    }
  }

  /** If the head of the peer's stream is among what comes, this end has gone past it and acknowledges it. */
  lemma {:induction false} HearsAcking(codec: Codec, x: State, subX: seq<Frame>, y: State, subY: seq<Frame>,
                                       ds: seq<Arq.Datagram>, now: int, una: nat)
    requires StreamingCodec(codec) && Linked(codec, x, subX, y, subY) && forall d | d in ds :: d in y.wire
    requires una <= x.arq.rcvNxt && SomeHead(ds, x.arq.rxSalt, una)
    ensures Acking(Hears(codec, x, y, ds, now), una, |x.wire|)
  {
    hide StepOne, Linked, StreamingCodec, Heads, Acking, AckedBy;
    var init, d := ds[..|ds| - 1], ds[|ds| - 1];
    assert ds == init + [d];
    HearsLinked(codec, x, subX, y, subY, init, now);
    UpLinked(codec, x, subX, y, subY);
    HearsShape(codec, x, y, init, now);
    var x1 := Hears(codec, x, y, init, now);
    UpLinked(codec, x1, subX, y, subY);
    if SomeHead(init, x.arq.rxSalt, una) {
      HearsAcking(codec, x, subX, y, subY, init, now, una);
      HearAcking(codec, x1, y, d, now, una, |x.wire|);
    } else {
      assert Heads(d, x.arq.rxSalt, una) by { LastHead(init, d, x.arq.rxSalt, una); }
      HeadAcking(codec, x1, subX, y, subY, d, now, una);
      AckingSooner(StepOne(codec, x1, y, Datagram(A, d, now)), una, |x1.wire|, |x.wire|);
    }
  }

  lemma LastHead(init: seq<Arq.Datagram>, d: Arq.Datagram, salt: nat, una: nat)
    requires SomeHead(init + [d], salt, una) && !SomeHead(init, salt, una)
    ensures Heads(d, salt, una)
  {
    hide Heads;
    var e :| e in init + [d] && Heads(e, salt, una);
    assert e in init || e == d;
  }

  lemma AckingSooner(s: State, una: nat, from: nat, sooner: nat)
    requires Acking(s, una, from) && sooner <= from
    ensures Acking(s, una, sooner)
  {
    if !s.arq.needAck {
      var d :| d in s.wire[from..] && Acks(d, s.arq.txSalt, una + 1);
      var i :| 0 <= i < |s.wire[from..]| && s.wire[from..][i] == d;
      var later := s.wire[sooner..];
      assert later[from - sooner + i] == s.wire[from + i] == d;
      assert d in later;
    }
  }

  // ----- One round -----

  /** The stream this end's frames have been compressed to. */
  function Stream(codec: Codec, s: State): seq<Byte> { Compressed(codec, s.chunks) }

  /** Bytes of it not yet known to have arrived. */
  function Unfinished(codec: Codec, s: State): int { |Stream(codec, s)| - s.arq.SndUna() }

  lemma NewHas(before: State, after: State, more: seq<Arq.Datagram>, q: seq<Arq.Datagram>)
    requires after.wire == before.wire + more + q
    ensures New(before, after) == more + q && forall d | d in q :: d in New(before, after)
  {
    assert after.wire[|before.wire|..] == more + q;
  }

  lemma LaunchedHead(x: Net.End, y: Net.End, net: set<Arq.Datagram>, cx: Net.Cuts, cy: Net.Cuts, now: int)
    requires Net.Pair(x, y, net, cx, cy) && x.arq.outq == [] && Progress.Due(x.arq, now) && x.arq.SndUna() < |x.app|
    ensures var q := Arq.Tick(x.arq, now).outq;
            q != [] && Heads(q[0], x.arq.txSalt, x.arq.SndUna())
  {
    hide Net.Tiling, Net.Chain, Net.Receiving, Progress.Due, Arq.Tick;
    Progress.HeadGoesFirst(x.arq, x.app, cx, now);
  }

  /** The oldest unacknowledged segment, or the first of what is pending, is written when it is due. */
  lemma TickLaunches(codec: Codec, x: State, subX: seq<Frame>, y: State, subY: seq<Frame>, now: int)
    requires Linked(codec, x, subX, y, subY) && Alive(x, now)
    requires Progress.Due(x.arq, now) && Unfinished(codec, x) > 0
    ensures var x' := StepOne(codec, x, y, Timer(A, now)); SomeHead(New(x, x'), x.arq.txSalt, x.arq.SndUna())
  {
    hide Joint, Net.Pair, Tick, Arq.Tick, Progress.Due, Heads, New;
    TickShape(codec, x, now);
    var x', q := StepOne(codec, x, y, Timer(A, now)), Arq.Tick(x.arq, now);
    var cx, cy := LinkedCuts(codec, x, subX, y, subY);
    LaunchedHead(ArqEnd(codec, x), ArqEnd(codec, y), Network(x, y), cx, cy, now);
    NewHas(x, x', if now >= x.nextHb then [Arq.Sealed(x.arq.txSalt, x.ctlSeq, Arq.Control(CTL_PING))] else [], q.outq);
    assert q.outq[0] in New(x, x');
  }

  // ----- The clock -----

  lemma DueAfter(s: Arq.State, clock: int, now: int)
    requires ArqTimers.Timely(s, clock) && now >= clock + Arq.RTO_MAX
    ensures Progress.Due(s, now)
  {
  }

  lemma Later(s: Arq.State, clock: int, now: int)
    requires ArqTimers.Timely(s, clock) && clock <= now
    ensures ArqTimers.Timely(s, now)
  {
  }

  lemma TickTimely(codec: Codec, x: State, y: State, now: int)
    requires ArqTimers.Timely(x.arq, now) && Alive(x, now)
    ensures ArqTimers.Timely(StepOne(codec, x, y, Timer(A, now)).arq, now)
  {
    TickShape(codec, x, now);
    ArqTimers.EndTimely(Net.End(x.arq, [], []), {}, Net.Tick(Net.A, now), now);
    hide Arq.Tick, Tick;
  }

  lemma HearTimely(codec: Codec, x: State, y: State, d: Arq.Datagram, now: int)
    requires ArqTimers.Timely(x.arq, now) && x.phase == Up && d in y.wire
    ensures ArqTimers.Timely(StepOne(codec, x, y, Datagram(A, d, now)).arq, now)
  {
    HearShape(codec, x, y, d, now);
    ArqTimers.EndTimely(Net.End(x.arq, [], []), {d}, Net.Recv(Net.A, d, now), now);
    hide Arq.OnPacket, StepOne;
  }

  lemma {:induction false} HearsTimely(codec: Codec, x: State, y: State, ds: seq<Arq.Datagram>, now: int)
    requires ArqTimers.Timely(x.arq, now) && x.phase == Up && forall d | d in ds :: d in y.wire
    ensures ArqTimers.Timely(Hears(codec, x, y, ds, now).arq, now)
  {
    if ds != [] {
      var init := ds[..|ds| - 1];
      HearsTimely(codec, x, y, init, now);
      HearsShape(codec, x, y, init, now);
      hide StepOne, ArqTimers.Timely;
      HearTimely(codec, Hears(codec, x, y, init, now), y, ds[|ds| - 1], now);
    }
  }

  ghost predicate BothTimely(w: Duo, clock: int) {
    ArqTimers.Timely(w.x.arq, clock) && ArqTimers.Timely(w.y.arq, clock)
  }

  lemma RoundTimely(codec: Codec, w: Duo, clock: int, now: int)
    requires BothTimely(w, clock) && clock <= now && Ready(w, now)
    ensures BothTimely(Round(codec, w, now), now)
  {
    RoundShape(codec, w, now);
    Later(w.x.arq, clock, now);
    Later(w.y.arq, clock, now);
    hide StepOne, ArqTimers.Timely, Hears, New;
    var x1 := StepOne(codec, w.x, w.y, Timer(A, now));
    TickTimely(codec, w.x, w.y, now);
    NewIn(w.x, x1);
    var y1 := Hears(codec, w.y, x1, New(w.x, x1), now);
    HearsTimely(codec, w.y, x1, New(w.x, x1), now);
    TickTimely(codec, y1, x1, now);
    TimerSides(codec, y1, x1, now);
    var y2 := StepOne(codec, y1, x1, Timer(B, now));
    NewIn(w.y, y2);
    HearsTimely(codec, x1, y2, New(w.y, y2), now);
  }

  /** Which side a timer names is no matter to the end it fires at. */
  lemma TimerSides(codec: Codec, x: State, y: State, now: int)
    ensures StepOne(codec, x, y, Timer(B, now)) == StepOne(codec, x, y, Timer(A, now))
  {
  }

  // ----- One round -----

  ghost predicate LinkedDuo(codec: Codec, w: Duo, subX: seq<Frame>, subY: seq<Frame>) {
    Linked(codec, w.x, subX, w.y, subY)
  }

  /** The far half of a round: what comes back says that the segment at `una` has come. */
  lemma BackAcks(codec: Codec, y: State, y1: State, x1: State, now: int, una: nat)
    requires Acking(y1, una, |y.wire|) && y1.arq.outq == [] && Alive(y1, now) && y.wire <= y1.wire
    ensures var y2 := StepOne(codec, y1, x1, Timer(B, now));
            exists d :: d in New(y, y2) && Acks(d, y2.arq.txSalt, una + 1)
  {
    TimerSides(codec, y1, x1, now);
    TickAcking(codec, y1, x1, now, una, |y.wire|);
    hide StepOne, Acks;
    var y2 := StepOne(codec, y1, x1, Timer(B, now));
    var d :| d in y2.wire[|y.wire|..] && Acks(d, y2.arq.txSalt, una + 1);
    assert New(y, y2) == y2.wire[|y.wire|..];
  }

  /**
   A round keeps the link and loses nothing; and if the leading end's oldest segment was due, its stream is
   further acknowledged than before.
   */
  lemma RoundAdvances(codec: Codec, w: Duo, subX: seq<Frame>, subY: seq<Frame>, now: int)
    requires StreamingCodec(codec) && LinkedDuo(codec, w, subX, subY) && Ready(w, now)
    ensures var w' := Round(codec, w, now);
            && LinkedDuo(codec, w', subX, subY)
            && w'.x.arq.SndUna() >= w.x.arq.SndUna() && w'.y.arq.SndUna() >= w.y.arq.SndUna()
            && (Progress.Due(w.x.arq, now) && Unfinished(codec, w.x) > 0 ==> w'.x.arq.SndUna() > w.x.arq.SndUna())
  {
    RoundShape(codec, w, now);
    hide StepOne, Hears, Linked, New, StreamingCodec, Progress.Due, Unfinished, Acking;
    var x1 := StepOne(codec, w.x, w.y, Timer(A, now));
    var out := New(w.x, x1);
    NewIn(w.x, x1);
    TickLinked(codec, w.x, subX, w.y, subY, now);
    LinkedSalts(codec, w.x, subX, w.y, subY);
    LinkedSwap(codec, x1, subX, w.y, subY);
    HearsLinked(codec, w.y, subY, x1, subX, out, now);
    var y1 := Hears(codec, w.y, x1, out, now);
    TickLinked(codec, y1, subY, x1, subX, now);
    TimerSides(codec, y1, x1, now);
    var y2 := StepOne(codec, y1, x1, Timer(B, now));
    LinkedSwap(codec, y2, subY, x1, subX);
    LinkedSalts(codec, x1, subX, y2, subY);
    var back := New(w.y, y2);
    NewIn(w.y, y2);
    HearsLinked(codec, x1, subX, y2, subY, back, now);
    if Progress.Due(w.x.arq, now) && Unfinished(codec, w.x) > 0 {
      var una := w.x.arq.SndUna();
      TickLaunches(codec, w.x, subX, w.y, subY, now);
      HearsAcking(codec, w.y, subY, x1, subX, out, now, una);
      UpLinked(codec, y1, subY, x1, subX);
      BackAcks(codec, w.y, y1, x1, now, una);
      var d :| d in back && Acks(d, y2.arq.txSalt, una + 1);
    }
  }

  // ----- What has been acknowledged is forgotten -----

  /** No frame is remembered that ends within what the peer has acknowledged. */
  predicate Swept(s: State) { s.sent == [] || s.sent[0].end > s.arq.SndUna() }

  /** `s'` is `s` without the longest beginning of its queue that is acknowledged, which is counted. */
  ghost predicate PrunedTo(s: State, s': State) {
    var k := s'.txBase - s.txBase;
    && 0 <= k <= |s.sent| && s'.sent == s.sent[k..] && s'.arq == s.arq && Swept(s')
    && forall i | 0 <= i < k :: s.sent[i].end <= s.arq.SndUna()
  }

  lemma PrunedMore(s: State, s': State)
    requires s.sent != [] && s.sent[0].end <= s.arq.SndUna()
    requires PrunedTo(s.(sent := s.sent[1..], txBase := s.txBase + 1), s')
    ensures PrunedTo(s, s')
  {
    var k := s'.txBase - s.txBase;
    assert s.sent[1..][k - 1..] == s.sent[k..];
    forall i | 0 <= i < k
      ensures s.sent[i].end <= s.arq.SndUna()
    {
      if i > 0 { assert s.sent[i] == s.sent[1..][i - 1]; }
    }
  }

  lemma PrunedNone(s: State)
    requires Swept(s)
    ensures PrunedTo(s, s)
  {
  }

  lemma {:induction false} PruneSweeps(s: State)
    ensures PrunedTo(s, Prune(s)) && Swept(Prune(s))
    decreases |s.sent|
  {
    if s.sent != [] && s.sent[0].end <= s.arq.SndUna() {
      var s1 := s.(sent := s.sent[1..], txBase := s.txBase + 1);
      PruneSweeps(s1);
      PrunedMore(s, Prune(s1));
    } else {
      PrunedNone(s);
    }
    hide PrunedTo, Swept;
  }

  /** A revert begins with all in the queue that is not acknowledged, and nothing that is. */
  lemma RevertSweeps(s: State)
    requires s.phase == Up
    ensures var s' := BeginRevert(s);
            PrunedTo(s, s') && s'.phase == Reverting && s'.inband == s.inband + [UpRx(s.rxFrames)]
  {
    PruneSweeps(s.(phase := Reverting));
    PruneShape(s.(phase := Reverting));
    hide Prune, UpRx;
  }

  lemma SettleSweeps(codec: Codec, s: State)
    ensures Swept(Settle(codec, s))
  {
    PruneSweeps(Flush(s));
    PruneShape(Flush(s));
    DeliverFrame(codec, Prune(Flush(s)));
    hide Prune, Deliver;
  }

  lemma {:induction false} HearsSweeps(codec: Codec, x: State, y: State, ds: seq<Arq.Datagram>, now: int)
    requires Swept(x) && x.phase == Up && forall d | d in ds :: d in y.wire
    ensures Swept(Hears(codec, x, y, ds, now))
  {
    if ds != [] {
      var init, d := ds[..|ds| - 1], ds[|ds| - 1];
      HearsSweeps(codec, x, y, init, now);
      HearsShape(codec, x, y, init, now);
      var x1 := Hears(codec, x, y, init, now);
      SettleSweeps(codec, x1.(lastRx := now, arq := Arq.OnPacket(x1.arq, d, now)));
      hide Settle, Swept, Arq.OnPacket;
    }
  }

  lemma TickSweeps(codec: Codec, x: State, y: State, now: int)
    requires Alive(x, now)
    ensures Swept(StepOne(codec, x, y, Timer(A, now)))
  {
    var s1 := Heartbeat(x, now);
    SettleSweeps(codec, s1.(arq := Arq.Tick(s1.arq, now)));
    hide Settle, Swept, Arq.Tick;
  }

  lemma RoundSweeps(codec: Codec, w: Duo, now: int)
    requires Ready(w, now)
    ensures Swept(Round(codec, w, now).x) && Swept(Round(codec, w, now).y)
  {
    RoundShape(codec, w, now);
    hide StepOne, Hears, Swept, New;
    var x1 := StepOne(codec, w.x, w.y, Timer(A, now));
    TickSweeps(codec, w.x, w.y, now);
    var y1 := Hears(codec, w.y, x1, New(w.x, x1), now);
    TickSweeps(codec, y1, x1, now);
    TimerSides(codec, y1, x1, now);
    var y2 := StepOne(codec, y1, x1, Timer(B, now));
    NewIn(w.y, y2);
    HearsSweeps(codec, x1, y2, New(w.y, y2), now);
  }

  // ----- Rounds -----

  /** Each round that finds anything unfinished at the leading end finishes some of it. */
  lemma {:induction false} RoundsAdvance(codec: Codec, w: Duo, subX: seq<Frame>, subY: seq<Frame>, clock: int,
                                         ts: seq<int>)
    requires StreamingCodec(codec) && LinkedDuo(codec, w, subX, subY) && BothTimely(w, clock)
    requires Paced(clock, ts, Arq.RTO_MAX, DEAD_MS - HB_MS) && (ts != [] ==> Ready(w, ts[0]))
    ensures var w' := Rounds(codec, w, ts);
            && LinkedDuo(codec, w', subX, subY) && BothTimely(w', Last(clock, ts))
            && (ts != [] ==> Awake(w', Last(clock, ts)) && Swept(w'.x) && Swept(w'.y))
            && w'.x.chunks == w.x.chunks && w'.y.chunks == w.y.chunks
            && w'.x.inband == w.x.inband && w'.y.inband == w.y.inband
            && w'.x.arq.SndUna() >= w.x.arq.SndUna() && w'.y.arq.SndUna() >= w.y.arq.SndUna()
            && (Unfinished(codec, w'.x) <= 0 || Unfinished(codec, w'.x) + |ts| <= Unfinished(codec, w.x))
  {
    hide Round, Ready, Awake, LinkedDuo, BothTimely, StreamingCodec, Compressed, Progress.Due, Swept;
    if ts != [] {
      var init, now := ts[..|ts| - 1], ts[|ts| - 1];
      var w1 := Rounds(codec, w, init);
      RoundsAdvance(codec, w, subX, subY, clock, init);
      if init != [] { AwakeReady(w1, Last(clock, init), now); }
      RoundShape(codec, w1, now);
      RoundSweeps(codec, w1, now);
      RoundTimely(codec, w1, Last(clock, init), now);
      DueOf(w1, Last(clock, init), now);
      RoundAdvances(codec, w1, subX, subY, now);
    }
  }

  lemma DueOf(w: Duo, clock: int, now: int)
    requires BothTimely(w, clock) && now >= clock + Arq.RTO_MAX
    ensures Progress.Due(w.x.arq, now)
  {
    DueAfter(w.x.arq, clock, now);
  }

  // ----- Finished -----

  /** What the link says of a sender that is up and of how many frames its peer has counted. */
  lemma LinkFacts(codec: Codec, x: State, subX: seq<Frame>, y: State)
    requires Link(codec, x, subX, y, 0) && x.phase == Up && y.phase == Up
    ensures AllFit(subX) && x.chunks == WrapEach(subX) && y.arq.inbox == []
    ensures |Parse(codec.inflate(y.fed)).frames| == y.rxFrames <= |subX| && y.got == subX[..y.rxFrames]
  {
    hide UpRx, Compressed, WrapEach, Parse, Ends;
    assert subX[..|x.chunks|] == subX;
    assert subX[..y.rxFrames] + [] == subX[..y.rxFrames];
  }

  /** Nothing unfinished: the peer has been fed the whole stream, and so handed every frame. */
  lemma FinishedHanded(codec: Codec, x: State, subX: seq<Frame>, y: State, subY: seq<Frame>)
    requires StreamingCodec(codec) && Linked(codec, x, subX, y, subY) && Unfinished(codec, x) <= 0
    ensures y.got == subX
  {
    hide StreamingCodec, Linked, Link, Compressed, Parse, WrapEach;
    FinishedFed(codec, x, subX, y, subY);
    LinkOf(codec, x, subX, y, subY);
    LinkFacts(codec, x, subX, y);
    ParsedFrames(codec, subX, |Stream(codec, x)|);
    assert Stream(codec, x)[..|Stream(codec, x)|] == Stream(codec, x) && subX[..|subX|] == subX;
  }

  lemma LinkOf(codec: Codec, x: State, subX: seq<Frame>, y: State, subY: seq<Frame>)
    requires Linked(codec, x, subX, y, subY)
    ensures Link(codec, x, subX, y, 0) && x.phase == Up && y.phase == Up
  {
    hide Pair, Link;
  }

  lemma FinishedFed(codec: Codec, x: State, subX: seq<Frame>, y: State, subY: seq<Frame>)
    requires Linked(codec, x, subX, y, subY) && Unfinished(codec, x) <= 0
    ensures y.fed == Stream(codec, x)
  {
    hide Net.Pair, Compressed, Linked;
    var cx, cy := LinkedCuts(codec, x, subX, y, subY);
    FedIsPrefix(codec, x, y, cx, cy);
    InboxTaken(codec, x, subX, y, subY);
    assert y.fed + [] == y.fed && Stream(codec, x)[..y.arq.rcvNxt] == Stream(codec, x);
  }

  lemma InboxTaken(codec: Codec, x: State, subX: seq<Frame>, y: State, subY: seq<Frame>)
    requires Linked(codec, x, subX, y, subY)
    ensures y.arq.inbox == []
  {
    hide Pair, Parse, Books, Channel;
  }

  /** A remembered frame ends within the stream. */
  lemma EndsWithin(codec: Codec, x: State, subX: seq<Frame>, y: State)
    requires Link(codec, x, subX, y, 0) && x.phase == Up && x.sent != []
    ensures x.sent[0].end <= |Stream(codec, x)|
  {
    hide UpRx, WrapEach, Parse, FramesOf, Compressed;
    if x.txBase < |x.chunks| { CompressedPrefix(codec, x.chunks, x.txBase + 1); }
  }

  lemma FinishedSwept(codec: Codec, x: State, subX: seq<Frame>, y: State, subY: seq<Frame>)
    requires Linked(codec, x, subX, y, subY) && Unfinished(codec, x) <= 0 && Swept(x)
    ensures x.sent == []
  {
    hide Pair, Link, Compressed;
    if x.sent != [] { EndsWithin(codec, x, subX, y); }
  }
}
