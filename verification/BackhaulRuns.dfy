/**
 What every run of two backhauls keeps about their clocks and their sockets; when a silent path is given up;
 and that from any moment at which both are up, datagrams that get through bring everything across.
 */
module BackhaulRuns {
  import opened Bytes
  import opened Text
  import opened Frames
  import Arq
  import Net = ArqNetwork
  import ArqTimers
  import ArqNonces
  import opened Backhaul
  import opened RevertNetwork
  import Apc
  import ApcFrames
  import RevertWire
  import opened BackhaulRounds
  import opened BackhaulProgress

  type Setup = RevertWire.Setup

  type Move = RevertWire.Move

  function At(w: RevertWire.World, side: Side): State { if side == A then w.a.bh else w.b.bh }

  function Other(side: Side): Side { if side == A then B else A }

  // ----- What a move does to a backhaul -----

  lemma RunNext(codec: Codec, i: Setup, ms: seq<Move>)
    requires ms != []
    ensures RevertWire.Run(codec, i, ms)
            == RevertWire.Step(codec, RevertWire.Run(codec, i, ms[..|ms| - 1]), ms[|ms| - 1])
  {
  }

  /** Frames of the terminal stream leave the `Arq`, the socket and the clocks alone. */
  ghost predicate SameSocket(s: State, s': State) {
    s'.arq == s.arq && s'.wire == s.wire && s'.lastRx == s.lastRx && s'.nextHb == s.nextHb && s'.ctlSeq == s.ctlSeq
  }

  lemma BeginSocket(s: State)
    ensures SameSocket(s, BeginRevert(s))
  {
    PruneShape(s.(phase := Reverting));
    hide Prune, UpRx;
  }

  lemma InbandSocket(s: State, f: Frame)
    ensures SameSocket(s, InbandArrives(s, f))
  {
    BeginSocket(s);
    hide BeginRevert, Tail, ParseUpRx;
  }

  lemma {:induction false} DispatchedSocket(s: State, events: seq<Frame>)
    ensures SameSocket(s, RevertWire.Dispatched(s, events))
  {
    if events != [] {
      var init := events[..|events| - 1];
      DispatchedSocket(s, init);
      InbandSocket(RevertWire.Dispatched(s, init), events[|events| - 1]);
      hide InbandArrives;
    }
  }

  // ----- What comes in-band -----

  /** The events that are no revert notice, in order. */
  function Ordinary(events: seq<Frame>): seq<Frame> {
    if events == [] then []
    else
      var f := events[|events| - 1];
      Ordinary(events[..|events| - 1]) + if StartsWith(f, REVERT_VERB) then [] else [f]
  }

  lemma RevertGot(s: State, n: nat)
    ensures PeerRevert(s, n).got == s.got
  {
    PruneShape(s.(phase := Reverting));
    hide Prune, UpRx, Tail;
  }

  /** What is read in-band is handed on in order, but for revert notices, well-formed or not. */
  lemma {:induction false} OrdinaryHandedOn(s: State, events: seq<Frame>)
    ensures RevertWire.Dispatched(s, events).got == s.got + Ordinary(events)
  {
    if events != [] {
      var init, f := events[..|events| - 1], events[|events| - 1];
      OrdinaryHandedOn(s, init);
      var n := ParseUpRx(f);
      if n.Some? { RevertGot(RevertWire.Dispatched(s, init), n.value); }
      hide PeerRevert, StartsWith, ParseUpRx;
    }
  }

  /** A notice whose count is not a number is ignored. */
  lemma NoCountIgnored(s: State, rest: seq<Byte>)
    requires rest == [] || !Digits(rest)
    ensures InbandArrives(s, REVERT_VERB + rest) == s
  {
    assert (REVERT_VERB + rest)[|REVERT_VERB|..] == rest;
    assert (REVERT_VERB + rest)[..|REVERT_VERB|] == REVERT_VERB;
  }

  /** A move of this side is an event of its backhaul, or touches none of that; a move of the other nothing. */
  lemma MoveSocket(codec: Codec, w: RevertWire.World, m: Move, side: Side)
    ensures var s, s' := At(w, side), At(RevertWire.Step(codec, w, m), side);
            if RevertWire.Mover(m) != side then s' == s
            else if m.Does? then s' == StepOne(codec, s, At(w, Other(side)), m.e)
            else SameSocket(s, s')
  {
    hide StepOne, ApcFrames.Envelopes;
    if m.Reads? {
      var x, y := if m.side == A then w.a else w.b, if m.side == A then w.b else w.a;
      if x.pos + m.n <= |y.line| {
        DispatchedSocket(x.bh, Apc.Feed(x.scan, y.line[x.pos..x.pos + m.n]).output.events);
      }
      hide RevertWire.Dispatched, Apc.Feed;
    }
  }

  // ----- When a silent path is given up -----

  /** A datagram reaches this side's backhaul while it is up. */
  predicate Reaches(w: RevertWire.World, m: Move, side: Side) {
    && m.Does? && m.e.Datagram? && m.e.side == side && At(w, side).phase == Up
    && Net.Receivable(Network(At(w, side), At(w, Other(side))), m.e.d)
  }

  /** When the last datagram reached this side, or else when its path came up. */
  function LastHeard(codec: Codec, i: Setup, ms: seq<Move>, side: Side): int {
    if ms == [] then if side == A then i.nowA else i.nowB
    else
      var init, m := ms[..|ms| - 1], ms[|ms| - 1];
      if Reaches(RevertWire.Run(codec, i, init), m, side) then m.e.now else LastHeard(codec, i, init, side)
  }

  lemma SettleClock(codec: Codec, s: State)
    ensures Settle(codec, s).lastRx == s.lastRx
  {
    SettleShape(codec, s);
    hide Settle;
  }

  lemma EventClock(codec: Codec, x: State, y: State, e: Event)
    ensures var x' := StepOne(codec, x, y, e);
            x'.lastRx == if e.Datagram? && x.phase == Up && Net.Receivable(Network(x, y), e.d) then e.now else x.lastRx
  {
    BeginSocket(x);
    match e
    case Submit(_, frame, now) => hide Arq.AppSend;
    case Datagram(_, d, now) =>
      SettleClock(codec, x.(lastRx := now, arq := Arq.OnPacket(x.arq, d, now)));
      hide Settle, Arq.OnPacket;
    case Timer(_, now) =>
      var s1 := Heartbeat(x, now);
      SettleClock(codec, s1.(arq := Arq.Tick(s1.arq, now)));
      hide Settle, Arq.Tick, BeginRevert;
    case Down(_) => hide BeginRevert;
  }

  lemma {:induction false} HeardLast(codec: Codec, i: Setup, ms: seq<Move>, side: Side)
    ensures At(RevertWire.Run(codec, i, ms), side).lastRx == LastHeard(codec, i, ms, side)
  {
    if ms != [] {
      var init, m := ms[..|ms| - 1], ms[|ms| - 1];
      var w := RevertWire.Run(codec, i, init);
      HeardLast(codec, i, init, side);
      RunNext(codec, i, ms);
      MoveSocket(codec, w, m, side);
      if m.Does? { EventClock(codec, At(w, side), At(w, Other(side)), m.e); }
      hide RevertWire.Run, RevertWire.Step, StepOne;
    }
  }

  /**
   In every run: a timer gives the path up if and only if nothing has been heard on it for more than twenty
   seconds, and then puts the notice in-band; otherwise it puts nothing in-band.
   */
  lemma SilenceReverts(codec: Codec, i: Setup, ms: seq<Move>, side: Side, now: int)
    requires At(RevertWire.Run(codec, i, ms), side).phase == Up
    ensures var s := At(RevertWire.Run(codec, i, ms), side);
            var s' := At(RevertWire.Run(codec, i, ms + [RevertWire.Does(Timer(side, now))]), side);
            if now - LastHeard(codec, i, ms, side) > DEAD_MS
            then s'.phase == Reverting && s'.inband == s.inband + [UpRx(s.rxFrames)]
            else s'.phase == Up && s'.inband == s.inband
  {
    var m := RevertWire.Does(Timer(side, now));
    var w := RevertWire.Run(codec, i, ms);
    assert (ms + [m])[..|ms|] == ms;
    RunNext(codec, i, ms + [m]);
    HeardLast(codec, i, ms, side);
    MoveSocket(codec, w, m, side);
    var s := At(w, side);
    if now - s.lastRx <= DEAD_MS { TickShape(codec, s, now); } else { PruneShape(s.(phase := Reverting)); }
    hide RevertWire.Run, RevertWire.Step, Prune, Arq.Tick, Settle, UpRx;
  }

  // ----- What goes to the socket -----

  /** The nonces under which data and acknowledgements, or else heartbeats, were sealed, in order. */
  function Nonces(ds: seq<Arq.Datagram>, control: bool): seq<nat> {
    if ds == [] then []
    else
      var d := ds[|ds| - 1];
      Nonces(ds[..|ds| - 1], control) + if d.Sealed? && d.body.Control? == control then [d.nonce] else []
  }

  function Upto(from: nat, to: nat): seq<nat> { if from <= to then seq(to - from, k => from + k) else [] }

  lemma {:induction false} NoncesAppend(a: seq<Arq.Datagram>, b: seq<Arq.Datagram>, control: bool)
    ensures Nonces(a + b, control) == Nonces(a, control) + Nonces(b, control)
    decreases |b|
  {
    if b == [] {
      assert a + b == a;
    } else {
      NoncesAppend(a, b[..|b| - 1], control);
      assert (a + b)[..|a + b| - 1] == a + b[..|b| - 1];
    }
  }

  /** A queue that grew from empty bears the next numbers, and no heartbeats. */
  lemma {:induction false} QueueNonces(q: seq<Arq.Datagram>, from: nat)
    requires forall k | 0 <= k < |q| :: q[k].Sealed? && q[k].nonce == from + k && !q[k].body.Control?
    ensures Nonces(q, false) == Upto(from, from + |q|) && Nonces(q, true) == []
  {
    if q != [] { QueueNonces(q[..|q| - 1], from); }
  }

  /**
   Everything sealed has been written: the queue is empty; data and acknowledgements bear the numbers of the
   `Arq`'s counter from 0 on, heartbeats those of the control counter, each once, in order, under our salt.
   */
  ghost predicate Written(s: State, ctl: nat) {
    && s.arq.outq == [] && ctl <= s.ctlSeq
    && Nonces(s.wire, false) == Upto(0, s.arq.pktSeq) && Nonces(s.wire, true) == Upto(ctl, s.ctlSeq)
    && forall d | d in s.wire :: d.Sealed? && d.salt == s.arq.txSalt
  }

  lemma UptoNext(from: nat, mid: nat, to: nat)
    requires from <= mid <= to
    ensures Upto(from, mid) + Upto(mid, to) == Upto(from, to)
  {
  }

  /** What the `Arq` queued is written. */
  lemma QueueWritten(s: State, s': State, q: Arq.State, ctl: nat)
    requires Written(s, ctl) && ArqNonces.Numbers(s.arq, q)
    requires s'.arq.outq == [] && s'.arq.pktSeq == q.pktSeq && s'.arq.txSalt == q.txSalt
    requires s'.ctlSeq == s.ctlSeq && s'.wire == s.wire + q.outq
    ensures Written(s', ctl)
  {
    NoncesAppend(s.wire, q.outq, false);
    NoncesAppend(s.wire, q.outq, true);
    QueueNonces(q.outq, s.arq.pktSeq);
    UptoNext(0, s.arq.pktSeq, q.pktSeq);
    hide Nonces, Upto;
    assert Nonces(s.wire, true) + [] == Nonces(s.wire, true);
    forall d | d in s'.wire
      ensures d.Sealed? && d.salt == s'.arq.txSalt
    {
      if d !in s.wire { assert d in q.outq; }
    }
  }

  lemma PingWritten(s: State, now: int, ctl: nat)
    requires Written(s, ctl)
    ensures Written(Heartbeat(s, now), ctl) && Heartbeat(s, now).arq == s.arq
  {
    if now >= s.nextHb {
      var d := Arq.Sealed(s.arq.txSalt, s.ctlSeq, Arq.Control(CTL_PING));
      assert (s.wire + [d])[..|s.wire|] == s.wire;
      assert Nonces(s.wire, false) + [] == Nonces(s.wire, false);
      UptoNext(ctl, s.ctlSeq, s.ctlSeq + 1);
      assert Upto(s.ctlSeq, s.ctlSeq + 1) == [s.ctlSeq];
    }
  }

  lemma SameWritten(s: State, s': State, ctl: nat)
    requires Written(s, ctl) && s'.arq == s.arq && s'.wire == s.wire && s'.ctlSeq == s.ctlSeq
    ensures Written(s', ctl)
  {
    hide Nonces, Upto;
  }

  lemma SettleWritten(codec: Codec, s: State, q: Arq.State, lastRx: int, ctl: nat)
    requires Written(s, ctl) && ArqNonces.Numbers(s.arq, q)
    ensures Written(Settle(codec, s.(arq := q, lastRx := lastRx)), ctl)
  {
    SettleShape(codec, s.(arq := q, lastRx := lastRx));
    hide Settle, Written, ArqNonces.Numbers;
    QueueWritten(s, Settle(codec, s.(arq := q, lastRx := lastRx)), q, ctl);
  }

  lemma SubmitWritten(codec: Codec, x: State, frame: Frame, now: int, ctl: nat)
    requires Written(x, ctl)
    ensures Written(SendDown(codec, x, frame, now), ctl)
  {
    if x.phase == Up {
      var comp := codec.deflate(x.chunks, Wrap(frame));
      ArqNonces.FillNumbers(x.arq.(pending := x.arq.pending + comp), now);
      hide Arq.FillWindow, Written, Wrap;
      var q := Arq.AppSend(x.arq, comp, now);
      PendingNumbers(x.arq, comp, q);
      QueueWritten(x, SendDown(codec, x, frame, now), q, ctl);
    } else {
      SameWritten(x, SendDown(codec, x, frame, now), ctl);
    }
  }

  lemma PendingNumbers(s: Arq.State, comp: seq<Byte>, q: Arq.State)
    requires ArqNonces.Numbers(s.(pending := s.pending + comp), q)
    ensures ArqNonces.Numbers(s, q)
  {
  }

  lemma EventWritten(codec: Codec, x: State, y: State, e: Event, ctl: nat)
    requires Written(x, ctl)
    ensures Written(StepOne(codec, x, y, e), ctl)
  {
    hide Written, SendDown, Settle, BeginRevert, Heartbeat, Arq.OnPacket, Arq.Tick, ArqNonces.Numbers;
    BeginSocket(x);
    SameWritten(x, BeginRevert(x), ctl);
    match e
    case Submit(_, frame, now) => SubmitWritten(codec, x, frame, now, ctl);
    case Datagram(_, d, now) =>
      ArqNonces.PacketNumbers(x.arq, d, now);
      SettleWritten(codec, x, Arq.OnPacket(x.arq, d, now), now, ctl);
    case Timer(_, now) =>
      var s1 := Heartbeat(x, now);
      PingWritten(x, now, ctl);
      ArqNonces.TickNumbers(s1.arq, now);
      SettleWritten(codec, s1, Arq.Tick(s1.arq, now), s1.lastRx, ctl);
      assert s1.(arq := Arq.Tick(s1.arq, now), lastRx := s1.lastRx) == s1.(arq := Arq.Tick(s1.arq, now));
    case Down(_) =>
  }

  /**
   In every run, whatever becomes of the path: all the datagrams an end has sealed have gone to its socket,
   data and acknowledgements under the numbers from 0 up to the counter, heartbeats under theirs.
   */
  lemma {:induction false} AllWritten(codec: Codec, i: Setup, ms: seq<Move>, side: Side)
    ensures Written(At(RevertWire.Run(codec, i, ms), side), if side == A then i.ctlA else i.ctlB)
  {
    var ctl := if side == A then i.ctlA else i.ctlB;
    if ms == [] {
      assert Nonces([], false) == [] && Nonces([], true) == [];
    } else {
      var init, m := ms[..|ms| - 1], ms[|ms| - 1];
      var w := RevertWire.Run(codec, i, init);
      AllWritten(codec, i, init, side);
      RunNext(codec, i, ms);
      MoveSocket(codec, w, m, side);
      hide RevertWire.Run, RevertWire.Step, StepOne, Written;
      var s, s' := At(w, side), At(RevertWire.Step(codec, w, m), side);
      if RevertWire.Mover(m) == side {
        if m.Does? { EventWritten(codec, s, At(w, Other(side)), m.e, ctl); } else { SameWritten(s, s', ctl); }
      }
    }
  }

  // ----- The clock -----

  predicate NotAfter(m: Move, clock: int) {
    m.Does? && !m.e.Down? ==> m.e.now <= clock
  }

  /** No stamp lies in the future, and the next heartbeat not beyond its interval. */
  ghost predicate Punctual(s: State, clock: int) {
    ArqTimers.Timely(s.arq, clock) && s.nextHb <= clock + HB_MS
  }

  lemma SamePunctual(s: State, s': State, clock: int)
    requires Punctual(s, clock) && s'.arq == s.arq && s'.nextHb == s.nextHb
    ensures Punctual(s', clock)
  {
  }

  lemma SettlePunctual(codec: Codec, s: State, clock: int)
    requires Punctual(s, clock)
    ensures Punctual(Settle(codec, s), clock)
  {
    SettleShape(codec, s);
    hide Settle;
  }

  lemma EventPunctual(codec: Codec, x: State, y: State, e: Event, clock: int)
    requires Punctual(x, clock) && (!e.Down? ==> e.now <= clock)
    ensures Punctual(StepOne(codec, x, y, e), clock)
  {
    hide Settle, BeginRevert, Arq.OnPacket, Arq.Tick, Wrap, Arq.AppSend;
    BeginSocket(x);
    SamePunctual(x, BeginRevert(x), clock);
    match e
    case Submit(_, frame, now) =>
      var comp := codec.deflate(x.chunks, Wrap(frame));
      ArqTimers.EndTimely(Net.End(x.arq, [], []), {}, Net.Send(Net.A, comp, now), clock);
    case Datagram(_, d, now) =>
      ArqTimers.EndTimely(Net.End(x.arq, [], []), {d}, Net.Recv(Net.A, d, now), clock);
      SettlePunctual(codec, x.(lastRx := now, arq := Arq.OnPacket(x.arq, d, now)), clock);
    case Timer(_, now) =>
      var s1 := Heartbeat(x, now);
      ArqTimers.EndTimely(Net.End(s1.arq, [], []), {}, Net.Tick(Net.A, now), clock);
      SettlePunctual(codec, s1.(arq := Arq.Tick(s1.arq, now)), clock);
    case Down(_) =>
  }

  lemma {:induction false} RunPunctual(codec: Codec, i: Setup, ms: seq<Move>, side: Side, clock: int)
    requires i.nowA <= clock && i.nowB <= clock && forall m | m in ms :: NotAfter(m, clock)
    ensures Punctual(At(RevertWire.Run(codec, i, ms), side), clock)
  {
    if ms != [] {
      var init, m := ms[..|ms| - 1], ms[|ms| - 1];
      var w := RevertWire.Run(codec, i, init);
      assert m in ms && forall k | k in init :: k in ms;
      RunPunctual(codec, i, init, side, clock);
      RunNext(codec, i, ms);
      MoveSocket(codec, w, m, side);
      hide RevertWire.Run, RevertWire.Step, StepOne, Punctual;
      var s, s' := At(w, side), At(RevertWire.Step(codec, w, m), side);
      if RevertWire.Mover(m) == side {
        if m.Does? { EventPunctual(codec, s, At(w, Other(side)), m.e, clock); } else { SamePunctual(s, s', clock); }
      }
    }
  }

  // ----- Everything gets through -----

  /** While both are up, the frames have gone over the backhauls alone. */
  lemma UpIdeal(codec: Codec, w: RevertWire.World)
    requires RevertWire.Inv(codec, w) && w.a.bh.phase == Up && w.b.bh.phase == Up
    ensures Joint(codec, w.a.bh, w.subA, 0, w.b.bh, w.subB, 0) && w.a.bh.inband == [] && w.b.bh.inband == []
  {
    assert !RevertWire.Fell(w.a, w.subA, w.b, w.subB) && !RevertWire.Fell(w.b, w.subB, w.a, w.subA)
      by { hide RevertWire.Tapped, Pruned, RevertWire.Ideal; }
    var a0, b0, readA, readB :| RevertWire.Ideal(codec, w, a0, b0, readA, readB);
    hide Joint;
    UpListening(w.a, a0, w.b, w.subB, readA);
    UpListening(w.b, b0, w.a, w.subA, readB);
    UpJoint(codec, a0, w.subA, readA, b0, w.subB, readB);
    UpTuned(w.a, a0, w.b, w.subB, readA);
    UpTuned(w.b, b0, w.a, w.subA, readB);
  }

  lemma UpListening(x: RevertWire.Station, x0: State, y: RevertWire.Station, subY: seq<Frame>, readX: nat)
    requires RevertWire.Listening(x, x0, y, subY, readX)
    ensures x.bh == x0.(got := x.bh.got)
  {
    hide RevertWire.Tapped, RevertWire.Tuned, RevertWire.Spoilt, RevertWire.Missed;
  }

  lemma UpJoint(codec: Codec, x: State, subX: seq<Frame>, readX: nat, y: State, subY: seq<Frame>, readY: nat)
    requires Joint(codec, x, subX, readX, y, subY, readY) && x.phase == Up && y.phase == Up
    ensures x.inband == [] && y.inband == [] && readX == 0 && readY == 0
  {
    hide Pair, Books, Intake, UpRx;
  }

  lemma UpTuned(x: RevertWire.Station, x0: State, y: RevertWire.Station, subY: seq<Frame>, readX: nat)
    requires RevertWire.Listening(x, x0, y, subY, readX) && x.bh.phase == Up && y.bh.inband == []
    ensures x.bh == x0
  {
    hide ApcFrames.WithoutFirst, ApcFrames.Quiet, Apc.Feed, ApcFrames.Weight;
  }

  lemma {:induction false} PacedFirst(from: int, ts: seq<int>, lo: int, hi: int)
    requires Paced(from, ts, lo, hi) && ts != []
    ensures lo <= ts[0] - from <= hi
  {
    if |ts| > 1 { PacedFirst(from, ts[..|ts| - 1], lo, hi); }
  }

  /** At a first round so late that both have a heartbeat due. */
  lemma FirstReady(w: Duo, clock: int, now: int)
    requires Punctual(w.x, clock) && Punctual(w.y, clock) && Alive(w.x, now) && Alive(w.y, now)
    requires now >= clock + Arq.RTO_MAX
    ensures Ready(w, now) && BothTimely(w, clock)
  {
    hide ArqTimers.Timely;
  }

  function Flip(w: Duo): Duo { Duo(w.y, w.x) }

  lemma FlipAwake(w: Duo, t: int)
    requires Awake(w, t) && BothTimely(w, t)
    ensures Awake(Flip(w), t) && BothTimely(Flip(w), t)
  {
    hide ArqTimers.Timely;
  }

  /** The state from which rounds can start: both up, linked, and everything written. */
  lemma UpLinkedRun(codec: Codec, i: Setup, ms: seq<Move>)
    requires StreamingCodec(codec) && RevertWire.AllAllowed(codec, i, ms)
    requires var w := RevertWire.Run(codec, i, ms); w.a.bh.phase == Up && w.b.bh.phase == Up
    ensures var w := RevertWire.Run(codec, i, ms);
            && Linked(codec, w.a.bh, RevertWire.Submitted(ms, A), w.b.bh, RevertWire.Submitted(ms, B))
            && w.a.bh.inband == [] && w.b.bh.inband == []
  {
    var w := RevertWire.Run(codec, i, ms);
    RevertWire.RunInv(codec, i, ms);
    AllWritten(codec, i, ms, A);
    AllWritten(codec, i, ms, B);
    hide RevertWire.Run, RevertWire.Inv, Joint, StreamingCodec, Nonces, RevertWire.Submitted;
    UpIdeal(codec, w);
  }

  /** Rounds led by one end and then by the other finish both streams. */
  lemma RoundsFinish(codec: Codec, w: Duo, subX: seq<Frame>, subY: seq<Frame>, clock: int, ts: seq<int>, us: seq<int>)
    requires StreamingCodec(codec) && Linked(codec, w.x, subX, w.y, subY) && BothTimely(w, clock)
    requires ts != [] && us != [] && Ready(w, ts[0])
    requires Paced(clock, ts, Arq.RTO_MAX, DEAD_MS - HB_MS)
    requires Paced(Last(clock, ts), us, Arq.RTO_MAX, DEAD_MS - HB_MS)
    requires |ts| >= Unfinished(codec, w.x) && |us| >= Unfinished(codec, w.y)
    ensures var e := Rounds(codec, Flip(Rounds(codec, w, ts)), us);
            && e.x.phase == Up && e.y.phase == Up && e.x.inband == w.y.inband && e.y.inband == w.x.inband
            && e.x.got == subX && e.y.got == subY && e.x.sent == [] && e.y.sent == []
  {
    hide Rounds, Linked, Ready, BothTimely, Awake, StreamingCodec, Swept, Compressed;
    var d := Rounds(codec, w, ts);
    RoundsAdvance(codec, w, subX, subY, clock, ts);
    LinkedSwap(codec, d.x, subX, d.y, subY);
    FlipAwake(d, Last(clock, ts));
    PacedFirst(Last(clock, ts), us, Arq.RTO_MAX, DEAD_MS - HB_MS);
    AwakeReady(Flip(d), Last(clock, ts), us[0]);
    RoundsAdvance(codec, Flip(d), subY, subX, Last(clock, ts), us);
    var e := Rounds(codec, Flip(d), us);
    UpLinked(codec, e.x, subY, e.y, subX);
    FinishedHanded(codec, e.x, subY, e.y, subX);
    FinishedSwept(codec, e.x, subY, e.y, subX);
    LinkedSwap(codec, e.x, subY, e.y, subX);
    FinishedHanded(codec, e.y, subX, e.x, subY);
    FinishedSwept(codec, e.y, subX, e.x, subY);
  }

  lemma RunReady(codec: Codec, i: Setup, ms: seq<Move>, clock: int, now: int)
    requires StreamingCodec(codec) && RevertWire.AllAllowed(codec, i, ms)
    requires i.nowA <= clock && i.nowB <= clock && forall m | m in ms :: NotAfter(m, clock)
    requires var w := RevertWire.Run(codec, i, ms); Alive(w.a.bh, now) && Alive(w.b.bh, now)
    requires now >= clock + Arq.RTO_MAX
    ensures var w := RevertWire.Run(codec, i, ms);
            var d := Duo(w.a.bh, w.b.bh);
            && Linked(codec, d.x, RevertWire.Submitted(ms, A), d.y, RevertWire.Submitted(ms, B))
            && BothTimely(d, clock) && Ready(d, now) && d.x.inband == [] && d.y.inband == []
  {
    hide RevertWire.Run, RevertWire.AllAllowed, Linked, Ready, BothTimely, StreamingCodec, Punctual,
         RevertWire.Submitted, NotAfter;
    var w := RevertWire.Run(codec, i, ms);
    RunPunctual(codec, i, ms, A, clock);
    RunPunctual(codec, i, ms, B, clock);
    UpLinkedRun(codec, i, ms);
    FirstReady(Duo(w.a.bh, w.b.bh), clock, now);
  }

  /**
   From every reachable moment at which both ends are up and their paths alive: rounds at any pace between
   the longest retransmission timeout and what the heartbeats allow, as many led by each end as it has bytes
   unfinished, hand each end exactly what the other submitted, in order, each once, and it is forgotten as
   acknowledged. Both ends are still up, and nothing has gone in-band.
   */
  lemma FramesGetThrough(codec: Codec, i: Setup, ms: seq<Move>, clock: int, ts: seq<int>, us: seq<int>)
    requires StreamingCodec(codec) && RevertWire.AllAllowed(codec, i, ms)
    requires i.nowA <= clock && i.nowB <= clock && forall m | m in ms :: NotAfter(m, clock)
    requires ts != [] && us != []
    requires Paced(clock, ts, Arq.RTO_MAX, DEAD_MS - HB_MS)
    requires Paced(Last(clock, ts), us, Arq.RTO_MAX, DEAD_MS - HB_MS)
    requires var w := RevertWire.Run(codec, i, ms);
             && Alive(w.a.bh, ts[0]) && Alive(w.b.bh, ts[0])
             && |ts| >= Unfinished(codec, w.a.bh) && |us| >= Unfinished(codec, w.b.bh)
    ensures var w := RevertWire.Run(codec, i, ms);
            var e := Rounds(codec, Flip(Rounds(codec, Duo(w.a.bh, w.b.bh), ts)), us);
            && e.y.phase == Up && e.y.got == RevertWire.Submitted(ms, B) && e.y.sent == [] && e.y.inband == []
            && e.x.phase == Up && e.x.got == RevertWire.Submitted(ms, A) && e.x.sent == [] && e.x.inband == []
  {
    hide RevertWire.Run, RevertWire.AllAllowed, Rounds, Linked, Ready, Alive, BothTimely, StreamingCodec,
         Unfinished, RevertWire.Submitted, NotAfter;
    PacedFirst(clock, ts, Arq.RTO_MAX, DEAD_MS - HB_MS);
    hide Paced;
    RunReady(codec, i, ms, clock, ts[0]);
    var w := RevertWire.Run(codec, i, ms);
    RoundsFinish(codec, Duo(w.a.bh, w.b.bh), RevertWire.Submitted(ms, A), RevertWire.Submitted(ms, B), clock, ts, us);
  }
}
