/**
 The reliable byte stream (`Arq`): first the state and, for each method of the source, the
 function from old state to new state; the class `Arq.Endpoint` below runs the loops and
 in-place updates of the source and is proved to compute exactly these functions.

 Authenticated encryption is ideal: a datagram opens only under the salt it was sealed with, and
 its payload is then the sealed one. Payloads are structured here; `Wire` proves that their byte
 layout decodes to the same structure.
 */
module Arq {
  import opened Bytes

  const SEG_MAX: nat := 1200
  const ARQ_WINDOW: nat := 65536
  const RTO_MIN: int := 100
  const RTO_MAX: int := 8000

  datatype Body =
    | Control(flag: Byte)
    | PureAck(ack: nat)
    | Data(ack: nat, off: nat, data: seq<Byte>)

  /** A datagram on the network: one sealed by an endpoint, or bytes nobody sealed. */
  datatype Datagram =
    | Sealed(salt: nat, nonce: nat, body: Body)
    | Forged(junk: seq<Byte>)

  datatype Segment = Segment(off: nat, data: seq<Byte>, sentMs: int, xmits: nat) {
    function End(): nat { off + |data| }
  }

  datatype Piece = Piece(off: nat, data: seq<Byte>)

  datatype Timer = Timer(srtt: int, rttvar: int, rto: int)

  datatype State = State(
    txSalt: nat,
    rxSalt: nat,
    pktSeq: nat,
    pending: seq<Byte>,
    unacked: seq<Segment>,
    sndNxt: nat,
    lastAck: nat,
    dupAcks: nat,
    timer: Timer,
    rcvNxt: nat,
    reorder: seq<Piece>,
    inbox: seq<Byte>,
    needAck: bool,
    outq: seq<Datagram>)
  {
    function SndUna(): nat { if unacked != [] then unacked[0].off else sndNxt }

    predicate CanFill() { pending != [] && sndNxt - SndUna() < ARQ_WINDOW }
  }

  function Init(txSalt: nat, rxSalt: nat): State {
    State(txSalt, rxSalt, 0, [], [], 0, 0, 0, Timer(0, 0, RTO_MIN), 0, [], [], false, [])
  }

  function SealOut(s: State, body: Body): State {
    s.(outq := s.outq + [Sealed(s.txSalt, s.pktSeq, body)], pktSeq := s.pktSeq + 1, needAck := false)
  }

  // ----- Sender -----

  /** One turn of the fill loop: cut the next segment off `pending` and send it. */
  function FillOne(s: State, now: int): State
    requires s.CanFill()
  {
    var n := Min(SEG_MAX, |s.pending|);
    var chunk := s.pending[..n];
    SealOut(s.(pending := s.pending[n..],
               unacked := s.unacked + [Segment(s.sndNxt, chunk, now, 1)],
               sndNxt := s.sndNxt + n),
            Data(s.rcvNxt, s.sndNxt, chunk))
  }

  function FillWindow(s: State, now: int): State
    decreases |s.pending|
  {
    if s.CanFill() then FillWindow(FillOne(s, now), now) else s
  }

  function AppSend(s: State, data: seq<Byte>, now: int): State {
    FillWindow(s.(pending := s.pending + data), now)
  }

  function RttUpdate(t: Timer, sample: int): Timer {
    var m := Max(sample, 1);
    var srtt := if t.srtt == 0 then m else (7 * t.srtt + m) / 8;
    var rttvar := if t.srtt == 0 then m / 2 else (3 * t.rttvar + Abs(t.srtt - m)) / 4;
    Timer(srtt, rttvar, Max(RTO_MIN, Min(RTO_MAX, srtt + 4 * rttvar)))
  }

  function Abs(x: int): int { if x < 0 then -x else x }

  function RetransmitFirst(s: State, now: int): State {
    if s.unacked == [] then s
    else
      var seg := s.unacked[0].(xmits := s.unacked[0].xmits + 1, sentMs := now);
      SealOut(s.(unacked := s.unacked[0 := seg]), Data(s.rcvNxt, seg.off, seg.data))
  }

  /** Drop the segments a cumulative ack covers, timing those sent exactly once. */
  function DropAcked(s: State, ack: nat, now: int): State
    decreases |s.unacked|
  {
    if s.unacked == [] || s.unacked[0].End() > ack then s
    else
      var t := if s.unacked[0].xmits == 1 then RttUpdate(s.timer, now - s.unacked[0].sentMs) else s.timer;
      DropAcked(s.(unacked := s.unacked[1..], timer := t), ack, now)
  }

  function NoteAck(s: State, ack: nat, now: int): State {
    if ack > s.lastAck then s.(lastAck := ack, dupAcks := 0)
    else if ack == s.lastAck && s.unacked != [] then
      var s' := s.(dupAcks := s.dupAcks + 1);
      if s'.dupAcks == 3 then RetransmitFirst(s', now) else s'
    else s
  }

  function ProcessAck(s: State, ack: nat, now: int): State {
    NoteAck(DropAcked(s, ack, now), ack, now)
  }

  // ----- Receiver -----

  predicate Hits(p: Piece, rcvNxt: nat) { p.off <= rcvNxt < p.off + |p.data| }

  /** The index of the first buffered piece that contains the next wanted byte, or `|ps|`. */
  function FirstHit(ps: seq<Piece>, rcvNxt: nat): (i: nat)
    ensures i <= |ps|
    ensures i < |ps| ==> Hits(ps[i], rcvNxt)
    ensures forall k | 0 <= k < i :: !Hits(ps[k], rcvNxt)
  {
    if ps == [] || Hits(ps[0], rcvNxt) then 0 else 1 + FirstHit(ps[1..], rcvNxt)
  }

  function DrainOne(s: State, i: nat): State
    requires i < |s.reorder| && Hits(s.reorder[i], s.rcvNxt)
  {
    var p := s.reorder[i];
    s.(inbox := s.inbox + p.data[s.rcvNxt - p.off..],
       rcvNxt := p.off + |p.data|,
       reorder := s.reorder[..i] + s.reorder[i + 1..])
  }

  function DrainReorder(s: State): State
    decreases |s.reorder|
  {
    var i := FirstHit(s.reorder, s.rcvNxt);
    if i < |s.reorder| then DrainReorder(DrainOne(s, i)) else s
  }

  predicate Buffered(ps: seq<Piece>, off: nat) { exists i :: 0 <= i < |ps| && ps[i].off == off }

  function Deliver(s: State, off: nat, data: seq<Byte>): State {
    if off + |data| <= s.rcvNxt then s
    else if off > s.rcvNxt then
      if off - s.rcvNxt > ARQ_WINDOW || Buffered(s.reorder, off) then s
      else s.(reorder := s.reorder + [Piece(off, data)])
    else
      DrainReorder(Extend(s, data[s.rcvNxt - off..]))
  }

  /** Hand the next bytes of the stream to the inbox. */
  function Extend(s: State, novel: seq<Byte>): State {
    s.(inbox := s.inbox + novel, rcvNxt := s.rcvNxt + |novel|)
  }

  // ----- Events -----

  /** The payload, if the datagram opens under our receive salt and is not a control packet. */
  function Open(s: State, d: Datagram): Option<Body> {
    if d.Sealed? && d.salt == s.rxSalt && !d.body.Control? then Some(d.body) else None
  }

  function Absorb(s: State, body: Body): State
    requires !body.Control?
  {
    if body.Data? then Deliver(s, body.off, body.data).(needAck := true) else s
  }

  function OnPacket(s: State, d: Datagram, now: int): State {
    match Open(s, d)
    case None => s
    case Some(body) => FillWindow(Absorb(ProcessAck(s, body.ack, now), body), now)
  }

  predicate Expired(s: State, now: int) {
    s.unacked != [] && now - s.unacked[0].sentMs >= s.timer.rto
  }

  function Backoff(t: Timer): Timer { t.(rto := Min(RTO_MAX, t.rto * 2)) }

  function HeadTimer(s: State, now: int): State {
    if Expired(s, now) then RetransmitFirst(s.(timer := Backoff(s.timer)), now) else s
  }

  function PayAck(s: State): State {
    if s.needAck then SealOut(s, PureAck(s.rcvNxt)) else s
  }

  function Tick(s: State, now: int): State {
    PayAck(FillWindow(HeadTimer(s, now), now))
  }

  function TakeInbox(s: State): State { s.(inbox := []) }

  function PollOut(s: State): State { s.(outq := []) }

  function NextTimeout(s: State, now: int): int {
    if s.unacked != [] then Max(0, s.unacked[0].sentMs + s.timer.rto - now) else 1000
  }

  /** The stateful object of the source, field by field. */
  class Endpoint {
    const txSalt: nat
    const rxSalt: nat
    var pktSeq: nat
    var pending: seq<Byte>
    var unacked: seq<Segment>
    var sndNxt: nat
    var lastAck: nat
    var dupAcks: nat
    var srtt: int
    var rttvar: int
    var rto: int
    var rcvNxt: nat
    var reorder: seq<Piece>
    var inbox: seq<Byte>
    var needAck: bool
    var outq: seq<Datagram>

    ghost function View(): State
      reads this
    {
      State(txSalt, rxSalt, pktSeq, pending, unacked, sndNxt, lastAck, dupAcks,
            Timer(srtt, rttvar, rto), rcvNxt, reorder, inbox, needAck, outq)
    }

    constructor (txSalt: nat, rxSalt: nat)
      ensures View() == Init(txSalt, rxSalt)
    {
      this.txSalt, this.rxSalt := txSalt, rxSalt;
      pktSeq, pending, unacked, sndNxt, lastAck, dupAcks := 0, [], [], 0, 0, 0;
      srtt, rttvar, rto := 0, 0, RTO_MIN;
      rcvNxt, reorder, inbox, needAck, outq := 0, [], [], false, [];
    }

    function SndUna(): (r: nat)
      reads this
      ensures r == View().SndUna()
    {
      if unacked != [] then unacked[0].off else sndNxt
    }

    method Seal(body: Body)
      modifies this
      ensures View() == SealOut(old(View()), body)
    {
      outq := outq + [Sealed(txSalt, pktSeq, body)];
      pktSeq := pktSeq + 1;
      needAck := false;
    }

    method Fill(now: int)
      modifies this
      ensures View() == FillWindow(old(View()), now)
    {
      while pending != [] && sndNxt - SndUna() < ARQ_WINDOW
        invariant FillWindow(View(), now) == FillWindow(old(View()), now)
        decreases |pending|
      {
        ghost var before := View();
        var take := if |pending| < SEG_MAX then |pending| else SEG_MAX;
        var chunk := pending[..take];
        var off := sndNxt;
        pending := pending[take..];
        unacked := unacked + [Segment(off, chunk, now, 1)];
        sndNxt := sndNxt + take;
        Seal(Data(rcvNxt, off, chunk));
        assert View() == FillOne(before, now);
      }
    }

    method Send(data: seq<Byte>, now: int)
      modifies this
      ensures View() == AppSend(old(View()), data, now)
    {
      pending := pending + data;
      Fill(now);
    }

    method UpdateRtt(sample: int)
      modifies this`srtt, this`rttvar, this`rto
      ensures View() == old(View()).(timer := RttUpdate(old(View()).timer, sample))
    {
      var m := if sample < 1 then 1 else sample;
      if srtt == 0 {
        srtt, rttvar := m, m / 2;
      } else {
        rttvar := (3 * rttvar + Abs(srtt - m)) / 4;
        srtt := (7 * srtt + m) / 8;
      }
      rto := srtt + 4 * rttvar;
      if rto > RTO_MAX { rto := RTO_MAX; }
      if rto < RTO_MIN { rto := RTO_MIN; }
    }

    method Retransmit(now: int)
      modifies this
      ensures View() == RetransmitFirst(old(View()), now)
    {
      if unacked == [] { return; }
      unacked := unacked[0 := unacked[0].(xmits := unacked[0].xmits + 1, sentMs := now)];
      Seal(Data(rcvNxt, unacked[0].off, unacked[0].data));
    }

    method HandleAck(ack: nat, now: int)
      modifies this
      ensures View() == ProcessAck(old(View()), ack, now)
    {
      while unacked != [] && unacked[0].off + |unacked[0].data| <= ack
        invariant DropAcked(View(), ack, now) == DropAcked(old(View()), ack, now)
        decreases |unacked|
      {
        var seg := unacked[0];
        unacked := unacked[1..];
        if seg.xmits == 1 { UpdateRtt(now - seg.sentMs); }
      }
      if ack > lastAck {
        lastAck, dupAcks := ack, 0;
      } else if ack == lastAck && unacked != [] {
        dupAcks := dupAcks + 1;
        if dupAcks == 3 { Retransmit(now); }
      }
    }

    method FindHit() returns (hit: nat)
      ensures hit == FirstHit(reorder, rcvNxt)
    {
      for i := 0 to |reorder|
        invariant forall k | 0 <= k < i :: !Hits(reorder[k], rcvNxt)
      {
        if reorder[i].off <= rcvNxt < reorder[i].off + |reorder[i].data| { return i; }
      }
      return |reorder|;
    }

    method DrainAt(i: nat)
      requires i < |reorder| && Hits(reorder[i], rcvNxt)
      modifies this`inbox, this`rcvNxt, this`reorder
      ensures View() == DrainOne(old(View()), i)
    {
      var p := reorder[i];
      inbox := inbox + p.data[rcvNxt - p.off..];
      rcvNxt := p.off + |p.data|;
      reorder := reorder[..i] + reorder[i + 1..];
    }

    method Drain()
      modifies this`inbox, this`rcvNxt, this`reorder
      ensures View() == DrainReorder(old(View()))
    {
      hide FirstHit;
      var hit := FindHit();
      while hit < |reorder|
        invariant hit == FirstHit(reorder, rcvNxt)
        invariant DrainReorder(View()) == DrainReorder(old(View()))
        decreases |reorder|
      {
        DrainAt(hit);
        hit := FindHit();
      }
    }

    method IsBuffered(off: nat) returns (found: bool)
      ensures found == Buffered(reorder, off)
    {
      for i := 0 to |reorder|
        invariant forall k | 0 <= k < i :: reorder[k].off != off
      {
        if reorder[i].off == off { return true; }
      }
      return false;
    }

    method Accept(off: nat, data: seq<Byte>)
      modifies this`inbox, this`rcvNxt, this`reorder
      ensures View() == Deliver(old(View()), off, data)
    {
      hide DrainReorder;
      if off + |data| <= rcvNxt { return; }
      if off > rcvNxt {
        if off - rcvNxt > ARQ_WINDOW { return; }
        var found := IsBuffered(off);
        if !found { reorder := reorder + [Piece(off, data)]; }
        return;
      }
      var novel := data[rcvNxt - off..];
      inbox := inbox + novel;
      rcvNxt := rcvNxt + |novel|;
      Drain();
    }

    method Receive(d: Datagram, now: int)
      modifies this
      ensures View() == OnPacket(old(View()), d, now)
    {
      if !d.Sealed? || d.salt != rxSalt || d.body.Control? { return; }
      HandleAck(d.body.ack, now);
      if d.body.Data? {
        Accept(d.body.off, d.body.data);
        needAck := true;
      }
      Fill(now);
    }

    method TickAt(now: int)
      modifies this
      ensures View() == Tick(old(View()), now)
    {
      if unacked != [] && now - unacked[0].sentMs >= rto {
        rto := if rto * 2 > RTO_MAX then RTO_MAX else rto * 2;
        Retransmit(now);
      }
      Fill(now);
      if needAck { Seal(PureAck(rcvNxt)); }
    }

    method Take() returns (bytes: seq<Byte>)
      modifies this`inbox
      ensures bytes == old(inbox) && View() == TakeInbox(old(View()))
    {
      bytes := inbox;
      inbox := [];
    }

    method Poll() returns (packets: seq<Datagram>)
      modifies this`outq
      ensures packets == old(outq) && View() == PollOut(old(View()))
    {
      packets := outq;
      outq := [];
    }

    method TimeoutAt(now: int) returns (ms: int)
      ensures ms == NextTimeout(View(), now)
    {
      if unacked != [] {
        var due := unacked[0].sentMs + rto - now;
        return if due < 0 then 0 else due;
      }
      return 1000;
    }
  }
}
