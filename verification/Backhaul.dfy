/**
 The UDP backhaul once its path is up: frames are length-prefixed, compressed and handed to the
 `Arq`, remembered until acknowledged, and re-sent over the in-band channel if the path dies.

 Compression is abstract: a `Codec` gives the compressor's output for a chunk after the chunks
 before it, and the decompressor's total output for the bytes fed so far. `StreamingCodec` states
 the two laws of a sync-flushed stream. The compressor's state is then the list of chunks, and the
 decompressor's the bytes fed.
 */
module Backhaul {
  import opened Bytes
  import opened Text
  import opened Frames
  import Arq

  const HB_MS: int := 5000
  const DEAD_MS: int := 20000
  const CTL_PING: Byte := 0x80

  datatype Codec = Codec(deflate: (seq<seq<Byte>>, seq<Byte>) -> seq<Byte>, inflate: seq<Byte> -> seq<Byte>)

  /** Everything the compressor has put out for these chunks. */
  function Compressed(codec: Codec, chunks: seq<seq<Byte>>): seq<Byte> {
    if chunks == [] then []
    else Compressed(codec, chunks[..|chunks| - 1]) + codec.deflate(chunks[..|chunks| - 1], chunks[|chunks| - 1])
  }

  /** A prefix in gives a prefix out, and after a whole flushed chunk all its plaintext is out. */
  ghost predicate StreamingCodec(codec: Codec) {
    && (forall chunks: seq<seq<Byte>> {:trigger Compressed(codec, chunks)} ::
          codec.inflate(Compressed(codec, chunks)) == Concat(chunks))
    && (forall p: seq<Byte>, q: seq<Byte> | p <= q :: codec.inflate(p) <= codec.inflate(q))
  }

  /** What the decompressor adds when `raw` follows the bytes already fed. */
  function Inflated(codec: Codec, fed: seq<Byte>, raw: seq<Byte>): seq<Byte> {
    var before, after := codec.inflate(fed), codec.inflate(fed + raw);
    if |before| <= |after| then after[|before|..] else []
  }

  datatype Phase = Up | Reverting | Failed

  /** A submitted frame and the compressed-stream offset at which it ends. */
  datatype Record = Record(end: nat, frame: Frame)

  datatype State = State(
    arq: Arq.State,
    chunks: seq<seq<Byte>>,
    fed: seq<Byte>,
    buf: seq<Byte>,
    phase: Phase,
    lastRx: int,
    nextHb: int,
    ctlSeq: nat,
    sent: seq<Record>,
    txOff: nat,
    txBase: nat,
    rxFrames: nat,
    resent: bool,
    wire: seq<Arq.Datagram>,
    inband: seq<Frame>,
    got: seq<Frame>)

  /** An endpoint whose path has just come up. `wire`, `inband` and `got` log its three outputs. */
  function Init(txSalt: nat, rxSalt: nat, now: int, ctlSeq: nat): State {
    State(Arq.Init(txSalt, rxSalt), [], [], [], Up, now, now + HB_MS, ctlSeq, [], 0, 0, 0, false, [], [], [])
  }

  const REVERT_VERB: seq<Byte> := [85, 80, 58, 82, 88, 58] // "UP:RX:"

  function UpRx(n: nat): Frame { REVERT_VERB + Dec(n) }

  /** The count a revert notice carries. */
  function ParseUpRx(f: Frame): Option<nat>
  {
    if StartsWith(f, REVERT_VERB) then ParseDec(f[|REVERT_VERB|..]) else None
  }

  function Flush(s: State): State {
    s.(wire := s.wire + s.arq.outq, arq := Arq.PollOut(s.arq))
  }

  function Prune(s: State): State
    decreases |s.sent|
  {
    if s.sent != [] && s.sent[0].end <= s.arq.SndUna()
    then Prune(s.(sent := s.sent[1..], txBase := s.txBase + 1)) else s
  }

  function Dispatch(s: State, frames: seq<Frame>): State {
    s.(rxFrames := s.rxFrames + |frames|, got := s.got + frames)
  }

  /** Take what the `Arq` has in order, inflate it, and dispatch the frames it completes. */
  function Deliver(codec: Codec, s: State): State {
    var raw := s.arq.inbox;
    var s1 := s.(arq := Arq.TakeInbox(s.arq));
    if raw == [] then s1
    else
      var p := Parse(s.buf + Inflated(codec, s.fed, raw));
      Dispatch(s1.(fed := s.fed + raw, buf := p.rest), p.frames)
  }

  function Settle(codec: Codec, s: State): State { Deliver(codec, Prune(Flush(s))) }

  function OnReadable(codec: Codec, s: State, d: Arq.Datagram, now: int): State {
    if s.phase != Up then s
    else Settle(codec, s.(lastRx := now, arq := Arq.OnPacket(s.arq, d, now)))
  }

  function BeginRevert(s: State): State {
    if s.phase != Up then s
    else
      var s1 := Prune(s.(phase := Reverting));
      s1.(inband := s1.inband + [UpRx(s1.rxFrames)])
  }

  function Heartbeat(s: State, now: int): State {
    if now >= s.nextHb
    then s.(wire := s.wire + [Arq.Sealed(s.arq.txSalt, s.ctlSeq, Arq.Control(CTL_PING))],
            ctlSeq := s.ctlSeq + 1, nextHb := now + HB_MS)
    else s
  }

  function Tick(codec: Codec, s: State, now: int): State {
    if s.phase != Up then s
    else if now - s.lastRx > DEAD_MS then BeginRevert(s)
    else
      var s1 := Heartbeat(s, now);
      Settle(codec, s1.(arq := Arq.Tick(s1.arq, now)))
  }

  function Hold(s: State, frame: Frame): State {
    s.(sent := s.sent + [Record(s.txOff, frame)])
  }

  /** `frame` went to the compressor, which put out `comp`. */
  function Remember(s: State, frame: Frame, comp: seq<Byte>): State {
    Hold(s.(chunks := s.chunks + [Wrap(frame)], txOff := s.txOff + |comp|), frame)
  }

  function Transmit(codec: Codec, s: State, frame: Frame, now: int): State {
    var comp := codec.deflate(s.chunks, Wrap(frame));
    Flush(Remember(s, frame, comp).(arq := Arq.AppSend(s.arq, comp, now)))
  }

  function SendFrame(codec: Codec, s: State, frame: Frame, now: int): State {
    match s.phase
    case Up => Transmit(codec, s, frame, now)
    case Reverting => Hold(s, frame)
    case Failed => s
  }

  function FramesOf(rs: seq<Record>): seq<Frame> {
    if rs == [] then [] else [rs[0].frame] + FramesOf(rs[1..])
  }

  /** The frames the peer, having consumed `n`, still lacks. */
  function Tail(s: State, n: nat): seq<Frame> {
    var start := Max(0, n - s.txBase);
    if start <= |s.sent| then FramesOf(s.sent[start..]) else []
  }

  function PeerRevert(s: State, n: nat): State {
    var s1 := BeginRevert(s);
    if s1.phase != Reverting || s1.resent then s1
    else s1.(resent := true, inband := s1.inband + Tail(s1, n), sent := [], phase := Failed)
  }

  /** The router above the backhaul: it owns the frames while up or draining, else they go in-band. */
  function SendDown(codec: Codec, s: State, frame: Frame, now: int): State {
    if s.phase == Failed then s.(inband := s.inband + [frame]) else SendFrame(codec, s, frame, now)
  }

  /** A frame arriving in-band: a revert notice, or one to dispatch. */
  function InbandArrives(s: State, f: Frame): State {
    if StartsWith(f, REVERT_VERB)
    then match ParseUpRx(f)
         case Some(n) => PeerRevert(s, n)
         case None => s
    else s.(got := s.got + [f])
  }

  /** The object of the source; its codec is a constant, its `Arq` and `FrameStream` are its own. */
  class UdpBackhaul {
    const codec: Codec
    const arq: Arq.Endpoint
    const fs: FrameStream
    var chunks: seq<seq<Byte>>
    var fed: seq<Byte>
    var phase: Phase
    var lastRx: int
    var nextHb: int
    var ctlSeq: nat
    var sent: seq<Record>
    var txOff: nat
    var txBase: nat
    var rxFrames: nat
    var resent: bool
    var wire: seq<Arq.Datagram>
    var inband: seq<Frame>
    var got: seq<Frame>

    ghost function View(): State
      reads this, arq, fs
    {
      State(arq.View(), chunks, fed, fs.buf, phase, lastRx, nextHb, ctlSeq, sent, txOff, txBase, rxFrames,
            resent, wire, inband, got)
    }

    constructor (codec: Codec, txSalt: nat, rxSalt: nat, now: int, ctlSeq: nat)
      ensures fresh(arq) && fresh(fs) && this.codec == codec
      ensures View() == Init(txSalt, rxSalt, now, ctlSeq)
    {
      this.codec := codec;
      this.arq := new Arq.Endpoint(txSalt, rxSalt);
      this.fs := new FrameStream();
      chunks, fed, phase, lastRx, nextHb := [], [], Up, now, now + HB_MS;
      this.ctlSeq := ctlSeq;
      sent, txOff, txBase, rxFrames, resent := [], 0, 0, 0, false;
      wire, inband, got := [], [], [];
    }

    method FlushOut()
      modifies this`wire, arq
      ensures View() == Flush(old(View()))
    {
      var packets := arq.Poll();
      wire := wire + packets;
    }

    method PruneSent()
      modifies this`sent, this`txBase
      ensures View() == Prune(old(View()))
    {
      var una := arq.SndUna();
      while sent != [] && sent[0].end <= una
        invariant una == arq.View().SndUna()
        invariant Prune(View()) == Prune(old(View()))
        decreases |sent|
      {
        sent := sent[1..];
        txBase := txBase + 1;
      }
    }

    method DeliverUp()
      modifies this`fed, this`rxFrames, this`got, arq, fs
      ensures View() == Deliver(codec, old(View()))
    {
      var raw := arq.Take();
      if raw != [] {
        var plain := Inflated(codec, fed, raw);
        fed := fed + raw;
        var frames := fs.Feed(plain);
        ghost var got0, rx0 := got, rxFrames;
        for i := 0 to |frames|
          modifies this`rxFrames, this`got
          invariant got == got0 + frames[..i] && rxFrames == rx0 + i
        {
          rxFrames := rxFrames + 1;
          got := got + [frames[i]];
        }
        assert frames[..|frames|] == frames;
      }
    }

    method Readable(d: Arq.Datagram, now: int)
      modifies this, arq, fs
      ensures View() == OnReadable(codec, old(View()), d, now)
    {
      if phase != Up { return; }
      lastRx := now;
      arq.Receive(d, now);
      FlushOut();
      PruneSent();
      DeliverUp();
    }

    method SendHeartbeat(now: int)
      modifies this`wire, this`ctlSeq, this`nextHb
      ensures View() == Heartbeat(old(View()), now)
    {
      if now >= nextHb {
        wire := wire + [Arq.Sealed(arq.txSalt, ctlSeq, Arq.Control(CTL_PING))];
        ctlSeq := ctlSeq + 1;
        nextHb := now + HB_MS;
      }
    }

    method TickAt(now: int)
      modifies this, arq, fs
      ensures View() == Tick(codec, old(View()), now)
    {
      hide Heartbeat, Flush, Prune, Deliver, BeginRevert;
      if phase != Up { return; }
      if now - lastRx > DEAD_MS {
        StartRevert();
        return;
      }
      SendHeartbeat(now);
      arq.TickAt(now);
      FlushOut();
      PruneSent();
      DeliverUp();
    }

    method Compress(frame: Frame) returns (comp: seq<Byte>)
      modifies this`chunks, this`txOff, this`sent
      ensures comp == codec.deflate(old(chunks), Wrap(frame))
      ensures View() == Remember(old(View()), frame, comp)
    {
      hide Wrap;
      var record := Wrap(frame);
      comp := codec.deflate(chunks, record);
      chunks := chunks + [record];
      txOff := txOff + |comp|;
      sent := sent + [Record(txOff, frame)];
    }

    /** What `Submit` does while up: compress, remember with the end offset, send, flush. */
    method Pass(frame: Frame, now: int)
      modifies this`chunks, this`txOff, this`sent, this`wire, arq
      ensures View() == Transmit(codec, old(View()), frame, now)
    {
      hide Wrap, Flush, Remember, Arq.AppSend;
      var comp := Compress(frame);
      arq.Send(comp, now);
      FlushOut();
    }

    method Submit(frame: Frame, now: int)
      modifies this, arq
      ensures View() == SendFrame(codec, old(View()), frame, now)
    {
      hide Transmit;
      match phase
      case Up => Pass(frame, now);
      case Reverting => sent := sent + [Record(txOff, frame)];
      case Failed =>
    }

    method StartRevert()
      modifies this
      ensures View() == BeginRevert(old(View()))
    {
      if phase != Up { return; }
      phase := Reverting;
      PruneSent();
      inband := inband + [UpRx(rxFrames)];
    }

    method ResendTail(n: nat)
      modifies this`inband
      ensures View() == old(View()).(inband := old(inband) + Tail(old(View()), n))
    {
      ghost var before := inband;
      var start := if n > txBase then n - txBase else 0;
      var i := start;
      while i < |sent|
        invariant start <= i && (i <= |sent| || i == start)
        invariant i <= |sent| ==> before + FramesOf(sent[start..]) == inband + FramesOf(sent[i..])
        invariant i > |sent| ==> inband == before
      {
        inband := inband + [sent[i].frame];
        i := i + 1;
      }
      assert inband + [] == inband;
    }

    method HandlePeerRevert(n: nat)
      modifies this
      ensures View() == PeerRevert(old(View()), n)
    {
      hide FramesOf, Prune;
      if phase == Up { StartRevert(); }
      if phase != Reverting || resent { return; }
      resent := true;
      ResendTail(n);
      sent := [];
      phase := Failed;
    }

    /** The wrapper's `send_down`: over the backhaul while it owns the frames, else in-band. */
    method RouteDown(frame: Frame, now: int)
      modifies this, arq
      ensures View() == SendDown(codec, old(View()), frame, now)
    {
      if phase == Up || phase == Reverting {
        Submit(frame, now);
      } else {
        inband := inband + [frame];
      }
    }

    /** The revert branch of the wrapper's `dispatch_frame`; any other frame is dispatched. */
    method ArriveInband(f: Frame)
      modifies this
      ensures View() == InbandArrives(old(View()), f)
    {
      if StartsWith(f, REVERT_VERB) {
        var count := ParseUpRx(f);
        if count.Some? { HandlePeerRevert(count.value); }
      } else {
        got := got + [f];
      }
    }
  }
}
