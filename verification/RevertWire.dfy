/**
 The two backhauls with their real in-band channels: each end writes an escape sequence for every
 frame into a byte stream it shares with the terminal, and the other reads that stream in chunks of
 any size through its scanner.
 */
module RevertWire {
  import opened Bytes
  import opened Text
  import opened Frames
  import Arq
  import Net = ArqNetwork
  import opened Apc
  import opened ApcLaws
  import opened ApcFrames
  import opened Backhaul
  import opened RevertNetwork

  type Scanner = s: Scan | Sane(s) witness IDLE

  /**
   One end: its backhaul, all it has written to the stream, how far it has read the peer's, its scanner,
   and of each frame it has put in-band whether that was in the clear.
   */
  datatype Station = Station(bh: State, line: seq<Byte>, pos: nat, scan: Scanner, clear: seq<bool>)

  datatype World = World(a: Station, b: Station, subA: seq<Frame>, subB: seq<Frame>)

  /** An event of the backhaul, terminal bytes written to the stream, or a chunk read from it. */
  datatype Move = Does(e: Event) | Types(side: Side, bytes: seq<Byte>) | Reads(side: Side, n: nat)

  function Added(before: seq<Frame>, after: seq<Frame>): seq<Frame> {
    if |before| <= |after| then after[|before|..] else []
  }

  /** The backhaul moves on; what it put in-band goes on the line, each frame in an envelope. */
  function Becomes(x: Station, bh: State): Station {
    var added := Added(x.bh.inband, bh.inband);
    x.(bh := bh, line := x.line + Envelopes(added), clear := x.clear + Clears(x.line, added))
  }

  /** The scanner's frames are dispatched in order. */
  function Dispatched(bh: State, events: seq<Frame>): State {
    if events == [] then bh
    else InbandArrives(Dispatched(bh, events[..|events| - 1]), events[|events| - 1])
  }

  function ReadChunk(x: Station, y: Station, n: nat): Station
    requires x.pos + n <= |y.line|
  {
    var r := Feed(x.scan, y.line[x.pos..x.pos + n]);
    Becomes(x, Dispatched(x.bh, r.output.events)).(pos := x.pos + n, scan := r.scan)
  }

  function MoveOne(codec: Codec, x: Station, y: Station, m: Move): Station {
    match m
    case Does(e) => Becomes(x, StepOne(codec, x.bh, y.bh, e))
    case Types(_, bytes) => x.(line := x.line + bytes)
    case Reads(_, n) => if x.pos + n <= |y.line| then ReadChunk(x, y, n) else x
  }

  function MoveSub(sub: seq<Frame>, m: Move): seq<Frame> { if m.Does? then StepSub(sub, m.e) else sub }

  function Mover(m: Move): Side { if m.Does? then m.e.side else m.side }

  function Step(codec: Codec, w: World, m: Move): World {
    if Mover(m) == A
    then w.(a := MoveOne(codec, w.a, w.b, m), subA := MoveSub(w.subA, m))
    else w.(b := MoveOne(codec, w.b, w.a, m), subB := MoveSub(w.subB, m))
  }

  datatype Setup = Setup(nowA: int, nowB: int, ctlA: nat, ctlB: nat)

  /** The moment both paths have come up. */
  function Start(i: Setup): World {
    World(Station(Init(Net.SALT_A, Net.SALT_B, i.nowA, i.ctlA), [], 0, IDLE, []),
          Station(Init(Net.SALT_B, Net.SALT_A, i.nowB, i.ctlB), [], 0, IDLE, []), [], [])
  }

  function Run(codec: Codec, i: Setup, ms: seq<Move>): World {
    if ms == [] then Start(i) else Step(codec, Run(codec, i, ms[..|ms| - 1]), ms[|ms| - 1])
  }

  /** Terminal bytes spell and open no frame of ours; frames fit and are not revert notices. */
  predicate Allowed(w: World, m: Move) {
    match m
    case Does(e) => Proper(e)
    case Types(side, bytes) => Keys(if side == A then w.a.line else w.b.line, bytes)
    case Reads(_, _) => true
  }

  predicate AllAllowed(codec: Codec, i: Setup, ms: seq<Move>) {
    ms == [] || (AllAllowed(codec, i, ms[..|ms| - 1]) && Allowed(Run(codec, i, ms[..|ms| - 1]), ms[|ms| - 1]))
  }

  /** What the application on `side` submitted, in order. */
  function Submitted(ms: seq<Move>, side: Side): seq<Frame> {
    if ms == [] then []
    else
      var m := ms[|ms| - 1];
      Submitted(ms[..|ms| - 1], side) + if m.Does? && m.e.Submit? && m.e.side == side then [m.e.frame] else []
  }

  // ----- Apart from what was handed over, the frame-level protocol -----

  function Heard(x: Station, y: Station): Fed
    requires x.pos <= |y.line|
  {
    Feed(IDLE, y.line[..x.pos])
  }

  /** Everything heard was put in the clear, and so has everything before it been. */
  ghost predicate Tuned(x: State, x0: State, heard: seq<Frame>, inband: seq<Frame>, clear: seq<bool>, readX: nat) {
    readX == |heard| <= Led(clear) && heard <= inband && x.got == x0.got
  }

  /** The notice was heard, and since then a frame was not: what was handed over weighs no more than what was heard. */
  ghost predicate Spoilt(x: State, heard: seq<Frame>, inband: seq<Frame>, clear: seq<bool>, subY: seq<Frame>) {
    && x.phase == Failed && 1 <= Led(clear) < |clear| == |inband| && x.rxFrames <= |subY|
    && Weight(x.got) + Weight(inband[..1]) <= Weight(subY[..x.rxFrames]) + Weight(heard)
  }

  /** The notice was not put in the clear, and nothing of it was heard. */
  ghost predicate Missed(x: State, x0: State, heard: seq<Frame>, clear: seq<bool>, readX: nat) {
    clear != [] && !clear[0] && readX == 0 && Weight(x.got) <= Weight(x0.got) + Weight(heard)
  }

  /** `x` is the ideal `x0`, to whom `readX` in-band frames have come whole, but for what it was handed. */
  ghost predicate Matched(x: State, x0: State, heard: seq<Frame>, inband: seq<Frame>, clear: seq<bool>,
                          subY: seq<Frame>, readX: nat)
  {
    && x == x0.(got := x.got)
    && (|| Tuned(x, x0, heard, inband, clear, readX) || Spoilt(x, heard, inband, clear, subY)
        || Missed(x, x0, heard, clear, readX))
  }

  /** What was heard can be traced to the frames put on the line. */
  ghost predicate Traced(all: seq<Frame>, inband: seq<Frame>, clear: seq<bool>) {
    && Gist(all, inband, clear)
    && (inband != [] && !clear[0] ==> Gist(all, inband[1..], clear[1..]))
  }

  /**
   `x` has taken a piece of an unclear frame for the notice it missed. Both ends are then in-band for
   good, and what `x` is handed weighs less than what `y` submitted.
   */
  ghost predicate Fallen(x: State, subX: seq<Frame>, y: State, subY: seq<Frame>, heard: seq<Frame>, clearY: seq<bool>) {
    && x.phase == Failed && y.phase == Failed && x.inband != [] && y.inband != [] && |clearY| == |y.inband|
    && Pruned(x, subX, y) && Pruned(y, subY, x) && y.inband[1..] == subY[x.rxFrames..]
    && !clearY[0] && !AllClear(clearY[1..])
    && Weight(x.got) <= Weight(subY[..x.rxFrames]) + Weight(heard)
  }

  /** What `x` has of the line from `y`. */
  ghost predicate Tapped(x: Station, y: Station) {
    && x.pos <= |y.line| && x.scan == Heard(x, y).scan
    && Carried(y.line, y.bh.inband, y.clear) && WithoutFirst(y.line, y.bh.inband, y.clear)
    && (y.bh.inband != [] ==> Quiet(y.bh.inband[0]))
  }

  ghost predicate Listening(x: Station, x0: State, y: Station, subY: seq<Frame>, readX: nat) {
    Tapped(x, y) && Matched(x.bh, x0, Heard(x, y).output.events, y.bh.inband, y.clear, subY, readX)
  }

  ghost predicate Ideal(codec: Codec, w: World, a0: State, b0: State, readA: nat, readB: nat) {
    && Joint(codec, a0, w.subA, readA, b0, w.subB, readB)
    && Listening(w.a, a0, w.b, w.subB, readA) && Listening(w.b, b0, w.a, w.subA, readB)
  }

  ghost predicate Fell(x: Station, subX: seq<Frame>, y: Station, subY: seq<Frame>) {
    && Tapped(x, y) && Tapped(y, x)
    && Fallen(x.bh, subX, y.bh, subY, Heard(x, y).output.events, y.clear)
  }

  ghost predicate Inv(codec: Codec, w: World) {
    || (exists a0, b0, readA, readB :: Ideal(codec, w, a0, b0, readA, readB))
    || Fell(w.a, w.subA, w.b, w.subB) || Fell(w.b, w.subB, w.a, w.subA)
  }

  // ----- What was handed over decides nothing -----

  lemma {:induction false} PruneApart(s: State, g: seq<Frame>)
    ensures Prune(s.(got := g)) == Prune(s).(got := g) && Prune(s).got == s.got && Prune(s).inband == s.inband
    decreases |s.sent|
  {
    if s.sent != [] && s.sent[0].end <= s.arq.SndUna() {
      PruneApart(s.(sent := s.sent[1..], txBase := s.txBase + 1), g);
    }
  }

  /** `s'` with another past: the same, but for what it had been handed before. */
  ghost predicate Apart(s: State, s': State, t': State, g: seq<Frame>) {
    exists more :: s'.got == s.got + more && t' == s'.(got := g + more)
  }

  lemma SettleApart(codec: Codec, s: State, g: seq<Frame>)
    ensures Apart(s, Settle(codec, s), Settle(codec, s.(got := g)), g) && Settle(codec, s).inband == s.inband
  {
    var s1 := Flush(s);
    PruneApart(s1, g);
    hide Prune, Inflated;
    var s2 := Prune(s1);
    var raw := s2.arq.inbox;
    var more := if raw == [] then [] else Parse(s2.buf + Inflated(codec, s2.fed, raw)).frames;
    hide Parse;
    assert s.got + [] == s.got && g + [] == g;
    assert Settle(codec, s).got == s.got + more;
  }

  lemma BeginApart(s: State, g: seq<Frame>)
    ensures BeginRevert(s.(got := g)) == BeginRevert(s).(got := g) && BeginRevert(s).got == s.got
    ensures s.inband <= BeginRevert(s).inband && (s.phase == Failed ==> BeginRevert(s).phase == Failed)
  {
    PruneApart(s.(phase := Reverting), g);
    hide Prune, UpRx;
  }

  lemma SendApart(codec: Codec, s: State, g: seq<Frame>, frame: Frame, now: int)
    ensures SendDown(codec, s.(got := g), frame, now) == SendDown(codec, s, frame, now).(got := g)
    ensures var s' := SendDown(codec, s, frame, now); s'.got == s.got && s.inband <= s'.inband && s'.phase == s.phase
  {
    hide Wrap, Arq.AppSend;
  }

  lemma Unhanded(s: State, s': State, t': State, g: seq<Frame>)
    requires s'.got == s.got && t' == s'.(got := g)
    ensures Apart(s, s', t', g)
  {
    assert s.got + [] == s.got && g + [] == g;
  }

  /** An event does the same whatever had been handed over; it only adds to that and to the in-band log. */
  lemma StepApart(codec: Codec, x: State, y: State, g: seq<Frame>, h: seq<Frame>, e: Event)
    ensures Apart(x, StepOne(codec, x, y, e), StepOne(codec, x.(got := g), y.(got := h), e), g)
    ensures x.inband <= StepOne(codec, x, y, e).inband
    ensures x.phase == Failed ==> StepOne(codec, x, y, e).phase == Failed
  {
    var t := x.(got := g);
    assert Network(t, y.(got := h)) == Network(x, y);
    hide Apart, Settle, BeginRevert, SendDown, Network;
    Unhanded(x, x, t, g);
    match e
    case Submit(_, frame, now) =>
      SendApart(codec, x, g, frame, now);
      Unhanded(x, SendDown(codec, x, frame, now), SendDown(codec, t, frame, now), g);
    case Datagram(_, d, now) =>
      if x.phase == Up {
        var x1 := x.(lastRx := now, arq := Arq.OnPacket(x.arq, d, now));
        SettleApart(codec, x1, g);
        ApartFrom(x, x1, Settle(codec, x1), Settle(codec, x1.(got := g)), g);
      }
    case Timer(_, now) =>
      if x.phase == Up && now - x.lastRx > DEAD_MS {
        BeginApart(x, g);
        Unhanded(x, BeginRevert(x), BeginRevert(t), g);
      } else if x.phase == Up {
        var x1, t1 := Heartbeat(x, now), Heartbeat(t, now);
        assert t1 == x1.(got := g);
        var x2 := x1.(arq := Arq.Tick(x1.arq, now));
        SettleApart(codec, x2, g);
        ApartFrom(x, x2, Settle(codec, x2), Settle(codec, x2.(got := g)), g);
      }
    case Down(_) =>
      BeginApart(x, g);
      Unhanded(x, BeginRevert(x), BeginRevert(t), g);
  }

  lemma ApartFrom(s: State, s1: State, s': State, t': State, g: seq<Frame>)
    requires s1.got == s.got && Apart(s1, s', t', g)
    ensures Apart(s, s', t', g)
  {
  }

  // ----- One frame heard -----

  lemma NoticeQuiet(n: nat)
    ensures Quiet(UpRx(n))
  {
    assert forall i | 0 <= i < |REVERT_VERB| :: REVERT_VERB[i] != ESC && REVERT_VERB[i] != BEL;
    assert forall i | 0 <= i < |Dec(n)| :: Digit(Dec(n)[i]);
  }

  /** In-band again, an end hands over or ignores what it hears, and nothing else. */
  lemma FailedHears(x: State, f: Frame)
    requires x.phase == Failed
    ensures var x' := InbandArrives(x, f);
            && x' == x.(got := x'.got) && x.got <= x'.got && Weight(x'.got) <= Weight(x.got) + Weight([f])
  {
    WeightAppend(x.got, [f]);
    hide Weight, ParseUpRx;
  }

  lemma ArrivesGrows(x: State, f: Frame)
    ensures x.inband <= InbandArrives(x, f).inband
  {
    BeginApart(x, x.got);
    hide UpRx, BeginRevert, Tail, ParseUpRx;
  }

  lemma JointChannel(codec: Codec, x: State, subX: seq<Frame>, readX: nat, y: State, subY: seq<Frame>, readY: nat)
    requires Joint(codec, x, subX, readX, y, subY, readY)
    ensures Channel(x, subX, y, readY) && Channel(y, subY, x, readX)
  {
    hide Books, Channel, Intake;
  }

  lemma Alike(a: seq<Frame>, b: seq<Frame>, n: nat)
    requires n <= |a| && n <= |b| && a[..n] == b[..n]
    ensures forall k | 0 <= k < n :: a[k] == b[k]
  {
    assert forall k | 0 <= k < n :: a[k] == a[..n][k] && b[k] == b[..n][k];
  }

  /** The next frame heard, while frames are put in the clear, is the next frame put in-band. */
  lemma NextClear(heard: seq<Frame>, f: Frame, all: seq<Frame>, inband: seq<Frame>, clear: seq<bool>)
    requires Gist(all, inband, clear) && heard + [f] <= all && |heard| < Led(clear) && heard <= inband
    ensures |heard| < |inband| && f == inband[|heard|] && heard + [f] <= inband
  {
    hide Weight, Led;
    Alike(all, inband, Led(clear));
    assert all[|heard|] == (heard + [f])[|heard|];
  }

  /** Something heard after all that was put in the clear: then not all was. */
  lemma BeyondClear(heard: seq<Frame>, f: Frame, all: seq<Frame>, inband: seq<Frame>, clear: seq<bool>)
    requires Gist(all, inband, clear) && heard + [f] <= all && |heard| == Led(clear)
    ensures Led(clear) < |clear| && (Led(clear) == 0 ==> !clear[0])
  {
    LedAll(clear);
    hide Weight, Led;
  }

  /** While everything was heard, what was handed over weighs what was heard, but for the notice. */
  lemma TunedWeighs(x0: State, y0: State, subY: seq<Frame>, readX: nat)
    requires Channel(y0, subY, x0, readX) && readX >= 1
    ensures x0.phase == Failed && x0.rxFrames <= |subY| && readX <= |y0.inband|
    ensures Weight(x0.got) + Weight(y0.inband[..1]) == Weight(subY[..x0.rxFrames]) + Weight(y0.inband[..readX])
  {
    hide UpRx, Weight;
    var inband := y0.inband;
    assert inband[..readX] == inband[..1] + inband[1..readX];
    WeightAppend(inband[..1], inband[1..readX]);
    WeightAppend(subY[..x0.rxFrames], inband[1..readX]);
  }

  /** The first frame that is not heard whole, after the notice. */
  lemma Spoils(x: State, x0: State, y0: State, subY: seq<Frame>, heard: seq<Frame>, clear: seq<bool>, readX: nat,
               f: Frame)
    requires Channel(y0, subY, x0, readX) && x == x0.(got := x.got) && Tuned(x, x0, heard, y0.inband, clear, readX)
    requires 1 <= readX == Led(clear) < |clear| == |y0.inband|
    ensures Spoilt(InbandArrives(x, f), heard + [f], y0.inband, clear, subY) && x.phase == Failed
  {
    TunedWeighs(x0, y0, subY, readX);
    FailedHears(x, f);
    hide Led, InbandArrives, Channel, Weight;
    assert heard == y0.inband[..readX];
    WeightAppend(heard, [f]);
  }

  /** A frame taken for a notice by an end that missed the real one. */
  lemma Falls(codec: Codec, x: State, x0: State, subX: seq<Frame>, y: State, y0: State, subY: seq<Frame>, readY: nat,
              heard: seq<Frame>, all: seq<Frame>, clear: seq<bool>, f: Frame, n: nat)
    requires StreamingCodec(codec) && Joint(codec, x0, subX, 0, y0, subY, readY)
    requires x == x0.(got := x.got) && y == y0.(got := y.got) && Missed(x, x0, heard, clear, 0)
    requires Traced(all, y0.inband, clear) && heard + [f] <= all
    requires StartsWith(f, REVERT_VERB) && ParseUpRx(f) == Some(n) && !x0.resent
    ensures Fallen(InbandArrives(x, f), subX, y, subY, heard + [f], clear)
  {
    JointChannel(codec, x0, subX, 0, y0, subY, readY);
    BeginJoint(codec, x0, subX, y0, subY, readY);
    JointPruned(codec, BeginRevert(x0), subX, 0, y0, subY, readY);
    hide Joint, Channel, Pruned, Weight, UpRx, BeginRevert, PeerRevert, ParseUpRx, StreamingCodec, Traced;
    NotAllClear(x0, y0, subY, all, clear, heard, f);
    WeightAppend(heard, [f]);
    FallShape(x, x0, subX, y0, subY, readY, n);
    FallPruned(BeginRevert(x0), PeerRevert(x, n), subX, y0, y, subY);
    hide AllClear;
  }

  lemma FallPruned(s: State, x: State, subX: seq<Frame>, y0: State, y: State, subY: seq<Frame>)
    requires Pruned(s, subX, y0) && Pruned(y0, subY, s) && y == y0.(got := y.got)
    requires x.phase == Failed && x.txBase == s.txBase && x.rxFrames == s.rxFrames && s.inband != []
             && s.inband <= x.inband
    ensures Pruned(x, subX, y) && Pruned(y, subY, x)
  {
    hide UpRx, FramesOf;
  }

  lemma BeginJoint(codec: Codec, x: State, subX: seq<Frame>, y: State, subY: seq<Frame>, readY: nat)
    requires StreamingCodec(codec) && Joint(codec, x, subX, 0, y, subY, readY)
    ensures Joint(codec, BeginRevert(x), subX, 0, y, subY, readY)
  {
    hide Joint, StreamingCodec, BeginRevert;
    StepJoint(codec, x, subX, 0, y, subY, readY, Down(A));
  }

  /** What taking a notice does to an end that has not heard one. */
  lemma FallShape(x: State, x0: State, subX: seq<Frame>, y0: State, subY: seq<Frame>, readY: nat, n: nat)
    requires Channel(x0, subX, y0, readY) && Channel(y0, subY, x0, 0) && x == x0.(got := x.got) && !x0.resent
    ensures var s, x' := BeginRevert(x0), PeerRevert(x, n);
            && x'.phase == Failed && x'.got == x.got && x'.rxFrames == x0.rxFrames == s.rxFrames
            && x'.txBase == s.txBase
            && s.inband != [] && s.inband <= x'.inband
    ensures x0.got == subY[..x0.rxFrames]
  {
    BeginApart(x0, x.got);
    BeginShape(x0);
    hide UpRx, BeginRevert, Tail;
    assert subY[..x0.rxFrames] + [] == subY[..x0.rxFrames];
  }

  lemma BeginShape(s: State)
    ensures var s' := BeginRevert(s);
            && s'.rxFrames == s.rxFrames && s'.resent == s.resent
            && (s.phase == Up ==> s'.phase == Reverting && s'.inband != []) && (s.phase != Up ==> s' == s)
  {
    if s.phase == Up { PruneKept(s.(phase := Reverting)); }
    hide Prune, UpRx;
  }

  lemma {:induction false} PruneKept(s: State)
    ensures Prune(s) == s.(sent := Prune(s).sent, txBase := Prune(s).txBase)
    decreases |s.sent|
  {
    if s.sent != [] && s.sent[0].end <= s.arq.SndUna() {
      PruneKept(s.(sent := s.sent[1..], txBase := s.txBase + 1));
    }
  }

  lemma NoNotice(x0: State, y0: State, subY: seq<Frame>, f: Frame)
    requires Channel(y0, subY, x0, 0) && y0.inband != [] && f in y0.inband[1..]
    ensures !StartsWith(f, REVERT_VERB)
  {
    hide UpRx, StartsWith;
    var rest := y0.inband[1..];
    var k :| 0 <= k < |rest| && rest[k] == f;
    assert f in subY;
  }

  /** A notice among what is heard of frames that are no notices: one of them was not put in the clear. */
  lemma NotAllClear(x0: State, y0: State, subY: seq<Frame>, all: seq<Frame>, clear: seq<bool>, heard: seq<Frame>,
                    f: Frame)
    requires Channel(y0, subY, x0, 0) && Traced(all, y0.inband, clear) && clear != [] && !clear[0]
    requires heard + [f] <= all && StartsWith(f, REVERT_VERB)
    ensures !AllClear(clear[1..]) && y0.phase == Failed && |clear| == |y0.inband|
            && y0.inband[1..] == subY[x0.rxFrames..]
  {
    LedAll(clear[1..]);
    var rest := y0.inband[1..];
    assert all[|heard|] == f;
    if f in rest { NoNotice(x0, y0, subY, f); }
    assert f in all && f !in rest;
    hide UpRx, Led, StartsWith;
    assert rest == [] ==> Weight(rest) == 0;
  }

  lemma JointPruned(codec: Codec, x: State, subX: seq<Frame>, readX: nat, y: State, subY: seq<Frame>, readY: nat)
    requires Joint(codec, x, subX, readX, y, subY, readY)
    ensures Pruned(x, subX, y) && Pruned(y, subY, x)
  {
    hide Pair, Link;
    LinkPruned(codec, x, subX, y, readY);
    LinkPruned(codec, y, subY, x, readX);
    hide FramesOf, UpRx;
  }

  lemma NotResent(codec: Codec, x: State, subX: seq<Frame>, readX: nat, y: State, subY: seq<Frame>, readY: nat)
    requires Joint(codec, x, subX, readX, y, subY, readY)
    ensures x.resent <==> x.phase == Failed
  {
    hide Pair, Channel, Intake, Compressed, WrapEach, RevertNetwork.Ends, FramesOf;
  }

  /** One more frame heard by an end that missed the notice. */
  lemma MissedHears(x: State, x0: State, heard: seq<Frame>, clear: seq<bool>, f: Frame)
    requires Missed(x, x0, heard, clear, 0) && x == x0.(got := x.got)
    requires !(StartsWith(f, REVERT_VERB) && ParseUpRx(f).Some?)
    ensures var x' := InbandArrives(x, f); x' == x0.(got := x'.got) && Missed(x', x0, heard + [f], clear, 0)
  {
    WeightAppend(x.got, [f]);
    WeightAppend(heard, [f]);
    hide Weight, ParseUpRx, StartsWith;
  }

  lemma SpoiltHears(x: State, heard: seq<Frame>, inband: seq<Frame>, clear: seq<bool>, subY: seq<Frame>, f: Frame)
    requires Spoilt(x, heard, inband, clear, subY)
    ensures var x' := InbandArrives(x, f); x' == x.(got := x'.got) && Spoilt(x', heard + [f], inband, clear, subY)
  {
    FailedHears(x, f);
    WeightAppend(heard, [f]);
    hide Weight, InbandArrives;
  }

  lemma FallenHears(x: State, subX: seq<Frame>, y: State, subY: seq<Frame>, heard: seq<Frame>, clearY: seq<bool>,
                    f: Frame)
    requires Fallen(x, subX, y, subY, heard, clearY)
    ensures Fallen(InbandArrives(x, f), subX, y, subY, heard + [f], clearY)
  {
    FailedHears(x, f);
    WeightAppend(heard, [f]);
    hide Weight, InbandArrives, UpRx, FramesOf, AllClear;
  }

  /** Nothing heard yet, and the notice was not put in the clear. */
  lemma NothingTuned(x: State, x0: State, heard: seq<Frame>, inband: seq<Frame>, clear: seq<bool>)
    requires Tuned(x, x0, heard, inband, clear, 0) && clear != [] && !clear[0]
    ensures Missed(x, x0, heard, clear, 0)
  {
    hide Led;
  }

  /** The state of `x` after hearing: in step with the protocol, or fallen. */
  ghost predicate Sound(codec: Codec, x: State, x0: State, subX: seq<Frame>, readX: nat, y: State, y0: State,
                        subY: seq<Frame>, readY: nat, heard: seq<Frame>, clear: seq<bool>) {
    || (Joint(codec, x0, subX, readX, y0, subY, readY) && Matched(x, x0, heard, y0.inband, clear, subY, readX))
    || Fallen(x, subX, y, subY, heard, clear)
  }

  lemma TunedHears(codec: Codec, x: State, x0: State, subX: seq<Frame>, readX: nat, y0: State, subY: seq<Frame>,
                   readY: nat, heard: seq<Frame>, f: Frame, all: seq<Frame>, clear: seq<bool>)
    requires StreamingCodec(codec) && Joint(codec, x0, subX, readX, y0, subY, readY)
    requires x == x0.(got := x.got) && Tuned(x, x0, heard, y0.inband, clear, readX) && readX < Led(clear)
    requires Gist(all, y0.inband, clear) && heard + [f] <= all
    ensures var x1 := InbandArrives(x0, f);
            && Joint(codec, x1, subX, readX + 1, y0, subY, readY)
            && InbandArrives(x, f) == x1 && Tuned(x1, x1, heard + [f], y0.inband, clear, readX + 1)
  {
    NextClear(heard, f, all, y0.inband, clear);
    hide Joint, Gist, Led, InbandArrives, StreamingCodec;
    ArriveJoint(codec, x0, subX, readX, y0, subY, readY);
  }

  lemma HearOne(codec: Codec, x: State, x0: State, subX: seq<Frame>, readX: nat, y: State, y0: State, subY: seq<Frame>,
                readY: nat, heard: seq<Frame>, f: Frame, all: seq<Frame>, clear: seq<bool>)
    returns (x1: State, readX': nat)
    requires StreamingCodec(codec) && Sound(codec, x, x0, subX, readX, y, y0, subY, readY, heard, clear)
    requires y == y0.(got := y.got) && Traced(all, y0.inband, clear) && heard + [f] <= all
    ensures Sound(codec, InbandArrives(x, f), x1, subX, readX', y, y0, subY, readY, heard + [f], clear)
  {
    x1, readX' := x0, readX;
    hide StreamingCodec, Joint, InbandArrives, Gist, Tuned, Spoilt, Missed, Fallen, ParseUpRx;
    if Fallen(x, subX, y, subY, heard, clear) {
      FallenHears(x, subX, y, subY, heard, clear, f);
    } else if Spoilt(x, heard, y0.inband, clear, subY) {
      SpoiltHears(x, heard, y0.inband, clear, subY, f);
    } else if Tuned(x, x0, heard, y0.inband, clear, readX) {
      TunedCounts(x, x0, heard, y0.inband, clear, readX);
      if readX < Led(clear) {
        TunedHears(codec, x, x0, subX, readX, y0, subY, readY, heard, f, all, clear);
        x1, readX' := InbandArrives(x0, f), readX + 1;
      } else {
        BeyondClear(heard, f, all, y0.inband, clear);
        GistLength(all, y0.inband, clear);
        JointChannel(codec, x0, subX, readX, y0, subY, readY);
        if readX >= 1 {
          Spoils(x, x0, y0, subY, heard, clear, readX, f);
          SpoiltShape(x, f);
        } else {
          NothingTuned(x, x0, heard, y0.inband, clear);
          HearMissed(codec, x, x0, subX, y, y0, subY, readY, heard, f, all, clear);
        }
      }
    } else {
      MissedCounts(x, x0, heard, clear, readX);
      HearMissed(codec, x, x0, subX, y, y0, subY, readY, heard, f, all, clear);
    }
  }

  lemma TunedCounts(x: State, x0: State, heard: seq<Frame>, inband: seq<Frame>, clear: seq<bool>, readX: nat)
    requires Tuned(x, x0, heard, inband, clear, readX)
    ensures readX == |heard| <= Led(clear)
  {
  }

  lemma MissedCounts(x: State, x0: State, heard: seq<Frame>, clear: seq<bool>, readX: nat)
    requires Missed(x, x0, heard, clear, readX)
    ensures readX == 0
  {
  }

  lemma GistLength(all: seq<Frame>, inband: seq<Frame>, clear: seq<bool>)
    requires Gist(all, inband, clear)
    ensures |clear| == |inband|
  {
  }

  lemma SpoiltShape(x: State, f: Frame)
    requires x.phase == Failed
    ensures InbandArrives(x, f) == x.(got := InbandArrives(x, f).got)
  {
    FailedHears(x, f);
  }

  lemma HearMissed(codec: Codec, x: State, x0: State, subX: seq<Frame>, y: State, y0: State, subY: seq<Frame>,
                   readY: nat, heard: seq<Frame>, f: Frame, all: seq<Frame>, clear: seq<bool>)
    requires StreamingCodec(codec) && Joint(codec, x0, subX, 0, y0, subY, readY)
    requires x == x0.(got := x.got) && Missed(x, x0, heard, clear, 0)
    requires y == y0.(got := y.got) && Traced(all, y0.inband, clear) && heard + [f] <= all
    ensures Sound(codec, InbandArrives(x, f), x0, subX, 0, y, y0, subY, readY, heard + [f], clear)
  {
    hide StreamingCodec, Joint, InbandArrives, Traced, Missed, Fallen, ParseUpRx, StartsWith;
    if StartsWith(f, REVERT_VERB) && ParseUpRx(f).Some? {
      JointChannel(codec, x0, subX, 0, y0, subY, readY);
      NotResent(codec, x0, subX, 0, y0, subY, readY);
      NotYetFailed(x0, y0, subY);
      Falls(codec, x, x0, subX, y, y0, subY, readY, heard, all, clear, f, ParseUpRx(f).value);
    } else {
      MissedHears(x, x0, heard, clear, f);
    }
  }

  lemma NotYetFailed(x0: State, y0: State, subY: seq<Frame>)
    requires Channel(y0, subY, x0, 0)
    ensures x0.phase != Failed
  {
    hide UpRx;
  }

  /** A list of frames heard. */
  lemma {:induction false} HearAll(codec: Codec, x: State, x0: State, subX: seq<Frame>, readX: nat, y: State, y0: State,
                                   subY: seq<Frame>, readY: nat, heard: seq<Frame>, more: seq<Frame>, all: seq<Frame>,
                                   clear: seq<bool>) returns (x1: State, readX': nat)
    requires StreamingCodec(codec) && Sound(codec, x, x0, subX, readX, y, y0, subY, readY, heard, clear)
    requires y == y0.(got := y.got) && Traced(all, y0.inband, clear) && heard + more <= all
    ensures Sound(codec, Dispatched(x, more), x1, subX, readX', y, y0, subY, readY, heard + more, clear)
    ensures x.inband <= Dispatched(x, more).inband
    decreases |more|
  {
    hide StreamingCodec, Sound, Traced, InbandArrives;
    if more == [] {
      x1, readX' := x0, readX;
      assert heard + more == heard;
    } else {
      var init, f := more[..|more| - 1], more[|more| - 1];
      assert (heard + init) + [f] == heard + more;
      assert heard + init <= heard + more;
      x1, readX' := HearAll(codec, x, x0, subX, readX, y, y0, subY, readY, heard, init, all, clear);
      ArrivesGrows(Dispatched(x, init), f);
      x1, readX' := HearOne(codec, Dispatched(x, init), x1, subX, readX', y, y0, subY, readY, heard + init, f,
                            all, clear);
    }
  }

  // ----- One move -----

  /** The line of a station that wrote more, or had more written to it. */
  ghost predicate Grown(x: Station, x': Station) {
    && x.line <= x'.line && x.bh.inband <= x'.bh.inband && x.clear <= x'.clear
    && Carried(x'.line, x'.bh.inband, x'.clear) && WithoutFirst(x'.line, x'.bh.inband, x'.clear)
    && (x'.bh.inband != [] ==> Quiet(x'.bh.inband[0]))
  }

  lemma TappedStays(y: Station, x: Station, x': Station)
    requires Tapped(y, x) && Grown(x, x')
    ensures Tapped(y, x') && Heard(y, x') == Heard(y, x)
  {
    hide Carried, Feed, WithoutFirst, Quiet;
    assert x'.line[..y.pos] == x.line[..y.pos];
  }

  lemma BecomesGrown(y: Station, x: Station, bh: State)
    requires Tapped(y, x) && x.bh.inband <= bh.inband && (bh.inband != [] ==> Quiet(bh.inband[0]))
    ensures Grown(x, Becomes(x, bh)) && Becomes(x, bh).bh == bh
  {
    hide Carried, WithoutFirst, Quiet, Clears, Envelopes, Feed;
    var added := Added(x.bh.inband, bh.inband);
    CarryFrames(x.line, x.bh.inband, x.clear, added);
    assert x.bh.inband + added == bh.inband;
    assert x.bh.inband == [] && added != [] ==> added[0] == bh.inband[0];
  }

  lemma {:induction false} LedGrows(a: seq<bool>, b: seq<bool>)
    requires a <= b
    ensures Led(a) <= Led(b) && (Led(a) < |a| ==> Led(b) == Led(a))
    decreases |b|
  {
    if |a| < |b| { LedGrows(a, b[..|b| - 1]); } else { assert a == b; }
  }

  /** More on the line, and more submitted: what was heard stays what it was. */
  lemma MatchedStays(x: State, x0: State, heard: seq<Frame>, inband: seq<Frame>, inband': seq<Frame>,
                     clear: seq<bool>, clear': seq<bool>, subY: seq<Frame>, subY': seq<Frame>, readX: nat)
    requires Matched(x, x0, heard, inband, clear, subY, readX)
    requires inband <= inband' && clear <= clear' && subY <= subY' && |clear'| == |inband'|
    ensures Matched(x, x0, heard, inband', clear', subY', readX)
  {
    LedGrows(clear, clear');
    hide Weight, Led;
    if Spoilt(x, heard, inband, clear, subY) {
      assert subY'[..x.rxFrames] == subY[..x.rxFrames] && inband'[..1] == inband[..1];
    }
  }

  lemma CarriedLength(line: seq<Byte>, fs: seq<Frame>, clear: seq<bool>)
    requires Carried(line, fs, clear)
    ensures |clear| == |fs|
  {
    hide Feed, Led, Weight;
  }

  lemma ListeningStays(y: Station, y0: State, x: Station, x': Station, subX: seq<Frame>, subX': seq<Frame>, readY: nat)
    requires Listening(y, y0, x, subX, readY) && Grown(x, x') && subX <= subX'
    ensures Listening(y, y0, x', subX', readY)
  {
    TappedStays(y, x, x');
    CarriedLength(x'.line, x'.bh.inband, x'.clear);
    hide Tapped, Matched, Feed, Carried, WithoutFirst, Quiet;
    assert y.pos <= |x.line| && y.pos <= |x'.line| by { TappedPos(y, x); TappedPos(y, x'); }
    MatchedStays(y.bh, y0, Heard(y, x).output.events, x.bh.inband, x'.bh.inband, x.clear, x'.clear, subX, subX', readY);
  }

  lemma TappedPos(x: Station, y: Station)
    requires Tapped(x, y)
    ensures x.pos <= |y.line|
  {
    hide Carried, WithoutFirst, Quiet, Feed;
  }

  /** An event at an end that has lost its path hands nothing over; it may add a frame to the in-band log. */
  lemma FailedStep(codec: Codec, x: State, y: State, e: Event)
    requires x.phase == Failed
    ensures StepOne(codec, x, y, e) == x.(inband := x.inband + if e.Submit? then [e.frame] else [])
  {
    hide Network;
    assert x.inband + [] == x.inband;
  }

  lemma MatchedDoes(codec: Codec, x: State, x0: State, y: State, y0: State, heard: seq<Frame>, inband: seq<Frame>,
                    clear: seq<bool>, subY: seq<Frame>, readX: nat, e: Event)
    requires Matched(x, x0, heard, inband, clear, subY, readX) && y == y0.(got := y.got)
    ensures Matched(StepOne(codec, x, y, e), StepOne(codec, x0, y0, e), heard, inband, clear, subY, readX)
    ensures x.inband <= StepOne(codec, x, y, e).inband
  {
    StepApart(codec, x0, y0, x.got, y.got, e);
    assert x0.(got := x.got) == x && y0.(got := y.got) == y;
    if Spoilt(x, heard, inband, clear, subY) { FailedStep(codec, x, y, e); }
    hide StepOne, Led, Weight;
    var more :| StepOne(codec, x0, y0, e).got == x0.got + more
                && StepOne(codec, x, y, e) == StepOne(codec, x0, y0, e).(got := x.got + more);
    WeightAppend(x0.got, more);
    WeightAppend(x.got, more);
  }

  lemma DoesKeeps(codec: Codec, x: Station, x0: State, subX: seq<Frame>, readX: nat, y: Station, y0: State,
                  subY: seq<Frame>, readY: nat, e: Event)
    requires StreamingCodec(codec) && Joint(codec, x0, subX, readX, y0, subY, readY) && Proper(e)
    requires Listening(x, x0, y, subY, readX) && Listening(y, y0, x, subX, readY)
    ensures var x', x1 := Becomes(x, StepOne(codec, x.bh, y.bh, e)), StepOne(codec, x0, y0, e);
            && Joint(codec, x1, StepSub(subX, e), readX, y0, subY, readY)
            && Listening(x', x1, y, subY, readX) && Listening(y, y0, x', StepSub(subX, e), readY)
  {
    ListeningParts(x, x0, y, subY, readX);
    ListeningParts(y, y0, x, subX, readY);
    hide Joint, StepOne, Tapped, Matched, Listening, Becomes, Feed, StreamingCodec;
    StepJoint(codec, x0, subX, readX, y0, subY, readY, e);
    var bh, x1 := StepOne(codec, x.bh, y.bh, e), StepOne(codec, x0, y0, e);
    MatchedDoes(codec, x.bh, x0, y.bh, y0, Heard(x, y).output.events, y.bh.inband, y.clear, subY, readX, e);
    QuietFirst(codec, x1, StepSub(subX, e), readX, y0, subY, readY);
    SameInband(bh, x1, Heard(x, y).output.events, y.bh.inband, y.clear, subY, readX);
    BecomesGrown(y, x, bh);
    var x' := Becomes(x, bh);
    BecomesListens(x, bh, y);
    ListeningWhole(x', x1, y, subY, readX);
    ListeningStays(y, y0, x, x', subX, StepSub(subX, e), readY);
  }

  lemma BecomesListens(x: Station, bh: State, y: Station)
    requires Tapped(x, y)
    ensures var x' := Becomes(x, bh); Tapped(x', y) && Heard(x', y) == Heard(x, y) && x'.pos == x.pos
  {
    hide Carried, WithoutFirst, Quiet, Feed, Clears, Envelopes;
  }

  lemma SameInband(x: State, x0: State, heard: seq<Frame>, inband: seq<Frame>, clear: seq<bool>, subY: seq<Frame>,
                   readX: nat)
    requires Matched(x, x0, heard, inband, clear, subY, readX)
    ensures x == x0.(got := x.got)
  {
  }

  lemma QuietFirst(codec: Codec, x: State, subX: seq<Frame>, readX: nat, y: State, subY: seq<Frame>, readY: nat)
    requires Joint(codec, x, subX, readX, y, subY, readY)
    ensures x.inband != [] ==> Quiet(x.inband[0])
  {
    JointChannel(codec, x, subX, readX, y, subY, readY);
    NoticeQuiet(x.rxFrames);
    hide Joint, UpRx, Quiet;
  }

  lemma ListeningParts(x: Station, x0: State, y: Station, subY: seq<Frame>, readX: nat)
    requires Listening(x, x0, y, subY, readX)
    ensures x.pos <= |y.line| && Tapped(x, y) && x.bh == x0.(got := x.bh.got)
    ensures Matched(x.bh, x0, Heard(x, y).output.events, y.bh.inband, y.clear, subY, readX)
  {
    hide Feed, Tuned, Spoilt, Missed, Carried, WithoutFirst, Quiet;
  }

  lemma ListeningWhole(x: Station, x0: State, y: Station, subY: seq<Frame>, readX: nat)
    requires Tapped(x, y) && x.pos <= |y.line|
    requires Matched(x.bh, x0, Heard(x, y).output.events, y.bh.inband, y.clear, subY, readX)
    ensures Listening(x, x0, y, subY, readX)
  {
    hide Feed, Carried, WithoutFirst, Matched, Quiet;
  }

  /** All that can be heard of a line is traced to its frames. */
  lemma TappedTraced(x: Station, y: Station)
    requires Tapped(x, y)
    ensures Traced(Feed(IDLE, y.line).output.events, y.bh.inband, y.clear)
  {
    CarriedLength(y.line, y.bh.inband, y.clear);
    hide Feed, Gist, Quiet, Foreign;
  }

  lemma ReadChunkIs(x: Station, y: Station, n: nat)
    requires x.pos + n <= |y.line|
    ensures var x', bh := ReadChunk(x, y, n), Dispatched(x.bh, Feed(x.scan, y.line[x.pos..x.pos + n]).output.events);
            && x'.bh == bh == Becomes(x, bh).bh && x'.line == Becomes(x, bh).line && x'.clear == Becomes(x, bh).clear
            && x'.pos == x.pos + n && x'.scan == Feed(x.scan, y.line[x.pos..x.pos + n]).scan
  {
    hide Feed, Dispatched, Clears, Envelopes;
  }

  /** Reading a chunk is hearing that much more of the line. */
  lemma HeardMore(x: Station, y: Station, n: nat)
    requires x.pos + n <= |y.line| && x.scan == Heard(x, y).scan
    ensures var h, r := Heard(x, y), Feed(x.scan, y.line[x.pos..x.pos + n]);
            && Feed(IDLE, y.line[..x.pos + n]).scan == r.scan
            && Feed(IDLE, y.line[..x.pos + n]).output.events == h.output.events + r.output.events
            && h.output.events + r.output.events <= Feed(IDLE, y.line).output.events
  {
    hide Feed;
    var a, b, c := y.line[..x.pos], y.line[x.pos..x.pos + n], y.line[x.pos + n..];
    FeedInParts(IDLE, a, b);
    assert a + b == y.line[..x.pos + n];
    FeedInParts(IDLE, a + b, c);
    assert (a + b) + c == y.line;
  }

  /** What reading a chunk leaves of the wires, whatever it makes of the backhaul. */
  lemma ReadTapped(x: Station, y: Station, n: nat)
    requires Tapped(x, y) && x.pos + n <= |y.line|
    ensures var x' := ReadChunk(x, y, n);
            && Tapped(x', y) && x'.pos <= |y.line|
            && Heard(x', y).output.events
               == Heard(x, y).output.events + Feed(x.scan, y.line[x.pos..x.pos + n]).output.events
            && Heard(x', y).output.events <= Feed(IDLE, y.line).output.events
  {
    hide ReadChunk, Carried, WithoutFirst, Quiet, Feed, Becomes, Dispatched;
    HeardMore(x, y, n);
    ReadChunkIs(x, y, n);
  }

  lemma ReadGrown(y: Station, x: Station, n: nat)
    requires Tapped(y, x) && x.pos + n <= |y.line|
    requires var bh := Dispatched(x.bh, Feed(x.scan, y.line[x.pos..x.pos + n]).output.events);
             x.bh.inband <= bh.inband && (bh.inband != [] ==> Quiet(bh.inband[0]))
    ensures Grown(x, ReadChunk(x, y, n))
  {
    var bh := Dispatched(x.bh, Feed(x.scan, y.line[x.pos..x.pos + n]).output.events);
    hide Tapped, ReadChunk, Carried, WithoutFirst, Quiet, Feed, Becomes, Dispatched;
    BecomesGrown(y, x, bh);
    ReadChunkIs(x, y, n);
  }

  lemma SoundQuiet(codec: Codec, x: State, x0: State, subX: seq<Frame>, readX: nat, y: State, y0: State,
                   subY: seq<Frame>, readY: nat, heard: seq<Frame>, clear: seq<bool>)
    requires Sound(codec, x, x0, subX, readX, y, y0, subY, readY, heard, clear)
    ensures x.inband != [] ==> Quiet(x.inband[0])
  {
    NoticeQuiet(x.rxFrames);
    hide Joint, Quiet, UpRx, Tuned, Spoilt, Missed, FramesOf, AllClear;
    if !Fallen(x, subX, y, subY, heard, clear) { QuietFirst(codec, x0, subX, readX, y0, subY, readY); }
  }

  lemma ReadsKeeps(codec: Codec, x: Station, x0: State, subX: seq<Frame>, readX: nat, y: Station, y0: State,
                   subY: seq<Frame>, readY: nat, n: nat) returns (x1: State, readX': nat)
    requires StreamingCodec(codec) && Joint(codec, x0, subX, readX, y0, subY, readY)
    requires Listening(x, x0, y, subY, readX) && Listening(y, y0, x, subX, readY) && x.pos + n <= |y.line|
    ensures var x' := ReadChunk(x, y, n);
            || Fell(x', subX, y, subY)
            || (Joint(codec, x1, subX, readX', y0, subY, readY)
                && Listening(x', x1, y, subY, readX') && Listening(y, y0, x', subX, readY))
  {
    ListeningParts(x, x0, y, subY, readX);
    ListeningParts(y, y0, x, subX, readY);
    hide Listening, Tapped, Joint, Matched, Feed, ReadChunk, Becomes, Dispatched, Fallen, StreamingCodec, Grown;
    var h, more := Heard(x, y).output.events, Feed(x.scan, y.line[x.pos..x.pos + n]).output.events;
    TappedTraced(x, y);
    ReadTapped(x, y, n);
    x1, readX' := HearAll(codec, x.bh, x0, subX, readX, y.bh, y0, subY, readY, h, more,
                          Feed(IDLE, y.line).output.events, y.clear);
    SoundQuiet(codec, Dispatched(x.bh, more), x1, subX, readX', y.bh, y0, subY, readY, h + more, y.clear);
    ReadGrown(y, x, n);
    ReadChunkIs(x, y, n);
    var x' := ReadChunk(x, y, n);
    if Fallen(x'.bh, subX, y.bh, subY, h + more, y.clear) {
      TappedStays(y, x, x');
    } else {
      ListeningWhole(x', x1, y, subY, readX');
      ListeningStays(y, y0, x, x', subX, subX, readY);
    }
  }

  // ----- After a fall -----

  lemma FellParts(x: Station, subX: seq<Frame>, y: Station, subY: seq<Frame>)
    requires Fell(x, subX, y, subY)
    ensures Tapped(x, y) && Tapped(y, x) && x.pos <= |y.line| && y.pos <= |x.line|
    ensures Fallen(x.bh, subX, y.bh, subY, Heard(x, y).output.events, y.clear)
    ensures x.bh.phase == Failed && y.bh.phase == Failed
  {
    TappedPos(y, x);
    hide Carried, WithoutFirst, Quiet, Feed, AllClear, Weight, Pruned;
  }

  lemma {:induction false} FailedHearsAll(x: State, more: seq<Frame>)
    requires x.phase == Failed
    ensures var x' := Dispatched(x, more); x' == x.(got := x'.got) && Weight(x'.got) <= Weight(x.got) + Weight(more)
    decreases |more|
  {
    if more != [] {
      var init, f := more[..|more| - 1], more[|more| - 1];
      FailedHearsAll(x, init);
      FailedHears(Dispatched(x, init), f);
      assert more == init + [f];
      WeightAppend(init, [f]);
      hide InbandArrives, Weight;
    }
  }

  lemma FallenStays(x: State, x': State, subX: seq<Frame>, subX': seq<Frame>, y: State, y': State, subY: seq<Frame>,
                    subY': seq<Frame>, heard: seq<Frame>, heard': seq<Frame>, clearY: seq<bool>, clearY': seq<bool>)
    requires Fallen(x, subX, y, subY, heard, clearY)
    requires x' == x.(inband := x'.inband, got := x'.got) && y' == y.(inband := y'.inband, got := y'.got)
    requires x.inband <= x'.inband && y.inband <= y'.inband && subX <= subX' && subY <= subY'
    requires y'.inband[|y.inband|..] == subY'[|subY|..] && clearY <= clearY' && |clearY'| == |y'.inband|
    requires Weight(x'.got) + Weight(heard) <= Weight(x.got) + Weight(heard')
    ensures Fallen(x', subX', y', subY', heard', clearY')
  {
    hide Weight, FramesOf, UpRx;
    assert subY'[..x.rxFrames] == subY[..x.rxFrames];
    assert y'.inband[1..] == y.inband[1..] + y'.inband[|y.inband|..];
    assert subY'[x.rxFrames..] == subY[x.rxFrames..] + subY'[|subY|..];
    var i :| 0 <= i < |clearY[1..]| && !clearY[1..][i];
    assert clearY'[1..][i] == clearY[1..][i];
  }

  lemma FellDoes(codec: Codec, x: Station, y: Station, sub: seq<Frame>, e: Event)
    requires Tapped(y, x) && x.bh.phase == Failed && x.bh.inband != []
    ensures var x' := Becomes(x, StepOne(codec, x.bh, y.bh, e));
            && Grown(x, x') && x'.bh == x.bh.(inband := x'.bh.inband)
            && StepSub(sub, e) == sub + x'.bh.inband[|x.bh.inband|..]
  {
    FailedStep(codec, x.bh, y.bh, e);
    var bh := StepOne(codec, x.bh, y.bh, e);
    assert bh.inband[0] == x.bh.inband[0];
    QuietKept(y, x);
    hide StepOne, Tapped, Becomes, Quiet, Grown;
    BecomesGrown(y, x, bh);
    assert sub + [] == sub;
  }

  lemma QuietKept(y: Station, x: Station)
    requires Tapped(y, x)
    ensures x.bh.inband != [] ==> Quiet(x.bh.inband[0])
  {
    hide Carried, WithoutFirst, Quiet, Feed;
  }

  lemma TypesGrown(y: Station, x: Station, bytes: seq<Byte>)
    requires Tapped(y, x) && Keys(x.line, bytes)
    ensures Grown(x, x.(line := x.line + bytes))
  {
    hide Carried, WithoutFirst, Quiet, Feed, Keys;
    CarryTyped(x.line, x.bh.inband, x.clear, bytes);
  }

  /** A move of either end, apart from reading, after a fall. */
  lemma FellGrows(x: Station, x': Station, subX: seq<Frame>, subX': seq<Frame>, y: Station, y': Station,
                  subY: seq<Frame>, subY': seq<Frame>)
    requires Fell(x, subX, y, subY) && (x' == x || Grown(x, x')) && (y' == y || Grown(y, y'))
    requires x'.pos == x.pos && x'.scan == x.scan && y'.pos == y.pos && y'.scan == y.scan
    requires x'.bh == x.bh.(inband := x'.bh.inband) && y'.bh == y.bh.(inband := y'.bh.inband)
    requires x.bh.inband <= x'.bh.inband && y.bh.inband <= y'.bh.inband
    requires subX' == subX + x'.bh.inband[|x.bh.inband|..] && subY' == subY + y'.bh.inband[|y.bh.inband|..]
    ensures Fell(x', subX', y', subY')
  {
    FellParts(x, subX, y, subY);
    hide Tapped, Fallen, Feed;
    if x' != x { TappedStays(y, x, x'); }
    if y' != y { TappedStays(x, y, y'); }
    TappedMoves(x, x', y');
    TappedMoves(y, y', x');
    GrownLength(x, y, y');
    hide Grown, Heard;
    FallenStays(x.bh, x'.bh, subX, subX', y.bh, y'.bh, subY, subY', HeardBy(x, y), HeardBy(x, y), y.clear, y'.clear);
  }

  function HeardBy(x: Station, y: Station): seq<Frame>
    requires x.pos <= |y.line|
  {
    Heard(x, y).output.events
  }

  /** The wire into a station depends on how far it has read. */
  lemma TappedMoves(x: Station, x': Station, y: Station)
    requires Tapped(x, y) && x'.pos == x.pos && x'.scan == x.scan
    ensures Tapped(x', y) && x.pos <= |y.line| && Heard(x', y) == Heard(x, y)
  {
    hide Carried, WithoutFirst, Quiet, Feed;
  }

  lemma GrownLength(x: Station, y: Station, y': Station)
    requires Tapped(x, y) && (y' == y || Grown(y, y'))
    ensures y.clear <= y'.clear && |y'.clear| == |y'.bh.inband|
  {
    CarriedLength(y.line, y.bh.inband, y.clear);
    if y' != y { CarriedLength(y'.line, y'.bh.inband, y'.clear); }
    hide Carried, WithoutFirst, Quiet, Feed;
  }

  /** Reading after a fall, by either end: it is handed at most what it hears. */
  lemma FellReads(x: Station, subX: seq<Frame>, y: Station, subY: seq<Frame>, n: nat)
    requires Fell(x, subX, y, subY)
    ensures x.pos + n <= |y.line| ==> Fell(ReadChunk(x, y, n), subX, y, subY)
    ensures y.pos + n <= |x.line| ==> Fell(x, subX, ReadChunk(y, x, n), subY)
  {
    FellParts(x, subX, y, subY);
    if x.pos + n <= |y.line| { ListenerReads(x, subX, y, subY, n); }
    if y.pos + n <= |x.line| { WriterReads(x, subX, y, subY, n); }
  }

  /** A reading end that is in-band for good writes nothing. */
  lemma FailedReads(y: Station, x: Station, n: nat)
    requires Tapped(y, x) && Tapped(x, y) && x.bh.phase == Failed && x.pos + n <= |y.line|
    ensures var x', more := ReadChunk(x, y, n), Feed(x.scan, y.line[x.pos..x.pos + n]).output.events;
            && Grown(x, x') && x'.bh == x.bh.(got := x'.bh.got) && Weight(x'.bh.got) <= Weight(x.bh.got) + Weight(more)
            && x'.bh.inband == x.bh.inband
  {
    var more := Feed(x.scan, y.line[x.pos..x.pos + n]).output.events;
    FailedHearsAll(x.bh, more);
    QuietKept(y, x);
    hide Tapped, ReadChunk, Dispatched, Feed, Quiet, Grown, Weight;
    ReadGrown(y, x, n);
    ReadChunkIs(x, y, n);
  }

  lemma ListenerReads(x: Station, subX: seq<Frame>, y: Station, subY: seq<Frame>, n: nat)
    requires Fell(x, subX, y, subY) && x.pos + n <= |y.line|
    ensures Fell(ReadChunk(x, y, n), subX, y, subY)
  {
    FellParts(x, subX, y, subY);
    var x', more := ReadChunk(x, y, n), Feed(x.scan, y.line[x.pos..x.pos + n]).output.events;
    hide Tapped, Fallen, Feed, ReadChunk, Grown, Weight;
    FailedReads(y, x, n);
    ReadTapped(x, y, n);
    TappedStays(y, x, x');
    GrownLength(x, y, y);
    WeightAppend(HeardBy(x, y), more);
    hide Heard;
    assert subX + [] == subX && subY + [] == subY;
    FallenStays(x.bh, x'.bh, subX, subX, y.bh, y.bh, subY, subY, HeardBy(x, y), HeardBy(x', y), y.clear, y.clear);
  }

  lemma WriterReads(x: Station, subX: seq<Frame>, y: Station, subY: seq<Frame>, n: nat)
    requires Fell(x, subX, y, subY) && y.pos + n <= |x.line|
    ensures Fell(x, subX, ReadChunk(y, x, n), subY)
  {
    FellParts(x, subX, y, subY);
    var y' := ReadChunk(y, x, n);
    hide Tapped, Fallen, Feed, ReadChunk, Weight;
    FailedReads(x, y, n);
    ReadTapped(y, x, n);
    TappedStays(x, y, y');
    GrownLength(x, y, y');
    hide Heard, Grown;
    FallenStays(x.bh, x.bh, subX, subX, y.bh, y'.bh, subY, subY, HeardBy(x, y), HeardBy(x, y), y.clear, y'.clear);
  }

  /** Fallen once, fallen for good. */
  lemma FellMoves(codec: Codec, x: Station, subX: seq<Frame>, y: Station, subY: seq<Frame>, m: Move)
    requires Fell(x, subX, y, subY)
    requires m.Types? ==> Keys(x.line, m.bytes)
    ensures Fell(MoveOne(codec, x, y, m), MoveSub(subX, m), y, subY)
  {
    FellParts(x, subX, y, subY);
    FallenInband(x.bh, subX, y.bh, subY, HeardBy(x, y), y.clear);
    hide Fell, Fallen, Tapped, Feed, StepOne, Becomes, ReadChunk, Keys;
    assert subY + [] == subY && subX + [] == subX;
    match m
    case Does(e) =>
      FellDoes(codec, x, y, subX, e);
      BecomesPos(x, StepOne(codec, x.bh, y.bh, e));
      GrownInband(x, MoveOne(codec, x, y, m));
      hide Grown;
      FellGrows(x, MoveOne(codec, x, y, m), subX, MoveSub(subX, m), y, y, subY, subY);
    case Types(_, bytes) =>
      TypesGrown(y, x, bytes);
      hide Grown;
      FellGrows(x, x.(line := x.line + bytes), subX, subX, y, y, subY, subY);
    case Reads(_, n) => FellReads(x, subX, y, subY, n);
  }

  lemma BecomesPos(x: Station, bh: State)
    ensures Becomes(x, bh).pos == x.pos && Becomes(x, bh).scan == x.scan
  {
  }

  lemma GrownInband(x: Station, x': Station)
    requires Grown(x, x')
    ensures x.bh.inband <= x'.bh.inband
  {
    hide Carried, WithoutFirst, Quiet;
  }

  lemma FallenInband(x: State, subX: seq<Frame>, y: State, subY: seq<Frame>, heard: seq<Frame>, clearY: seq<bool>)
    requires Fallen(x, subX, y, subY, heard, clearY)
    ensures x.inband != [] && y.inband != []
  {
    hide Pruned, Weight, AllClear;
  }

  lemma FellMovesWriter(codec: Codec, x: Station, subX: seq<Frame>, y: Station, subY: seq<Frame>, m: Move)
    requires Fell(x, subX, y, subY)
    requires m.Types? ==> Keys(y.line, m.bytes)
    ensures Fell(x, subX, MoveOne(codec, y, x, m), MoveSub(subY, m))
  {
    FellParts(x, subX, y, subY);
    FallenInband(x.bh, subX, y.bh, subY, HeardBy(x, y), y.clear);
    hide Fell, Fallen, Tapped, Feed, StepOne, Becomes, ReadChunk, Keys;
    assert subY + [] == subY && subX + [] == subX;
    match m
    case Does(e) =>
      FellDoes(codec, y, x, subY, e);
      BecomesPos(y, StepOne(codec, y.bh, x.bh, e));
      GrownInband(y, MoveOne(codec, y, x, m));
      hide Grown;
      FellGrows(x, x, subX, subX, y, MoveOne(codec, y, x, m), subY, MoveSub(subY, m));
    case Types(_, bytes) =>
      TypesGrown(x, y, bytes);
      hide Grown;
      FellGrows(x, x, subX, subX, y, y.(line := y.line + bytes), subY, subY);
    case Reads(_, n) => FellReads(x, subX, y, subY, n);
  }

  // ----- Whole runs -----

  lemma TypesKeeps(x: Station, x0: State, subX: seq<Frame>, readX: nat, y: Station, y0: State, subY: seq<Frame>,
                   readY: nat, bytes: seq<Byte>)
    requires Keys(x.line, bytes) && Listening(x, x0, y, subY, readX) && Listening(y, y0, x, subX, readY)
    ensures var x' := x.(line := x.line + bytes);
            Listening(x', x0, y, subY, readX) && Listening(y, y0, x', subX, readY)
  {
    ListeningParts(x, x0, y, subY, readX);
    ListeningParts(y, y0, x, subX, readY);
    hide Listening, Tapped, Matched, Feed, Keys;
    var x' := x.(line := x.line + bytes);
    TypesGrown(y, x, bytes);
    TappedMoves(x, x', y);
    hide Grown;
    ListeningWhole(x', x0, y, subY, readX);
    ListeningStays(y, y0, x, x', subX, subX, readY);
  }

  lemma MoveKeeps(codec: Codec, x: Station, x0: State, subX: seq<Frame>, readX: nat, y: Station, y0: State,
                  subY: seq<Frame>, readY: nat, m: Move) returns (x1: State, readX': nat)
    requires StreamingCodec(codec) && Joint(codec, x0, subX, readX, y0, subY, readY)
    requires (m.Does? ==> Proper(m.e)) && (m.Types? ==> Keys(x.line, m.bytes))
    requires Listening(x, x0, y, subY, readX) && Listening(y, y0, x, subX, readY)
    ensures var x' := MoveOne(codec, x, y, m);
            || Fell(x', MoveSub(subX, m), y, subY)
            || (Joint(codec, x1, MoveSub(subX, m), readX', y0, subY, readY)
                && Listening(x', x1, y, subY, readX') && Listening(y, y0, x', MoveSub(subX, m), readY))
  {
    x1, readX' := x0, readX;
    match m
    case Does(e) =>
      hide Joint, Listening, StepOne, Becomes, StreamingCodec, Proper;
      x1 := StepOne(codec, x0, y0, e);
      DoesKeeps(codec, x, x0, subX, readX, y, y0, subY, readY, e);
    case Types(_, bytes) =>
      hide Joint, Listening, Keys, StreamingCodec;
      TypesKeeps(x, x0, subX, readX, y, y0, subY, readY, bytes);
    case Reads(_, n) =>
      hide Joint, Listening, ReadChunk, Fell, StreamingCodec;
      if x.pos + n <= |y.line| {
        x1, readX' := ReadsKeeps(codec, x, x0, subX, readX, y, y0, subY, readY, n);
      }
  }

  lemma StepIdeal(codec: Codec, w: World, m: Move, a0: State, b0: State, readA: nat, readB: nat)
    requires StreamingCodec(codec) && Ideal(codec, w, a0, b0, readA, readB) && Allowed(w, m)
    ensures Inv(codec, Step(codec, w, m))
  {
    hide Joint, Listening, MoveOne, MoveSub, Keys, Proper, Fell, StreamingCodec;
    if Mover(m) == A {
      var a1, readA' := MoveKeeps(codec, w.a, a0, w.subA, readA, w.b, b0, w.subB, readB, m);
      assert Fell(Step(codec, w, m).a, Step(codec, w, m).subA, w.b, w.subB)
             || Ideal(codec, Step(codec, w, m), a1, b0, readA', readB);
    } else {
      JointSwap(codec, a0, w.subA, readA, b0, w.subB, readB);
      var b1, readB' := MoveKeeps(codec, w.b, b0, w.subB, readB, w.a, a0, w.subA, readA, m);
      var w' := Step(codec, w, m);
      if !Fell(w'.b, w'.subB, w'.a, w'.subA) {
        JointSwap(codec, b1, MoveSub(w.subB, m), readB', a0, w.subA, readA);
        assert Ideal(codec, w', a0, b1, readA, readB');
      }
    }
  }

  lemma StepFell(codec: Codec, w: World, m: Move)
    requires Allowed(w, m)
    ensures Fell(w.a, w.subA, w.b, w.subB) ==> var w' := Step(codec, w, m); Fell(w'.a, w'.subA, w'.b, w'.subB)
    ensures Fell(w.b, w.subB, w.a, w.subA) ==> var w' := Step(codec, w, m); Fell(w'.b, w'.subB, w'.a, w'.subA)
  {
    hide MoveOne, MoveSub, Keys, Proper, Fell;
    if Fell(w.a, w.subA, w.b, w.subB) {
      if Mover(m) == A { FellMoves(codec, w.a, w.subA, w.b, w.subB, m); }
      else { FellMovesWriter(codec, w.a, w.subA, w.b, w.subB, m); }
    }
    if Fell(w.b, w.subB, w.a, w.subA) {
      if Mover(m) == A { FellMovesWriter(codec, w.b, w.subB, w.a, w.subA, m); }
      else { FellMoves(codec, w.b, w.subB, w.a, w.subA, m); }
    }
  }

  lemma StepInv(codec: Codec, w: World, m: Move)
    requires StreamingCodec(codec) && Inv(codec, w) && Allowed(w, m)
    ensures Inv(codec, Step(codec, w, m))
  {
    hide Ideal, Fell, Step, Allowed, StreamingCodec;
    StepFell(codec, w, m);
    if a0, b0, readA, readB :| Ideal(codec, w, a0, b0, readA, readB) {
      StepIdeal(codec, w, m, a0, b0, readA, readB);
    }
  }

  lemma StartInv(codec: Codec, i: Setup)
    requires StreamingCodec(codec)
    ensures Inv(codec, Start(i))
  {
    var w := Start(i);
    StartJoint(codec, i.nowA, i.nowB, i.ctlA, i.ctlB);
    NothingCarried();
    FeedNothing(IDLE);
    hide Joint, Carried, WithoutFirst, Feed;
    assert w.a.line[..0] == [] && w.b.line[..0] == [];
    assert Ideal(codec, w, w.a.bh, w.b.bh, 0, 0);
  }

  lemma {:induction false} RunInv(codec: Codec, i: Setup, ms: seq<Move>)
    requires StreamingCodec(codec) && AllAllowed(codec, i, ms)
    ensures Inv(codec, Run(codec, i, ms))
    ensures Run(codec, i, ms).subA == Submitted(ms, A) && Run(codec, i, ms).subB == Submitted(ms, B)
  {
    hide Inv, MoveOne, Start, Allowed;
    if ms == [] {
      StartInv(codec, i);
      StartSub(i);
    } else {
      RunInv(codec, i, ms[..|ms| - 1]);
      StepInv(codec, Run(codec, i, ms[..|ms| - 1]), ms[|ms| - 1]);
    }
  }

  lemma StartSub(i: Setup)
    ensures Start(i).subA == [] && Start(i).subB == []
  {
  }
}
