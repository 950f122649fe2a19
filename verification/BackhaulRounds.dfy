/**
 Two backhauls whose datagrams get through, round by round: a timer at one end, what it wrote to its socket
 delivered, a timer at the other end, what that wrote delivered. Their heartbeats keep both up.
 */
module BackhaulRounds {
  import opened Bytes
  import opened Frames
  import Arq
  import Net = ArqNetwork
  import opened Backhaul
  import opened RevertNetwork

  datatype Duo = Duo(x: State, y: State)

  /** What has been written to the socket since. */
  function New(before: State, after: State): seq<Arq.Datagram> {
    if |before.wire| <= |after.wire| then after.wire[|before.wire|..] else []
  }

  /** `x` receives these datagrams, in order. */
  function Hears(codec: Codec, x: State, y: State, ds: seq<Arq.Datagram>, now: int): State {
    if ds == [] then x
    else StepOne(codec, Hears(codec, x, y, ds[..|ds| - 1], now), y, Datagram(A, ds[|ds| - 1], now))
  }

  function Round(codec: Codec, w: Duo, now: int): Duo {
    var x1 := StepOne(codec, w.x, w.y, Timer(A, now));
    var y1 := Hears(codec, w.y, x1, New(w.x, x1), now);
    var y2 := StepOne(codec, y1, x1, Timer(B, now));
    Duo(Hears(codec, x1, y2, New(w.y, y2), now), y2)
  }

  /** A round at each of these times. */
  function Rounds(codec: Codec, w: Duo, ts: seq<int>): Duo {
    if ts == [] then w else Round(codec, Rounds(codec, w, ts[..|ts| - 1]), ts[|ts| - 1])
  }

  function Last(from: int, ts: seq<int>): int { if ts == [] then from else ts[|ts| - 1] }

  /** From one time to the next it is at least `lo` and at most `hi`. */
  predicate Paced(from: int, ts: seq<int>, lo: int, hi: int) {
    ts == [] || (Paced(from, ts[..|ts| - 1], lo, hi) && lo <= ts[|ts| - 1] - Last(from, ts[..|ts| - 1]) <= hi)
  }

  // ----- What one event leaves as it was -----

  lemma {:induction false} PruneShape(s: State)
    ensures var s' := Prune(s); s' == s.(sent := s'.sent, txBase := s'.txBase)
    decreases |s.sent|
  {
    if s.sent != [] && s.sent[0].end <= s.arq.SndUna() {
      PruneShape(s.(sent := s.sent[1..], txBase := s.txBase + 1));
    }
  }

  /** Settling writes out the queue and takes the inbox; the rest of the `Arq` and the clocks stay. */
  lemma SettleShape(codec: Codec, s: State)
    ensures var s' := Settle(codec, s);
            && s'.arq == s.arq.(outq := [], inbox := []) && s'.wire == s.wire + s.arq.outq
            && s'.phase == s.phase && s'.lastRx == s.lastRx && s'.nextHb == s.nextHb && s'.ctlSeq == s.ctlSeq
            && s'.inband == s.inband && s'.chunks == s.chunks
  {
    PruneShape(Flush(s));
    DeliverFrame(codec, Prune(Flush(s)));
    hide Prune, Deliver;
  }

  predicate Alive(s: State, now: int) { s.phase == Up && now - s.lastRx <= DEAD_MS }

  /** A timer on a path that is alive: a heartbeat if one is due, and whatever the `Arq` has to say. */
  lemma TickShape(codec: Codec, s: State, now: int)
    requires Alive(s, now)
    ensures var s', due := Tick(codec, s, now), now >= s.nextHb;
            var q := Arq.Tick(s.arq, now);
            var ping := Arq.Sealed(s.arq.txSalt, s.ctlSeq, Arq.Control(CTL_PING));
            && s'.phase == Up && s'.lastRx == s.lastRx && s'.inband == s.inband && s'.chunks == s.chunks
            && s'.nextHb == (if due then now + HB_MS else s.nextHb)
            && s'.arq == q.(outq := [], inbox := [])
            && s'.wire == s.wire + (if due then [ping] else []) + q.outq
  {
    var s1 := Heartbeat(s, now);
    SettleShape(codec, s1.(arq := Arq.Tick(s1.arq, now)));
    hide Settle, Arq.Tick;
    assert s.wire + [] == s.wire;
  }

  /** A datagram at an end that is up. */
  lemma HearShape(codec: Codec, x: State, y: State, d: Arq.Datagram, now: int)
    requires x.phase == Up && d in y.wire
    ensures var x', q := StepOne(codec, x, y, Datagram(A, d, now)), Arq.OnPacket(x.arq, d, now);
            && x'.phase == Up && x'.lastRx == now && x'.inband == x.inband && x'.chunks == x.chunks
            && x'.nextHb == x.nextHb && x'.arq == q.(outq := [], inbox := []) && x'.wire == x.wire + q.outq
  {
    SettleShape(codec, x.(lastRx := now, arq := Arq.OnPacket(x.arq, d, now)));
    hide Settle, Arq.OnPacket;
    assert d in Network(x, y);
  }

  /** Datagrams one after another. */
  lemma {:induction false} HearsShape(codec: Codec, x: State, y: State, ds: seq<Arq.Datagram>, now: int)
    requires x.phase == Up && forall d | d in ds :: d in y.wire
    ensures var x' := Hears(codec, x, y, ds, now);
            && x'.phase == Up && x'.inband == x.inband && x'.chunks == x.chunks && x'.nextHb == x.nextHb
            && x'.lastRx == (if ds == [] then x.lastRx else now) && x.wire <= x'.wire
  {
    if ds != [] {
      var init := ds[..|ds| - 1];
      HearsShape(codec, x, y, init, now);
      HearShape(codec, Hears(codec, x, y, init, now), y, ds[|ds| - 1], now);
      hide StepOne, Arq.OnPacket;
    }
  }

  lemma NewIn(before: State, after: State)
    ensures forall d | d in New(before, after) :: d in after.wire
  {
  }

  // ----- Heartbeats -----

  /** Each has heard the other's last heartbeat, and will send the next within the heartbeat interval. */
  predicate Awake(w: Duo, t: int) {
    && w.x.phase == Up && w.y.phase == Up
    && t < w.x.nextHb <= t + HB_MS && t < w.y.nextHb <= t + HB_MS
    && w.x.lastRx >= w.y.nextHb - HB_MS && w.y.lastRx >= w.x.nextHb - HB_MS
  }

  /** Both paths are alive, and whoever sends no heartbeat at `now` has had its last one heard. */
  predicate Ready(w: Duo, now: int) {
    && Alive(w.x, now) && Alive(w.y, now)
    && w.x.nextHb <= now + HB_MS && w.y.nextHb <= now + HB_MS
    && (now < w.x.nextHb ==> w.y.lastRx >= w.x.nextHb - HB_MS)
    && (now < w.y.nextHb ==> w.x.lastRx >= w.y.nextHb - HB_MS)
  }

  lemma AwakeReady(w: Duo, t: int, now: int)
    requires Awake(w, t) && 0 <= now - t <= DEAD_MS - HB_MS
    ensures Ready(w, now)
  {
  }

  /** The four events of a round. */
  lemma RoundShape(codec: Codec, w: Duo, now: int)
    requires Ready(w, now)
    ensures var x1 := StepOne(codec, w.x, w.y, Timer(A, now));
            var y1 := Hears(codec, w.y, x1, New(w.x, x1), now);
            var y2 := StepOne(codec, y1, x1, Timer(B, now));
            && x1.phase == Up && y1.phase == Up && y2.phase == Up && Alive(y1, now)
            && w.x.wire <= x1.wire && w.y.wire <= y1.wire <= y2.wire
            && Round(codec, w, now) == Duo(Hears(codec, x1, y2, New(w.y, y2), now), y2)
    ensures var w' := Round(codec, w, now);
            && Awake(w', now) && w'.x.inband == w.x.inband && w'.y.inband == w.y.inband
            && w'.x.chunks == w.x.chunks && w'.y.chunks == w.y.chunks
  {
    hide Arq.Tick, Hears, Tick;
    var x1 := StepOne(codec, w.x, w.y, Timer(A, now));
    TickShape(codec, w.x, now);
    NewIn(w.x, x1);
    var y1 := Hears(codec, w.y, x1, New(w.x, x1), now);
    HearsShape(codec, w.y, x1, New(w.x, x1), now);
    var y2 := StepOne(codec, y1, x1, Timer(B, now));
    TickShape(codec, y1, now);
    NewIn(w.y, y2);
    HearsShape(codec, x1, y2, New(w.y, y2), now);
  }

  /** Heartbeats that get through keep both up, however little else is said, and nothing goes in-band. */
  lemma {:induction false} StayUp(codec: Codec, w: Duo, t: int, ts: seq<int>)
    requires Awake(w, t) && Paced(t, ts, 0, DEAD_MS - HB_MS)
    ensures var w' := Rounds(codec, w, ts);
            Awake(w', Last(t, ts)) && w'.x.inband == w.x.inband && w'.y.inband == w.y.inband
  {
    if ts != [] {
      var init := ts[..|ts| - 1];
      StayUp(codec, w, t, init);
      AwakeReady(Rounds(codec, w, init), Last(t, init), ts[|ts| - 1]);
      RoundShape(codec, Rounds(codec, w, init), ts[|ts| - 1]);
      hide Round, Awake, Ready;
    }
  }

  /** So two ends whose paths have come up at one time stay up. */
  lemma StartAwake(now: int, ctlX: nat, ctlY: nat)
    ensures Awake(Duo(Init(Net.SALT_A, Net.SALT_B, now, ctlX), Init(Net.SALT_B, Net.SALT_A, now, ctlY)), now)
  {
  }
}
