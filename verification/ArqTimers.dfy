/** Retransmission timing: round-trip estimation, backoff, fast retransmit and the poll timeout. */
module ArqTimers {
  import opened Bytes
  import opened Arq
  import opened ArqNetwork

  predicate InRange(t: Timer) { RTO_MIN <= t.rto <= RTO_MAX && t.srtt >= 0 && t.rttvar >= 0 }

  /** Every event of the run happens at or before `clock`. */
  predicate NotAfter(e: Event, clock: int) {
    (e.Send? || e.Recv? || e.Tick?) ==> e.now <= clock
  }

  ghost predicate Timely(s: State, clock: int) {
    InRange(s.timer) && forall i | 0 <= i < |s.unacked| :: s.unacked[i].sentMs <= clock
  }

  lemma {:induction false} FillTimely(s: State, now: int, clock: int)
    requires Timely(s, clock) && now <= clock
    ensures Timely(FillWindow(s, now), clock)
    ensures var s' := FillWindow(s, now);
            s'.unacked != [] ==> if s.unacked != [] then s'.unacked[0] == s.unacked[0] else s'.unacked[0].sentMs == now
    decreases |s.pending|
  {
    if s.CanFill() { FillTimely(FillOne(s, now), now, clock); }
  }

  lemma {:induction false} DropTimely(s: State, ack: nat, now: int, clock: int)
    requires Timely(s, clock)
    ensures Timely(DropAcked(s, ack, now), clock)
    decreases |s.unacked|
  {
    if s.unacked != [] && s.unacked[0].End() <= ack {
      var t := if s.unacked[0].xmits == 1 then RttUpdate(s.timer, now - s.unacked[0].sentMs) else s.timer;
      DropTimely(s.(unacked := s.unacked[1..], timer := t), ack, now, clock);
    }
  }

  lemma {:induction false} DrainSender(s: State)
    ensures ReceiverOnly(s, DrainReorder(s))
    decreases |s.reorder|
  {
    var i := FirstHit(s.reorder, s.rcvNxt);
    if i < |s.reorder| { DrainSender(DrainOne(s, i)); }
  }

  lemma AbsorbSender(s: State, body: Body)
    requires !body.Control?
    ensures ReceiverOnly(s, Absorb(s, body))
  {
    if body.Data? {
      if body.off <= s.rcvNxt < body.off + |body.data| {
        DrainSender(Extend(s, body.data[s.rcvNxt - body.off..]));
      }
    }
  }

  lemma EndTimely(x: End, net: set<Datagram>, e: Event, clock: int)
    requires Timely(x.arq, clock) && NotAfter(e, clock)
    ensures Timely(StepEnd(x, net, e).arq, clock)
  {
    match e
    case Send(_, data, now) => FillTimely(x.arq.(pending := x.arq.pending + data), now, clock);
    case Recv(_, d, now) =>
      if From(d, x.arq.rxSalt) {
        DropTimely(x.arq, d.body.ack, now, clock);
        var s := ProcessAck(x.arq, d.body.ack, now);
        AbsorbSender(s, d.body);
        FillTimely(Absorb(s, d.body), now, clock);
      }
    case Tick(_, now) => FillTimely(HeadTimer(x.arq, now), now, clock);
    case Poll(_) =>
    case Take(_) =>
  }

  /** `rto` stays within [100, 8000] in every run, and no segment claims to be from the future. */
  lemma {:induction false} RunTimely(es: seq<Event>, clock: int)
    requires forall i | 0 <= i < |es| :: NotAfter(es[i], clock)
    ensures Timely(Run(Start(), es).a.arq, clock) && Timely(Run(Start(), es).b.arq, clock)
  {
    if es != [] {
      var w := Run(Start(), es[..|es| - 1]);
      var e := es[|es| - 1];
      RunTimely(es[..|es| - 1], clock);
      EndTimely(if e.side == A then w.a else w.b, w.net, e, clock);
    }
  }

  /** After a timer tick the next timeout is never zero: a poll loop cannot spin. */
  lemma TickThenWait(s: State, now: int)
    requires InRange(s.timer)
    ensures NextTimeout(Arq.Tick(s, now), now) > 0
  {
    var clock := LatestOf(s.unacked, now);
    FillTimely(HeadTimer(s, now), now, clock);
    FillSameTimer(HeadTimer(s, now), now);
  }

  lemma {:induction false} FillSameTimer(s: State, now: int)
    ensures FillWindow(s, now).timer == s.timer
    decreases |s.pending|
  {
    if s.CanFill() { FillSameTimer(FillOne(s, now), now); }
  }

  ghost function LatestOf(us: seq<Segment>, now: int): (t: int)
    ensures now <= t && forall i | 0 <= i < |us| :: us[i].sentMs <= t
  {
    if us == [] then now else Max(us[0].sentMs, LatestOf(us[1..], now))
  }

  // ----- Which round trips are measured, and what the estimate is -----

  /** How many head segments a cumulative ack covers. */
  function Covered(us: seq<Segment>, ack: nat): (k: nat)
    ensures k <= |us|
  {
    if us == [] || us[0].End() > ack then 0 else 1 + Covered(us[1..], ack)
  }

  /** The measured round trips: of the segments sent exactly once. */
  function Sampled(us: seq<Segment>, now: int): seq<int> {
    if us == [] then []
    else (if us[0].xmits == 1 then [now - us[0].sentMs] else []) + Sampled(us[1..], now)
  }

  function Estimate(t: Timer, samples: seq<int>): Timer {
    if samples == [] then t else RttUpdate(Estimate(t, samples[..|samples| - 1]), samples[|samples| - 1])
  }

  lemma {:induction false} EstimateCons(t: Timer, m: int, samples: seq<int>)
    ensures Estimate(t, [m] + samples) == Estimate(RttUpdate(t, m), samples)
  {
    var all := [m] + samples;
    if samples == [] {
      assert all[..0] == [];
    } else {
      assert all[..|all| - 1] == [m] + samples[..|samples| - 1];
      EstimateCons(t, m, samples[..|samples| - 1]);
    }
  }

  lemma NoSamples(t: Timer, now: int)
    ensures Estimate(t, Sampled([], now)) == t
  {
  }

  lemma EstimateHead(t: Timer, us: seq<Segment>, now: int)
    requires us != []
    ensures var t' := if us[0].xmits == 1 then RttUpdate(t, now - us[0].sentMs) else t;
            Estimate(t, Sampled(us, now)) == Estimate(t', Sampled(us[1..], now))
  {
    hide RttUpdate;
    var rest := Sampled(us[1..], now);
    EstimateCons(t, now - us[0].sentMs, rest);
    assert [] + rest == rest;
  }

  /** Karn's rule: an ack drops exactly the covered segments and times exactly those sent once. */
  lemma {:induction false} DropTimesOnce(s: State, ack: nat, now: int)
    ensures var k := Covered(s.unacked, ack);
            DropAcked(s, ack, now)
              == s.(unacked := s.unacked[k..], timer := Estimate(s.timer, Sampled(s.unacked[..k], now)))
    decreases |s.unacked|
  {
    hide RttUpdate, Sampled, Estimate;
    var k := Covered(s.unacked, ack);
    if s.unacked != [] && s.unacked[0].End() <= ack {
      var head, tail := s.unacked[0], s.unacked[1..];
      var t := if head.xmits == 1 then RttUpdate(s.timer, now - head.sentMs) else s.timer;
      DropTimesOnce(s.(unacked := tail, timer := t), ack, now);
      EstimateHead(s.timer, s.unacked[..k], now);
      assert s.unacked[..k][1..] == tail[..k - 1];
      assert s.unacked[k..] == tail[k - 1..];
    } else {
      NoSamples(s.timer, now);
    }
  }

  /** The smoothed estimate never leaves the range of the (clamped) samples, so never returns to 0. */
  lemma {:induction false} EstimateWithinSamples(samples: seq<int>, lo: int, hi: int)
    requires forall i | 0 <= i < |samples| :: lo <= Max(samples[i], 1) <= hi
    ensures var t := Estimate(Timer(0, 0, RTO_MIN), samples);
            InRange(t) && (if samples == [] then t.srtt == 0 else 1 <= t.srtt && lo <= t.srtt <= hi)
  {
    if samples != [] { EstimateWithinSamples(samples[..|samples| - 1], lo, hi); }
  }

  // ----- When the timer is due, and how it backs off -----

  /** A poll loop that waits as long as it is told wakes exactly when the oldest segment is due, and no earlier. */
  lemma DueExactly(s: State, now: int, t: int)
    requires s.unacked != [] && now <= t
    ensures Expired(s, t) <==> t >= now + NextTimeout(s, now)
  {
  }

  datatype Waited = Waited(s: State, now: int)

  /** `n` times the endpoint waits as long as it is told, and its timer fires. */
  function Waits(s: State, now: int, n: nat): Waited {
    if n == 0 then Waited(s, now)
    else
      var before := Waits(s, now, n - 1);
      var due := before.now + NextTimeout(before.s, before.now);
      Waited(Arq.Tick(before.s, due), due)
  }

  function Pow2(n: nat): (p: nat)
    ensures p >= 1
  {
    if n == 0 then 1 else 2 * Pow2(n - 1)
  }

  lemma FiresAtDue(s: State, now: int)
    requires s.unacked != [] && InRange(s.timer)
    ensures var due := now + NextTimeout(s, now);
            var s' := Arq.Tick(s, due);
            && s'.unacked != [] && s'.timer == s.timer.(rto := Min(RTO_MAX, 2 * s.timer.rto))
            && s'.unacked[0] == s.unacked[0].(xmits := s.unacked[0].xmits + 1, sentMs := due)
  {
    var due := now + NextTimeout(s, now);
    var s1 := HeadTimer(s, due);
    var clock := LatestOf(s.unacked, due);
    DueExactly(s, now, due);
    FillTimely(s1, due, clock);
    FillSameTimer(s1, due);
    FillKeepsSome(s1, due);
    hide FillWindow, LatestOf;
  }

  lemma {:induction false} FillKeepsSome(s: State, now: int)
    requires s.unacked != []
    ensures FillWindow(s, now).unacked != []
    decreases |s.pending|
  {
    if s.CanFill() { FillKeepsSome(FillOne(s, now), now); }
  }

  lemma DoubleAgain(rto: int, p: nat)
    requires rto >= 0
    ensures Min(RTO_MAX, 2 * Min(RTO_MAX, rto * p)) == Min(RTO_MAX, rto * (2 * p))
  {
    assert rto * (2 * p) == 2 * (rto * p);
  }

  /**
   While nothing is acknowledged, the oldest segment is sent again each time it is due, and each time the
   timeout doubles, up to eight seconds.
   */
  lemma {:induction false} TimeoutDoubles(s: State, now: int, n: nat)
    requires s.unacked != [] && InRange(s.timer)
    ensures var w := Waits(s, now, n);
            && w.s.unacked != [] && InRange(w.s.timer)
            && w.s.timer.rto == Min(RTO_MAX, s.timer.rto * Pow2(n))
            && w.s.unacked[0].off == s.unacked[0].off && w.s.unacked[0].data == s.unacked[0].data
            && w.s.unacked[0].xmits == s.unacked[0].xmits + n
            && (n > 0 ==> NextTimeout(w.s, w.now) == w.s.timer.rto)
  {
    if n > 0 {
      TimeoutDoubles(s, now, n - 1);
      var before := Waits(s, now, n - 1);
      FiresAtDue(before.s, before.now);
      DoubleAgain(s.timer.rto, Pow2(n - 1));
      hide Arq.Tick;
    }
  }

  // ----- The estimate follows a steady round trip -----

  /** One sample: the estimate goes an eighth of the way to it, the variation a quarter of the way to the error. */
  lemma EighthOfTheWay(t: Timer, sample: int)
    requires t.srtt > 0
    ensures var m, t' := Max(sample, 1), RttUpdate(t, sample);
            && 8 * (t'.srtt - t.srtt) <= m - t.srtt < 8 * (t'.srtt - t.srtt) + 8
            && 4 * t'.rttvar <= 3 * t.rttvar + Abs(m - t.srtt) < 4 * t'.rttvar + 4
            && t'.rto == Max(RTO_MIN, Min(RTO_MAX, t'.srtt + 4 * t'.rttvar))
  {
  }

  /**
   Within its limits, no timeout is more than 3 ms shorter than the round trip last measured, and the first
   one measured gives a timeout of three times itself, to within 2 ms.
   */
  lemma TimeoutCovers(t: Timer, sample: int)
    requires t.srtt >= 0 && t.rttvar >= 0
    ensures RttUpdate(t, sample).rto >= Min(RTO_MAX, Max(RTO_MIN, sample - 3))
    ensures var m, t' := Max(sample, 1), RttUpdate(t, sample);
            t.srtt == 0 ==>
              t'.srtt == m && Max(RTO_MIN, Min(RTO_MAX, 3 * m - 2)) <= t'.rto <= Max(RTO_MIN, Min(RTO_MAX, 3 * m))
  {
    if t.srtt > 0 { EighthOfTheWay(t, sample); }
  }

  function Steady(m: int, n: nat): seq<int> { seq(n, _ => m) }

  lemma SteadyNext(t: Timer, m: int, n: nat)
    requires n > 0
    ensures Estimate(t, Steady(m, n)) == RttUpdate(Estimate(t, Steady(m, n - 1)), m)
  {
    assert Steady(m, n)[..n - 1] == Steady(m, n - 1);
  }

  /** Sample by sample, a steady round trip draws the estimate nearer by at least one until it is within 7. */
  lemma {:induction false} EstimateNears(t: Timer, m: int, n: nat)
    requires t.srtt > 0 && t.rttvar >= 0 && m >= 1
    ensures var t', d := Estimate(t, Steady(m, n)), Abs(t.srtt - m);
            && t'.srtt > 0 && t'.rttvar >= 0 && t'.rttvar <= Max(t.rttvar, d) && Abs(t'.srtt - m) <= d
            && (m - 7 <= t'.srtt <= m || Abs(t'.srtt - m) + n <= d)
  {
    hide RttUpdate;
    if n > 0 {
      EstimateNears(t, m, n - 1);
      SteadyNext(t, m, n);
      EighthOfTheWay(Estimate(t, Steady(m, n - 1)), m);
    }
  }

  /** Once it is within 7, the variation falls to at most 7 too. */
  lemma {:induction false} VariationFalls(t: Timer, m: int, n: nat)
    requires t.srtt > 0 && t.rttvar >= 0 && m >= 1 && m - 7 <= t.srtt <= m
    ensures var t' := Estimate(t, Steady(m, n));
            t'.srtt > 0 && m - 7 <= t'.srtt <= m && 0 <= t'.rttvar && (t'.rttvar <= 7 || t'.rttvar + n <= t.rttvar)
  {
    hide RttUpdate;
    if n > 0 {
      VariationFalls(t, m, n - 1);
      SteadyNext(t, m, n);
      EighthOfTheWay(Estimate(t, Steady(m, n - 1)), m);
    }
  }

  lemma NoneSteady(t: Timer, m: int)
    ensures Estimate(t, Steady(m, 0)) == t
  {
  }

  lemma {:induction false} EstimateParts(t: Timer, m: int, a: nat, b: nat)
    ensures Estimate(t, Steady(m, a + b)) == Estimate(Estimate(t, Steady(m, a)), Steady(m, b))
    decreases b
  {
    hide RttUpdate, Estimate;
    if b == 0 {
      NoneSteady(Estimate(t, Steady(m, a)), m);
    } else {
      EstimateParts(t, m, a, b - 1);
      SteadyNext(t, m, a + b);
      SteadyNext(Estimate(t, Steady(m, a)), m, b);
    }
  }

  lemma TimeoutFollows(t: Timer, m: int, n: nat)
    requires t.srtt > 0 && t.rttvar >= 0 && m >= 1 && n > 0
    ensures var t' := Estimate(t, Steady(m, n)); t'.rto == Max(RTO_MIN, Min(RTO_MAX, t'.srtt + 4 * t'.rttvar))
  {
    hide RttUpdate, Estimate, Steady;
    SteadyNext(t, m, n);
    EstimateNears(t, m, n - 1);
    EighthOfTheWay(Estimate(t, Steady(m, n - 1)), m);
  }

  /**
   A steady round trip: whatever was measured before, after enough samples the estimate is within 7 ms of it
   and the timeout at most 28 ms above it, as far as the limits allow.
   */
  lemma SettlesOnSteady(t: Timer, m: int, n: nat)
    requires t.srtt > 0 && t.rttvar >= 0 && m >= 1 && n >= 2 * Abs(t.srtt - m) + t.rttvar
    ensures var t' := Estimate(t, Steady(m, n));
            && m - 7 <= t'.srtt <= m && 0 <= t'.rttvar <= 7
            && (n > 0 ==> Max(RTO_MIN, Min(RTO_MAX, m - 7)) <= t'.rto <= Max(RTO_MIN, Min(RTO_MAX, m + 28)))
  {
    hide RttUpdate, Estimate, Steady;
    var d: nat := Abs(t.srtt - m);
    var b: nat := n - d;
    EstimateNears(t, m, d);
    EstimateParts(t, m, d, b);
    VariationFalls(Estimate(t, Steady(m, d)), m, b);
    if n > 0 { TimeoutFollows(t, m, n); }
  }
}
