/**
 What clients of a tree of muxes can count on, in every run: replies come to who asked, one-shots once,
 requests go up in order and word for word, and a tunnel keeps its id for as long as it can.
 */
module RoutingLaws {
  import opened Bytes
  import ApcFrames
  import opened Routing
  import opened RoutingTree
  import opened RoutingOrder

  // ----- The right client, and a one-shot only once -----

  /**
   For every tree and every run: a reply handed to a client answers a request the wrapper heard, and
   that request is one of that very client's.
   */
  lemma RightClient(nodes: set<Node>, events: seq<Event>, g: Got)
    requires Tree(nodes) && g in Run(nodes, events).got
    ensures var w := Run(nodes, events);
            && TOP in w.seats && g.cause < w.seats[TOP].taken <= |w.seats[TOP].sent|
            && var talk := w.seats[TOP].sent[g.cause].talk;
               talk.node == g.node && talk.client == g.client && talk.id == g.id
  {
    RunInv(nodes, events);
    InOrder(Run(nodes, events), TOP);
    assert GotOk(Run(nodes, events), g);
  }

  /** Two replies to one request of a client: only if the request opened a tunnel. */
  lemma OneShotOnce(nodes: set<Node>, events: seq<Event>, i: nat, j: nat)
    requires Tree(nodes) && i < j < |Run(nodes, events).got|
    requires var w := Run(nodes, events); w.got[i].node == w.got[j].node && w.got[i].id == w.got[j].id
    ensures Heard(Run(nodes, events), Run(nodes, events).got[i].cause,
                  Talk(Run(nodes, events).got[i].node, Run(nodes, events).got[i].id,
                       Run(nodes, events).got[i].client, true))
  {
    RunInv(nodes, events);
  }

  // ----- In order, each once, under one id -----

  lemma {:induction false} Upward(w: World, c: Node)
    requires Ordered(w) && c in w.seats
    ensures forall m: nat | m <= |c| :: c[..m] in w.seats
    decreases |c|
  {
    if c != TOP { Upward(w, Parent(c)); }
    forall m: nat | m <= |c|
      ensures c[..m] in w.seats
    {
      if m < |c| { assert c[..m] == Parent(c)[..m]; } else { assert c[..m] == c; }
    }
  }

  lemma {:induction false} PassedAlong(w: World, n: nat, k: Talk)
    requires Ordered(w) && k.node in w.seats && n <= |k.node|
    ensures k.node[..n] in w.seats && Texts(w.seats[k.node[..n]].sent, k) <= Texts(w.seats[k.node].sent, k)
    decreases |k.node| - n
  {
    Upward(w, k.node);
    if n == |k.node| {
      assert k.node[..n] == k.node;
    } else {
      var c := k.node[..n + 1];
      PassedAlong(w, n + 1, k);
      assert Parent(c) == k.node[..n] && c <= k.node;
      assert EdgeAt(w, c, k);
      Beginning(w.seats[c].sent, w.seats[c].taken, k);
    }
  }

  /** Every mux from the talk's own up to, but not including, the one at depth `n` has had all it sent taken. */
  ghost predicate Relayed(w: World, k: Talk, n: nat) {
    forall m: nat {:trigger k.node[..m]} | n < m <= |k.node| ::
      k.node[..m] in w.seats && w.seats[k.node[..m]].taken == |w.seats[k.node[..m]].sent|
  }

  lemma {:induction false} AllPassed(w: World, n: nat, k: Talk)
    requires Ordered(w) && k.node in w.seats && n <= |k.node| && Relayed(w, k, n)
    ensures k.node[..n] in w.seats && Texts(w.seats[k.node[..n]].sent, k) == Texts(w.seats[k.node].sent, k)
    decreases |k.node| - n
  {
    Upward(w, k.node);
    if n == |k.node| {
      assert k.node[..n] == k.node;
    } else {
      var c := k.node[..n + 1];
      AllPassed(w, n + 1, k);
      assert Parent(c) == k.node[..n] && c <= k.node;
      assert EdgeAt(w, c, k);
      assert w.seats[c].sent[..w.seats[c].taken] == w.seats[c].sent;
    }
  }

  /**
   For every run: what the wrapper has heard of a client's talk, and what any mux on the way has
   passed on, is a beginning of what the talk's own mux sent for that client, in the same order; and
   all of it once every mux on the way has had all it sent taken.
   */
  lemma HeardInOrder(nodes: set<Node>, events: seq<Event>, n: nat, k: Talk)
    requires Tree(nodes) && k.node in Run(nodes, events).seats && n <= |k.node|
    ensures var w := Run(nodes, events);
            && k.node[..n] in w.seats && TOP in w.seats && w.seats[TOP].taken <= |w.seats[TOP].sent|
            && Texts(w.seats[k.node[..n]].sent, k) <= Texts(w.seats[k.node].sent, k)
            && Texts(w.seats[TOP].sent[..w.seats[TOP].taken], k) <= Texts(w.seats[k.node].sent, k)
    ensures var w := Run(nodes, events);
            && (Relayed(w, k, n) ==> Texts(w.seats[k.node[..n]].sent, k) == Texts(w.seats[k.node].sent, k))
            && (Relayed(w, k, 0) && w.seats[TOP].taken == |w.seats[TOP].sent| ==>
                  Texts(w.seats[TOP].sent[..w.seats[TOP].taken], k) == Texts(w.seats[k.node].sent, k))
  {
    var w := Run(nodes, events);
    RunOrdered(nodes, events);
    InOrder(w, TOP);
    PassedAlong(w, n, k);
    PassedAlong(w, 0, k);
    assert k.node[..0] == TOP;
    hide Run, Ordered, Inv, Texts, Relayed, Tidy, SeatOk;
    Beginning(w.seats[TOP].sent, w.seats[TOP].taken, k);
    if Relayed(w, k, n) { AllPassed(w, n, k); }
    if Relayed(w, k, 0) { AllPassed(w, 0, k); }
    assert w.seats[TOP].taken == |w.seats[TOP].sent| ==> w.seats[TOP].sent[..w.seats[TOP].taken] == w.seats[TOP].sent;
  }

  /** A one-shot request reaches the wrapper at most once, however frames interleave. */
  lemma OneShotHeardOnce(nodes: set<Node>, events: seq<Event>, k: Talk)
    requires Tree(nodes) && k.node in Run(nodes, events).seats && !k.tunnel
    ensures var w := Run(nodes, events);
            && TOP in w.seats && w.seats[TOP].taken <= |w.seats[TOP].sent|
            && |Texts(w.seats[TOP].sent[..w.seats[TOP].taken], k)| <= 1
  {
    HeardInOrder(nodes, events, 0, k);
    RunOrdered(nodes, events);
    assert Orderly(Run(nodes, events).seats[k.node], k.node);
    assert LogOk(Run(nodes, events).seats[k.node].sent, Run(nodes, events).seats[k.node].table.routes, k.node, k);
  }

  lemma {:induction false} SteadyAt(log: seq<Entry>, k: Talk, j: nat)
    requires j < |log| && Steady(log, k) && log[j].talk == k && !Closed(log[..j], k)
    ensures Lead(log, k) == Some(log[j].frame.id)
  {
    Beginning(log, j + 1, k);
    assert log[..j + 1] == log[..j] + [log[j]];
    Appended(log[..j], log[j], k);
  }

  /** At every mux, all frames of a tunnel up to and including its first close bear one id. */
  lemma TunnelKeepsItsId(nodes: set<Node>, events: seq<Event>, n: Node, k: Talk, i: nat, j: nat)
    requires Tree(nodes) && n in Run(nodes, events).seats && k.tunnel
    requires var log := Run(nodes, events).seats[n].sent;
             i < |log| && j < |log| && log[i].talk == log[j].talk == k && !Closed(log[..i], k) && !Closed(log[..j], k)
    ensures var log := Run(nodes, events).seats[n].sent; log[i].frame.id == log[j].frame.id
  {
    RunOrdered(nodes, events);
    var log := Run(nodes, events).seats[n].sent;
    assert Orderly(Run(nodes, events).seats[n], n);
    assert LogOk(Run(nodes, events).seats[n].sent, Run(nodes, events).seats[n].table.routes, n, k);
    SteadyAt(log, k, i);
    SteadyAt(log, k, j);
  }

  lemma OpensFirst(log: seq<Entry>, k: Talk, i: nat, j: nat)
    requires i < j < |log| && Proper(log, k) && log[i].talk == log[j].talk == k
    ensures !StartsWith(log[j].frame.inner, TUN)
  {
    hide StartsWith;
    Beginning(log, j + 1, k);
    assert log[..j + 1][..j] == log[..j];
    LeadIs(log[..j], k);
    assert log[i] in log[..j];
  }

  /** In every run a frame that opens a tunnel goes up under an id that no earlier frame of that mux bore. */
  lemma OpensAnew(nodes: set<Node>, events: seq<Event>, n: Node, i: nat, j: nat)
    requires Tree(nodes) && n in Run(nodes, events).seats
    requires var log := Run(nodes, events).seats[n].sent; i < j < |log| && StartsWith(log[j].frame.inner, TUN)
    ensures var log := Run(nodes, events).seats[n].sent; log[i].frame.id != log[j].frame.id
  {
    RunOrdered(nodes, events);
    RunInv(nodes, events);
    var s := Run(nodes, events).seats[n];
    InOrder(Run(nodes, events), n);
    assert Orderly(s, n);
    assert EntryTidy(s.owner, s.sent[i]) && EntryTidy(s.owner, s.sent[j]);
    var k := s.sent[j].talk;
    assert LogOk(s.sent, s.table.routes, n, k);
    hide Run, Inv, StartsWith;
    if s.sent[i].frame.id == s.sent[j].frame.id { OpensFirst(s.sent, k, i, j); }
  }

  ghost predicate OneId(log: seq<Entry>, k: Talk) {
    forall i, j | 0 <= i < |log| && 0 <= j < |log| && log[i].talk == k && log[j].talk == k ::
      log[i].frame.id == log[j].frame.id
  }

  /** No frame for `k` follows one that closed it. */
  ghost predicate CloseIsLast(log: seq<Entry>, k: Talk) {
    forall j | 0 <= j < |log| && log[j].talk == k :: !Closed(log[..j], k)
  }

  lemma PartedAt(log: seq<Entry>, k: Talk, j: nat)
    requires j < |log| && Parted(log, k) && log[j].talk == k && Closed(log[..j], k)
    ensures Lead(log, k).Some? && Lead(log, k).value != log[j].frame.id
  {
    Beginning(log, j + 1, k);
    Beginning(log, j, k);
    ClosedHasLead(log[..j], k);
    assert log[..j + 1] == log[..j] + [log[j]];
    Appended(log[..j], log[j], k);
  }

  lemma {:induction false} OneIdOfLog(log: seq<Entry>, k: Talk)
    requires Steady(log, k) && Parted(log, k)
    ensures OneId(log, k) <==> CloseIsLast(log, k)
  {
    LeadIs(log, k);
    forall j | 0 <= j < |log| && log[j].talk == k
      ensures if Closed(log[..j], k) then Lead(log, k).Some? && Lead(log, k).value != log[j].frame.id
              else Lead(log, k) == Some(log[j].frame.id)
    {
      if Closed(log[..j], k) { PartedAt(log, k, j); } else { SteadyAt(log, k, j); }
    }
    if Lead(log, k).Some? {
      var e :| e in log && e.talk == k && e.frame.id == Lead(log, k).value;
      var i :| 0 <= i < |log| && log[i] == e;
    }
    hide Lead, Closed, Steady, Parted;
  }

  /**
   All frames of a tunnel bear one id at its own mux always, and at every mux above exactly as long
   as no frame of it follows its closing frame.
   */
  lemma OneIdExactly(nodes: set<Node>, events: seq<Event>, n: Node, k: Talk)
    requires Tree(nodes) && n in Run(nodes, events).seats && k.tunnel
    ensures var log := Run(nodes, events).seats[n].sent;
            OneId(log, k) <==> n == k.node || CloseIsLast(log, k)
  {
    var w := Run(nodes, events);
    RunOrdered(nodes, events);
    var s := w.seats[n];
    InOrder(w, n);
    assert Orderly(s, n);
    if n == k.node {
      forall i | 0 <= i < |s.sent| && s.sent[i].talk == k
        ensures s.sent[i].frame.id == k.id
      {
        assert EntryTidy(s.owner, s.sent[i]);
      }
    } else {
      assert LogOk(s.sent, s.table.routes, n, k);
      OneIdOfLog(s.sent, k);
    }
  }

  // A tunnel that does not keep one id: its client closes it and then goes away, which closes it
  // again, one mux up under a new id.

  const DEEP: Node := [5]
  const OPENING: seq<Byte> := TUN + [100, 105, 97, 108, 58, 104, 58, 49] // "TUN:dial:h:1"
  const SPLIT_DOWN: seq<Event> := [Says(DEEP, 3, OPENING)] + [Says(DEEP, 3, TUN_CLOSE)] + [Leaves(DEEP, 3)]
  const SPLIT_RUN: seq<Event> := SPLIT_DOWN + [Climbs(DEEP)] + [Climbs(DEEP)] + [Climbs(DEEP)]
  const SPLIT: Talk := Talk(DEEP, 1, 3, true)

  function Two(top: Seat, deep: Seat, gone: set<(Node, Handle)>): World {
    World(map[TOP := top, DEEP := deep], gone, [])
  }

  lemma OpeningText()
    ensures StartsWith(OPENING, TUN) && !StartsWith(OPENING, TUN_CLOSE)
    ensures !StartsWith(TUN_CLOSE, TUN) && StartsWith(TUN_CLOSE, TUN_CLOSE) && ParseRoute(TUN_CLOSE) == None
  {
    assert OPENING[..|TUN|] == TUN;
    OpenIsNoClose(OPENING);
    CloseIsNoOpen();
    assert TUN_CLOSE[0] == 84;
  }

  lemma OpeningClean()
    ensures Clean(OPENING) && Clean(TUN_CLOSE)
  {
    assert forall i | 0 <= i < |OPENING| :: 32 <= OPENING[i] < 127 && OPENING[i] != 92;
    assert forall i | 0 <= i < |TUN_CLOSE| :: 32 <= TUN_CLOSE[i] < 127 && TUN_CLOSE[i] != 92;
    ApcFrames.QuietIsSafe(OPENING);
    ApcFrames.QuietIsSafe(TUN_CLOSE);
  }

  const IDLE_SEAT: Seat := Seat(Fresh(), map[], map[], [], 0, [], 0)

  /** The deep mux once the client has opened its tunnel, said `more` and gone, `taken` frames of it relayed. */
  function Deep(routes: map<nat, Route>, tunnels: map<Handle, nat>, sent: seq<Entry>, taken: nat): Seat {
    Seat(Table(routes, 2, tunnels), map[1 := SPLIT], map[1 := Route(3, None, true)], sent, taken, [], 0)
  }

  const OPENED: Entry := Entry(Frame(1, OPENING), SPLIT, false)
  const CLOSED: Entry := Entry(Frame(1, TUN_CLOSE), SPLIT, false)
  const GONE: Entry := Entry(Frame(1, TUN_CLOSE), SPLIT, true)

  lemma SplitSays()
    ensures Say(IDLE_SEAT, DEEP, 3, OPENING) == Deep(map[1 := Route(3, None, true)], map[3 := 1], [OPENED], 0)
    ensures var s := Deep(map[1 := Route(3, None, true)], map[3 := 1], [OPENED], 0);
            Say(s, DEEP, 3, TUN_CLOSE) == s.(sent := [OPENED, CLOSED])
  {
    OpeningText();
    hide ParseRoute;
  }

  lemma SplitLeaves()
    ensures var s := Deep(map[1 := Route(3, None, true)], map[3 := 1], [OPENED, CLOSED], 0);
            Leave(s, 3) == Deep(map[], map[], [OPENED, CLOSED, GONE], 0)
  {
    var s := Deep(map[1 := Route(3, None, true)], map[3 := 1], [OPENED, CLOSED], 0);
    assert Dead(s.table, 3, 2) == [] && Dead(s.table, 3, 1) == [];
    assert Closing(s.table, 3) == [1] && [1][..0] == [];
    assert Closers(s.owner, [1]) == [] + [GONE];
    assert map[1 := Route(3, None, true)] - {1} == map[];
    assert map[3 := 1] - {3} == map[];
  }

  /** The mux above, once it has opened the tunnel, and once it has closed it. */
  lemma SplitOpens()
    ensures var s := Hear(IDLE_SEAT, 5, OPENED);
            && s.table == Table(map[1 := Route(5, Some(1), true)], 2, map[]) && s.owner == map[1 := SPLIT]
            && s.sent == [OPENED]
  {
    OpeningText();
    RelayLine(Fresh(), 5, OPENED.frame);
  }

  lemma SplitCloses(s: Seat)
    requires s.table == Table(map[1 := Route(5, Some(1), true)], 2, map[]) && s.owner == map[1 := SPLIT]
             && s.sent == [OPENED]
    ensures var s' := Hear(s, 5, CLOSED);
            s'.table == Table(map[], 2, map[]) && s'.owner == map[1 := SPLIT] && s'.sent == [OPENED, CLOSED]
  {
    OpeningText();
    RelayLine(s.table, 5, CLOSED.frame);
    assert Lookup(s.table, 5, 1, 1) == Some(1);
    assert map[1 := Route(5, Some(1), true)] - {1} == map[];
  }

  /** It opens under 1, closes under 1, and mints 2 for the second close. */
  lemma SplitHears()
    ensures var s1 := Hear(IDLE_SEAT, 5, OPENED);
            var s2 := Hear(s1, 5, CLOSED);
            Hear(s2, 5, GONE).sent == [OPENED, CLOSED, Entry(Frame(2, TUN_CLOSE), SPLIT, true)]
  {
    var s1 := Hear(IDLE_SEAT, 5, OPENED);
    var s2 := Hear(s1, 5, CLOSED);
    SplitOpens();
    SplitCloses(s1);
    RelayLine(s2.table, 5, GONE.frame);
    assert Lookup(s2.table, 5, 1, 2) == None;
    assert Lookup(s2.table, 5, 1, 1) == None;
    hide HandleLine;
  }

  lemma RunNext(nodes: set<Node>, events: seq<Event>, e: Event)
    ensures Run(nodes, events + [e]) == Step(Run(nodes, events), e)
  {
    assert (events + [e])[..|events|] == events;
  }

  lemma TwoStart()
    ensures Run({TOP, DEEP}, []) == Two(IDLE_SEAT, IDLE_SEAT, {})
  {
    assert Start({TOP, DEEP}).seats == map[TOP := IDLE_SEAT, DEEP := IDLE_SEAT];
  }

  lemma TwoPut(top: Seat, deep: Seat, deep': Seat, gone: set<(Node, Handle)>)
    ensures Put(Two(top, deep, gone), DEEP, deep') == Two(top, deep', gone)
  {
  }

  lemma TwoSays(deep: Seat, line: seq<Byte>)
    requires (3 in deep.table.tunnels || ParseRoute(line) == None) && Clean(line)
    ensures Step(Two(IDLE_SEAT, deep, {}), Says(DEEP, 3, line)) == Two(IDLE_SEAT, Say(deep, DEEP, 3, line), {})
  {
    hide Say, ParseRoute, Clean;
    TwoPut(IDLE_SEAT, deep, Say(deep, DEEP, 3, line), {});
    assert |DEEP + [3]| == 2 && |DEEP| == 1 && |TOP| == 0;
  }

  lemma TwoLeaves(deep: Seat)
    ensures Step(Two(IDLE_SEAT, deep, {}), Leaves(DEEP, 3)) == Two(IDLE_SEAT, Leave(deep, 3), {(DEEP, 3)})
  {
    hide Leave;
    TwoPut(IDLE_SEAT, deep, Leave(deep, 3), {});
    assert {} + {(DEEP, 3)} == {(DEEP, 3)};
  }

  lemma TwoClimbs(top: Seat, deep: Seat, gone: set<(Node, Handle)>)
    requires deep.taken < |deep.sent| && (TOP, 5) !in gone
    ensures Step(Two(top, deep, gone), Climbs(DEEP))
            == Two(Hear(top, 5, deep.sent[deep.taken]), Take(deep), gone)
  {
    hide Hear;
    assert Parent(DEEP) == TOP && Conduit(DEEP) == 5;
    assert |DEEP| == 1 && |TOP| == 0;
  }

  const DEEP_LEFT: Seat := Deep(map[], map[], [OPENED, CLOSED, GONE], 0)

  lemma SplitDown()
    ensures Run({TOP, DEEP}, SPLIT_DOWN) == Two(IDLE_SEAT, DEEP_LEFT, {(DEEP, 3)})
  {
    OpeningText();
    OpeningClean();
    assert ParseRoute(OPENING) == None by { assert OPENING[0] == 84; }
    SplitSays();
    SplitLeaves();
    hide Run, Step, Two, Say, Leave, ParseRoute, StartsWith, Clean;
    var nodes: set<Node> := {TOP, DEEP};
    var d1 := Deep(map[1 := Route(3, None, true)], map[3 := 1], [OPENED], 0);
    TwoStart();
    TwoSays(IDLE_SEAT, OPENING);
    RunNext(nodes, [], Says(DEEP, 3, OPENING));
    assert [] + [Says(DEEP, 3, OPENING)] == [Says(DEEP, 3, OPENING)];
    TwoSays(d1, TUN_CLOSE);
    RunNext(nodes, [Says(DEEP, 3, OPENING)], Says(DEEP, 3, TUN_CLOSE));
    TwoLeaves(d1.(sent := [OPENED, CLOSED]));
    RunNext(nodes, [Says(DEEP, 3, OPENING)] + [Says(DEEP, 3, TUN_CLOSE)], Leaves(DEEP, 3));
  }

  lemma SplitUp()
    ensures Run({TOP, DEEP}, SPLIT_RUN)
            == Two(Hear(Hear(Hear(IDLE_SEAT, 5, OPENED), 5, CLOSED), 5, GONE), Take(Take(Take(DEEP_LEFT))), {(DEEP, 3)})
  {
    SplitDown();
    hide Run, Step, Two, Hear;
    var nodes: set<Node> := {TOP, DEEP};
    var t1 := Hear(IDLE_SEAT, 5, OPENED);
    TwoClimbs(IDLE_SEAT, DEEP_LEFT, {(DEEP, 3)});
    RunNext(nodes, SPLIT_DOWN, Climbs(DEEP));
    TwoClimbs(t1, Take(DEEP_LEFT), {(DEEP, 3)});
    RunNext(nodes, SPLIT_DOWN + [Climbs(DEEP)], Climbs(DEEP));
    TwoClimbs(Hear(t1, 5, CLOSED), Take(Take(DEEP_LEFT)), {(DEEP, 3)});
    RunNext(nodes, SPLIT_DOWN + [Climbs(DEEP)] + [Climbs(DEEP)], Climbs(DEEP));
  }

  /** The run above splits the tunnel: the mux at the top sends its frames under 1, 1 and 2. */
  lemma TunnelSplits()
    ensures var w := Run({TOP, DEEP}, SPLIT_RUN);
            && TOP in w.seats && SPLIT.tunnel
            && w.seats[TOP].sent == [OPENED, CLOSED, Entry(Frame(2, TUN_CLOSE), SPLIT, true)]
            && !OneId(w.seats[TOP].sent, SPLIT)
  {
    SplitUp();
    SplitHears();
    hide Run, Two, Hear, OneId;
    TwoTop(Hear(Hear(Hear(IDLE_SEAT, 5, OPENED), 5, CLOSED), 5, GONE), Take(Take(Take(DEEP_LEFT))), {(DEEP, 3)});
    TwoIds([OPENED, CLOSED, Entry(Frame(2, TUN_CLOSE), SPLIT, true)]);
  }

  lemma TwoIds(log: seq<Entry>)
    requires |log| == 3 && log[0].talk == log[2].talk == SPLIT && log[0].frame.id != log[2].frame.id
    ensures !OneId(log, SPLIT)
  {
  }

  lemma TwoTop(top: Seat, deep: Seat, gone: set<(Node, Handle)>)
    ensures TOP in Two(top, deep, gone).seats && Two(top, deep, gone).seats[TOP] == top
  {
    assert |DEEP| == 1 && |TOP| == 0;
  }

  // ----- From the client's lines -----

  /** What the log says the client at `from` said. */
  function Spoken(log: seq<Entry>, n: Node, from: Handle): seq<seq<Byte>> {
    if log == [] then []
    else
      var e := log[|log| - 1];
      Spoken(log[..|log| - 1], n, from)
      + if e.talk.node == n && e.talk.client == from && !e.added then [e.frame.inner] else []
  }

  /** The lines the client at `from` has said to the mux at `n`, in order. */
  function Said(nodes: set<Node>, events: seq<Event>, n: Node, from: Handle): seq<seq<Byte>>
    decreases |events|
  {
    if events == [] then []
    else
      var init, e := events[..|events| - 1], events[|events| - 1];
      Said(nodes, init, n, from) + LineIn(Run(nodes, init), e, n, from)
  }

  lemma SpokenOne(log: seq<Entry>, e: Entry, n: Node, from: Handle)
    ensures Spoken(log + [e], n, from)
            == Spoken(log, n, from)
               + if e.talk.node == n && e.talk.client == from && !e.added then [e.frame.inner] else []
  {
    assert (log + [e])[..|log|] == log;
  }

  lemma {:induction false} SpokenClosers(log: seq<Entry>, owner: map<nat, Talk>, ids: seq<nat>, n: Node, from: Handle)
    ensures Spoken(log + Closers(owner, ids), n, from) == Spoken(log, n, from)
  {
    if ids == [] {
      assert log + [] == log;
    } else {
      var init, id := ids[..|ids| - 1], ids[|ids| - 1];
      SpokenClosers(log, owner, init, n, from);
      if id in owner {
        var e := Entry(Frame(id, TUN_CLOSE), owner[id], true);
        assert log + Closers(owner, ids) == (log + Closers(owner, init)) + [e];
        SpokenOne(log + Closers(owner, init), e, n, from);
      } else {
        assert Closers(owner, ids) == Closers(owner, init);
      }
    }
  }

  function LineIn(w: World, e: Event, n: Node, from: Handle): seq<seq<Byte>> {
    match e
    case Says(m, f, line) => if m == n && f == from && CanSay(w, m, f, line) then [line] else []
    case _ => []
  }

  lemma SpokenOwn(s: Seat, n: Node, f: Handle, line: seq<Byte>, from: Handle)
    requires Tidy(s, n) && Orderly(s, n) && (f in s.table.tunnels || ParseRoute(line) == None)
    ensures Spoken(Say(s, n, f, line).sent, n, from) == Spoken(s.sent, n, from) + if f == from then [line] else []
  {
    var x := SayOrderly(s, n, f, line);
    hide Say, Spoken, Tidy, Orderly, ParseRoute;
    SpokenOne(s.sent, x, n, from);
  }

  lemma SpokenSaying(w: World, m: Node, f: Handle, line: seq<Byte>, n: Node, from: Handle)
    requires Inv(w) && Ordered(w) && n in w.seats && CanSay(w, m, f, line)
    ensures var w' := Put(w, m, Say(w.seats[m], m, f, line));
            n in w'.seats && Spoken(w'.seats[n].sent, n, from)
                             == Spoken(w.seats[n].sent, n, from) + if m == n && f == from then [line] else []
  {
    hide Spoken, Say, ParseRoute, Orderly, Tidy;
    assert Spoken(w.seats[n].sent, n, from) + [] == Spoken(w.seats[n].sent, n, from);
    if m == n {
      InOrder(w, n);
      SpokenOwn(w.seats[n], n, f, line, from);
    }
  }

  lemma SpokenClimbing(w: World, c: Node, n: Node, from: Handle)
    requires Inv(w) && Ordered(w) && n in w.seats && CanClimb(w, c)
    ensures n in Climb(w, c).seats && Spoken(Climb(w, c).seats[n].sent, n, from) == Spoken(w.seats[n].sent, n, from)
  {
    ClimbPlaces(w, c);
    var x := ClimbOrderly(w, c);
    hide Inv, Ordered, Hear, Climb, EdgeOk, Orderly, Alike;
    if n == Parent(c) {
      assert x.talk == w.seats[c].sent[w.seats[c].taken].talk by { ClimbTalk(w, c, x); }
      SpokenOne(w.seats[n].sent, x, n, from);
      assert Spoken(w.seats[n].sent, n, from) + [] == Spoken(w.seats[n].sent, n, from);
    }
  }

  lemma ClimbTalk(w: World, c: Node, x: Entry)
    requires CanClimb(w, c)
    requires var e := w.seats[c].sent[w.seats[c].taken];
             Hear(w.seats[Parent(c)], Conduit(c), e).sent == w.seats[Parent(c)].sent + [x]
    ensures x.talk == w.seats[c].sent[w.seats[c].taken].talk
  {
    hide HandleLine;
    var p := w.seats[Parent(c)];
    var s' := Hear(p, Conduit(c), w.seats[c].sent[w.seats[c].taken]);
    assert s'.sent[|p.sent|] == x;
  }

  lemma SpokenLeaving(w: World, m: Node, f: Handle, n: Node, from: Handle)
    requires n in w.seats
    ensures n in Leaving(w, m, f).seats
    ensures Spoken(Leaving(w, m, f).seats[n].sent, n, from) == Spoken(w.seats[n].sent, n, from)
  {
    if m == n {
      hide Closing, Drop;
      SpokenClosers(w.seats[n].sent, w.seats[n].owner, Closing(w.seats[n].table, f), n, from);
    }
  }

  lemma SentUnchanged(w: World, e: Event, n: Node)
    requires n in w.seats && (e.Hears? || e.Answers? || e.Descends?)
    ensures n in Step(w, e).seats && Step(w, e).seats[n].sent == w.seats[n].sent
  {
    hide HandleReply, BuildRoute;
  }

  /** Only a client's own line adds to what it said. */
  lemma SpokenStep(w: World, e: Event, n: Node, from: Handle)
    requires Inv(w) && Ordered(w) && n in w.seats
    ensures n in Step(w, e).seats
    ensures Spoken(Step(w, e).seats[n].sent, n, from) == Spoken(w.seats[n].sent, n, from) + LineIn(w, e, n, from)
  {
    assert Spoken(w.seats[n].sent, n, from) + [] == Spoken(w.seats[n].sent, n, from);
    hide Inv, Ordered, Spoken, Climb, Leaving, Say, Put;
    match e
    case Says(m, f, line) => if CanSay(w, m, f, line) { SpokenSaying(w, m, f, line, n, from); }
    case Climbs(c) => if CanClimb(w, c) { SpokenClimbing(w, c, n, from); }
    case Leaves(m, f) => SpokenLeaving(w, m, f, n, from);
    case Hears => SentUnchanged(w, e, n);
    case Answers(_, _) => SentUnchanged(w, e, n);
    case Descends(_) => SentUnchanged(w, e, n);
  }

  lemma {:induction false} SameMuxes(nodes: set<Node>, events: seq<Event>)
    requires Tree(nodes)
    ensures Run(nodes, events).seats.Keys == nodes
    decreases |events|
  {
    if events != [] { SameMuxes(nodes, events[..|events| - 1]); }
  }

  /** What a mux has sent up for a client is what the client said to it, line for line. */
  lemma {:induction false} SentIsSaid(nodes: set<Node>, events: seq<Event>, n: Node, from: Handle)
    requires Tree(nodes) && n in nodes
    ensures n in Run(nodes, events).seats
    ensures Spoken(Run(nodes, events).seats[n].sent, n, from) == Said(nodes, events, n, from)
    decreases |events|
  {
    if events != [] {
      var init := events[..|events| - 1];
      SameMuxes(nodes, init);
      SentIsSaid(nodes, init, n, from);
      RunOrdered(nodes, init);
      hide Step, Inv, Ordered, LineIn;
      SpokenStep(Run(nodes, init), events[|events| - 1], n, from);
    }
  }
}
