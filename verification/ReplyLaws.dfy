/**
 What the wrapper answers and what clients are handed, in every run over every tree: the same texts in
 the same order, up to a close or a lost connection, and a one-shot its first reply alone.
 */
module ReplyLaws {
  import opened Bytes
  import opened Routing
  import opened RoutingTree
  import opened RoutingOrder
  import opened RoutingReplies

  // ----- What was answered -----

  /** What the wrapper answered to requests it heard under `q`, in order. */
  function AnsweredUnder(nodes: set<Node>, events: seq<Event>, q: nat): seq<seq<Byte>>
    decreases |events|
  {
    if events == [] then []
    else
      var init, e := events[..|events| - 1], events[|events| - 1];
      var w := Run(nodes, init);
      AnsweredUnder(nodes, init, q)
      + if e.Answers? && CanAnswer(w, e.cause, e.text) && w.seats[TOP].sent[e.cause].frame.id == q then [e.text] else []
  }

  /** What the wrapper answered to the requests of `k`, in order. */
  function AnsweredFor(nodes: set<Node>, events: seq<Event>, k: Talk): seq<seq<Byte>>
    decreases |events|
  {
    if events == [] then []
    else
      var init, e := events[..|events| - 1], events[|events| - 1];
      var w := Run(nodes, init);
      AnsweredFor(nodes, init, k)
      + if e.Answers? && CanAnswer(w, e.cause, e.text) && w.seats[TOP].sent[e.cause].talk == k then [e.text] else []
  }

  /** What the client of `k` has been handed for that talk, in order. */
  function GotTexts(got: seq<Got>, k: Talk): seq<seq<Byte>> {
    if got == [] then []
    else
      var g := got[|got| - 1];
      GotTexts(got[..|got| - 1], k) + if g.node == k.node && g.client == k.client && g.id == k.id then [g.text] else []
  }

  /** Only the wrapper's answers come down to the top. */
  lemma TopDown(w: World, e: Event)
    requires Inv(w)
    ensures TOP in w.seats && TOP in Step(w, e).seats
    ensures Step(w, e).seats[TOP].down
            == w.seats[TOP].down
               + if e.Answers? && CanAnswer(w, e.cause, e.text)
                 then [Answer(Frame(w.seats[TOP].sent[e.cause].frame.id, e.text), e.cause,
                              w.seats[TOP].sent[e.cause].frame.id)]
                 else []
  {
    hide HandleReply, HandleLine, BuildRoute, Closing, Drop, ParseRoute, Clean, Lookup;
    assert w.seats[TOP].down + [] == w.seats[TOP].down;
    if e.Descends? { assert forall h: Handle :: |e.n + [h]| > 0; }
  }

  lemma {:induction false} AnsweredDown(nodes: set<Node>, events: seq<Event>, q: nat)
    requires Tree(nodes)
    ensures TOP in Run(nodes, events).seats
    ensures Under(Run(nodes, events).seats[TOP].down, q) == AnsweredUnder(nodes, events, q)
    decreases |events|
  {
    if events == [] {
      assert Under([], q) == [];
    } else {
      var init, e := events[..|events| - 1], events[|events| - 1];
      var w := Run(nodes, init);
      AnsweredDown(nodes, init, q);
      RunInv(nodes, init);
      TopDown(w, e);
      hide Step, Inv, CanAnswer;
      var log := w.seats[TOP].down;
      assert log + [] == log && Under(log, q) + [] == Under(log, q);
      if e.Answers? && CanAnswer(w, e.cause, e.text) {
        var id := w.seats[TOP].sent[e.cause].frame.id;
        UnderNext(log, Answer(Frame(id, e.text), e.cause, id), q);
      }
    }
  }

  // ----- In order, each once -----

  lemma {:induction false} NonEmptyPrefix(a: seq<seq<Byte>>, b: seq<seq<Byte>>)
    requires a <= b
    ensures NonEmpty(a) <= NonEmpty(b)
    decreases |b|
  {
    if |a| < |b| {
      NonEmptyPrefix(a, b[..|b| - 1]);
    } else {
      assert a == b;
    }
  }

  /** What ought to come out for answers `texts` under `q`: all, or the first if `q` opened no tunnel. */
  function Owed(w: World, q: nat, texts: seq<seq<Byte>>): seq<seq<Byte>> {
    if TOP in w.seats && q in w.seats[TOP].made && !w.seats[TOP].made[q].persistent then First(texts) else texts
  }

  lemma DuePrefix(r: Route, texts: seq<seq<Byte>>, all: seq<seq<Byte>>)
    requires texts <= all
    ensures var whole := if r.persistent then all else First(all);
            Due(r, texts) <= if r.inner.Some? then whole else NonEmpty(whole)
  {
    NonEmptyPrefix(if r.persistent then texts else First(texts), if r.persistent then all else First(all));
  }

  /** Persistence goes down: below a tunnel's route there are tunnel's routes. */
  lemma {:induction false} PersistentBelow(w: World, n: Node, q: nat)
    requires Replies(w) && Trail(w, n, q).Some?
    ensures TOP in w.seats && q in w.seats[TOP].made
    ensures w.seats[TOP].made[q].persistent ==> w.seats[n].made[Trail(w, n, q).value].persistent
    decreases |n|
  {
    if n != TOP {
      PersistentBelow(w, Parent(n), q);
      assert Linked(w, Parent(n), Trail(w, Parent(n), q).value);
      assert Parent(n) + [Conduit(n)] == n;
    }
  }

  /** What reaches a mux is the beginning of what was due from its parent. */
  lemma DownStep(w: World, p: Node, n: Node, q: nat, r: Route)
    requires Trail(w, p, q).Some? && FlowAt(w, p, q) && p in w.seats && n in w.seats
    requires Trail(w, p, q).value in w.seats[p].made && r == w.seats[p].made[Trail(w, p, q).value]
    requires r.inner.Some? && p + [r.to] == n
    ensures var texts := Under(w.seats[p].down, q);
            Under(w.seats[n].down, q) <= if r.persistent then texts else First(texts)
  {
    hide Trail, Under, Due;
    var s := w.seats[p];
    UnderPrefix(s.down, s.read, q);
    DuePrefix(r, Under(s.down[..s.read], q), Under(s.down, q));
  }

  /** ... and so of what was owed for what came down to the top. */
  lemma {:induction false} DownPrefix(w: World, n: Node, q: nat)
    requires Replies(w) && Trail(w, n, q).Some?
    ensures TOP in w.seats && n in w.seats
    ensures n != TOP ==> Under(w.seats[n].down, q) <= Owed(w, q, Under(w.seats[TOP].down, q))
    decreases |n|
  {
    hide Replies, FlowAt, Under;
    PersistentBelow(w, n, q);
    if n != TOP {
      var p := Parent(n);
      DownPrefix(w, p, q);
      PersistentBelow(w, p, q);
      FlowingIn(w, p, q);
      DownStep(w, p, n, q, w.seats[p].made[Trail(w, p, q).value]);
    }
  }

  /** Whatever was handed over for `q` came under a local route. */
  lemma HandedLocally(w: World, n: Node, q: nat)
    requires Replies(w) && Handed(w.got, n, q) != []
    ensures Trail(w, n, q).Some? && w.seats[n].made[Trail(w, n, q).value].inner == None
  {
    if g :| g in w.got && g.node == n && g.root == q {
      assert GotPlaced(w, g);
    } else {
      NoneHanded(w.got, n, q);
    }
  }

  /** What a client is handed is the beginning of what was due from its mux. */
  lemma HandedStep(w: World, n: Node, q: nat, r: Route)
    requires Trail(w, n, q).Some? && FlowAt(w, n, q) && n in w.seats
    requires Trail(w, n, q).value in w.seats[n].made && r == w.seats[n].made[Trail(w, n, q).value] && r.inner.None?
    ensures var texts := Under(w.seats[n].down, q);
            Handed(w.got, n, q) <= NonEmpty(if r.persistent then texts else First(texts))
  {
    hide Trail, Under, Due;
    var s := w.seats[n];
    UnderPrefix(s.down, s.read, q);
    DuePrefix(r, Under(s.down[..s.read], q), Under(s.down, q));
  }

  /**
   For every tree, every run and every id the wrapper hears requests under: what a client is handed
   for it is the beginning of what the wrapper answered under it, in order, empty answers left out;
   and if the request opened no tunnel, of its first answer alone.
   */
  lemma RepliesInOrder(nodes: set<Node>, events: seq<Event>, n: Node, q: nat)
    requires Tree(nodes)
    ensures var w := Run(nodes, events);
            Handed(w.got, n, q) <= NonEmpty(Owed(w, q, AnsweredUnder(nodes, events, q)))
  {
    var w := Run(nodes, events);
    RunReplies(nodes, events);
    AnsweredDown(nodes, events, q);
    hide Run, AnsweredUnder, Replies, FlowAt, Under, Inv;
    if Handed(w.got, n, q) != [] {
      HandedLocally(w, n, q);
      FlowingIn(w, n, q);
      DownPrefix(w, n, q);
      PersistentBelow(w, n, q);
      var r, texts := w.seats[n].made[Trail(w, n, q).value], Under(w.seats[n].down, q);
      HandedStep(w, n, q, r);
      NonEmptyPrefix(if r.persistent then texts else First(texts), Owed(w, q, Under(w.seats[TOP].down, q)));
    }
  }

  // ----- Everything arrives -----

  /** Every mux on the way to `n` has read all that came down to it, for `q` and otherwise. */
  ghost predicate AllRead(w: World, n: Node) {
    forall m: nat | m <= |n| :: n[..m] in w.seats && w.seats[n[..m]].read == |w.seats[n[..m]].down|
  }

  /** No conduit on the way to `n` is gone, and every tunnel's route on it is there. */
  ghost predicate Whole(w: World, n: Node, q: nat) {
    forall m: nat {:trigger n[..m]} | m < |n| ::
      && (n[..m], n[m]) !in w.gone
      && Trail(w, n[..m], q).Some? && n[..m] in w.seats
      && var id := Trail(w, n[..m], q).value;
         id in w.seats[n[..m]].made && (w.seats[n[..m]].made[id].persistent ==> id in w.seats[n[..m]].table.routes)
  }

  lemma WholeAbove(w: World, n: Node, q: nat)
    requires n != TOP && Whole(w, n, q) && AllRead(w, n)
    ensures Whole(w, Parent(n), q) && AllRead(w, Parent(n))
    ensures var p := Parent(n);
            && p in w.seats && w.seats[p].read == |w.seats[p].down| && (p, Conduit(n)) !in w.gone
            && Trail(w, p, q).Some?
            && var id := Trail(w, p, q).value;
               id in w.seats[p].made && (w.seats[p].made[id].persistent ==> id in w.seats[p].table.routes)
  {
    hide Trail;
    var p := Parent(n);
    assert n[..|n| - 1] == p;
    assert forall m: nat | m <= |p| :: n[..m] == p[..m];
  }

  /** All read and nothing lost between: what reaches a mux is what was due from its parent. */
  lemma AllStep(w: World, p: Node, n: Node, q: nat, r: Route)
    requires Trail(w, p, q).Some? && FlowAt(w, p, q) && p in w.seats && n in w.seats
    requires Trail(w, p, q).value in w.seats[p].made && r == w.seats[p].made[Trail(w, p, q).value]
    requires r.inner.Some? && p + [r.to] == n
    requires w.seats[p].read == |w.seats[p].down| && (p, r.to) !in w.gone
    requires r.persistent ==> Trail(w, p, q).value in w.seats[p].table.routes
    ensures Under(w.seats[n].down, q)
            == if r.persistent then Under(w.seats[p].down, q) else First(Under(w.seats[p].down, q))
  {
    hide Trail, Under, NonEmpty;
    var s := w.seats[p];
    assert s.down[..s.read] == s.down;
  }

  /** With everything read and nothing lost on the way, the mux at `n` has been sent all it was owed. */
  lemma {:induction false} AllDown(w: World, n: Node, q: nat)
    requires Replies(w) && Trail(w, n, q).Some? && AllRead(w, n) && Whole(w, n, q)
    ensures TOP in w.seats && n in w.seats
    ensures n != TOP ==> Under(w.seats[n].down, q) == Owed(w, q, Under(w.seats[TOP].down, q))
    decreases |n|
  {
    hide Replies, FlowAt, Under, AllRead, Whole;
    PersistentBelow(w, n, q);
    if n != TOP {
      var p := Parent(n);
      WholeAbove(w, n, q);
      AllDown(w, p, q);
      FlowingIn(w, p, q);
      PersistentBelow(w, p, q);
      AllStep(w, p, n, q, w.seats[p].made[Trail(w, p, q).value]);
    }
  }

  /**
   Once every mux on the way has read what came down to it, with no connection on the way gone and
   every tunnel's route in place, the client has been handed every answer under `q` that is not empty;
   under an id that opened no tunnel, the first answer alone.
   */
  lemma RepliesArrive(nodes: set<Node>, events: seq<Event>, n: Node, q: nat)
    requires Tree(nodes)
    requires var w := Run(nodes, events);
             && Trail(w, n, q).Some? && AllRead(w, n) && Whole(w, n, q) && n in w.seats
             && var id := Trail(w, n, q).value;
                id in w.seats[n].made
                && var r := w.seats[n].made[id];
                   r.inner == None && (n, r.to) !in w.gone
    ensures var w := Run(nodes, events);
            Handed(w.got, n, q) == NonEmpty(Owed(w, q, AnsweredUnder(nodes, events, q)))
  {
    var w := Run(nodes, events);
    RunReplies(nodes, events);
    AnsweredDown(nodes, events, q);
    hide Run, AnsweredUnder;
    AllDown(w, n, q);
    PersistentBelow(w, n, q);
    FlowingIn(w, n, q);
    var s, id := w.seats[n], Trail(w, n, q).value;
    assert MuxOk(w, n);
    assert n[..|n|] == n;
    assert s.down[..s.read] == s.down;
    hide Replies, Inv, AllRead, Whole, Trail, Under, Known, NonEmpty;
  }
}
