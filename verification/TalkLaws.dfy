/**
 What the client of a tunnel or of a one-shot request is handed of what the wrapper answers to it, and
 how the frames of the tree cross its conduits.
 */
module TalkLaws {
  import opened Bytes
  import opened Text
  import opened Apc
  import opened ApcFrames
  import opened ApcLaws
  import opened Routing
  import opened RoutingTree
  import opened RoutingOrder
  import RoutingLaws
  import opened RoutingReplies
  import opened ReplyLaws

  // ----- A talk and its id at the top -----

  /** All frames of `k` in the log bear the id `q`. */
  ghost predicate Sole(log: seq<Entry>, k: Talk, q: nat) { forall e | e in log && e.talk == k :: e.frame.id == q }

  ghost predicate TopOwns(w: World, q: nat, k: Talk) {
    TOP in w.seats && q in w.seats[TOP].made && OwnedAt(w, TOP, q, k)
  }

  lemma MuxFacts(w: World, n: Node)
    requires Inv(w) && Replies(w) && n in w.seats
    ensures Tidy(w.seats[n], n) && w.seats[n].made.Keys == w.seats[n].owner.Keys
  {
    InOrder(w, n);
    assert MuxOk(w, n);
    hide Tidy, Inv, Stamped, OnceSent, Spent;
  }

  lemma BelowOwner(s: Seat, n: Node, id: nat)
    requires Tidy(s, n) && id in s.owner
    ensures n <= s.owner[id].node
  {
  }

  /** One hop of the trail toward the mux where the request was made. */
  lemma TrailOn(w: World, k: Talk, q: nat, m: nat)
    requires Inv(w) && Replies(w) && m < |k.node| && Trail(w, k.node[..m], q).Some?
    requires OwnedAt(w, k.node[..m], Trail(w, k.node[..m], q).value, k)
    ensures Trail(w, k.node[..m + 1], q).Some? && OwnedAt(w, k.node[..m + 1], Trail(w, k.node[..m + 1], q).value, k)
    ensures w.seats[k.node[..m]].made[Trail(w, k.node[..m], q).value]
            == Route(k.node[m], Trail(w, k.node[..m + 1], q),
                     w.seats[k.node[..m]].made[Trail(w, k.node[..m], q).value].persistent)
  {
    var n, id := k.node[..m], Trail(w, k.node[..m], q).value;
    var r := w.seats[n].made[id];
    assert Linked(w, n, id);
    assert n != k.node;
    var c := n + [r.to];
    MuxFacts(w, c);
    hide Inv, Replies, Tidy;
    BelowOwner(w.seats[c], c, r.inner.value);
    assert c == k.node[..m + 1];
    assert Parent(c) == n && Conduit(c) == r.to;
  }

  /** The trail of a request of `k` leads all the way to its own mux, and to its own id there. */
  lemma {:induction false} TrailTo(w: World, k: Talk, q: nat, m: nat)
    requires Inv(w) && Replies(w) && TopOwns(w, q, k) && m <= |k.node|
    ensures Trail(w, k.node[..m], q).Some? && OwnedAt(w, k.node[..m], Trail(w, k.node[..m], q).value, k)
    decreases m
  {
    hide Inv, Replies;
    if m == 0 {
      assert k.node[..0] == TOP;
    } else {
      TrailTo(w, k, q, m - 1);
      TrailOn(w, k, q, m - 1);
    }
  }

  lemma TrailHome(w: World, k: Talk, q: nat)
    requires Inv(w) && Replies(w) && TopOwns(w, q, k)
    ensures k.node in w.seats && k.id in w.seats[k.node].made && Trail(w, k.node, q) == Some(k.id)
    ensures w.seats[k.node].made[k.id] == Route(k.client, None, k.tunnel)
  {
    TrailTo(w, k, q, |k.node|);
    assert k.node[..|k.node|] == k.node;
    var n, id := k.node, Trail(w, k.node, q).value;
    var r := w.seats[n].made[id];
    assert Linked(w, n, id);
    if r.inner.Some? {
      var c := n + [r.to];
      MuxFacts(w, c);
      hide Inv, Replies, Tidy;
      BelowOwner(w.seats[c], c, r.inner.value);
      assert false;
    }
  }

  lemma {:induction false} TrailOwner(w: World, n: Node, q: nat)
    requires Inv(w) && Replies(w) && Trail(w, n, q).Some?
    ensures n in w.seats && Trail(w, n, q).value in w.seats[n].owner
    ensures TopOwns(w, q, w.seats[n].owner[Trail(w, n, q).value])
    decreases |n|
  {
    MuxFacts(w, n);
    hide Inv, Tidy;
    if n != TOP {
      TrailOwner(w, Parent(n), q);
      assert Linked(w, Parent(n), Trail(w, Parent(n), q).value);
      assert Parent(n) + [Conduit(n)] == n;
    }
  }

  /** An id that the wrapper heard a request of `k` under. */
  lemma HeardOwner(w: World, i: nat)
    requires Inv(w) && Replies(w) && TOP in w.seats && i < |w.seats[TOP].sent|
    ensures TopOwns(w, w.seats[TOP].sent[i].frame.id, w.seats[TOP].sent[i].talk)
  {
    MuxFacts(w, TOP);
    hide Inv, Replies;
    assert EntryTidy(w.seats[TOP].owner, w.seats[TOP].sent[i]);
  }

  /** A one-shot request has one id at the top. */
  lemma OneShotId(w: World, k: Talk, q1: nat, q2: nat)
    requires Inv(w) && Replies(w) && TopOwns(w, q1, k) && TopOwns(w, q2, k) && !k.tunnel
    ensures q1 == q2
  {
    TrailHome(w, k, q1);
    TrailHome(w, k, q2);
    hide Inv, Flowing, MuxOk, Trail;
    RootUnique(w, k.node, q1, q2);
  }

  lemma OneShotSole(w: World, k: Talk, q: nat)
    requires Inv(w) && Replies(w) && TopOwns(w, q, k) && !k.tunnel
    ensures Sole(w.seats[TOP].sent, k, q)
  {
    hide Inv, Replies, TopOwns;
    assert TOP in w.seats by { TopIn(w, q, k); }
    forall e | e in w.seats[TOP].sent && e.talk == k
      ensures e.frame.id == q
    {
      var i :| 0 <= i < |w.seats[TOP].sent| && w.seats[TOP].sent[i] == e;
      HeardOwner(w, i);
      OneShotId(w, k, q, e.frame.id);
    }
  }

  lemma TopIn(w: World, q: nat, k: Talk)
    requires TopOwns(w, q, k)
    ensures TOP in w.seats
  {
  }

  // ----- By talk and by id -----

  /** A reply handed over is one of `k` if and only if it came under the sole id of `k`. */
  lemma GotIsOf(w: World, k: Talk, q: nat, g: Got)
    requires Inv(w) && Replies(w) && TopOwns(w, q, k) && Sole(w.seats[TOP].sent, k, q) && g in w.got
    ensures g.node == k.node && g.client == k.client && g.id == k.id <==> g.node == k.node && g.root == q
  {
    assert GotPlaced(w, g);
    TrailOwner(w, g.node, g.root);
    TrailHome(w, k, q);
    HeardOwner(w, g.cause);
    assert Linked(w, g.node, g.id);
    hide Inv, Replies, Trail;
    var i := g.cause;
    assert w.seats[TOP].sent[i] in w.seats[TOP].sent;
    if g.node == k.node && g.id == k.id {
      SameOwner(w, k, q);
    }
  }

  lemma SameOwner(w: World, k: Talk, q: nat)
    requires Inv(w) && Replies(w) && TopOwns(w, q, k) && Trail(w, k.node, q) == Some(k.id)
    ensures OwnedAt(w, k.node, k.id, k)
  {
    TrailOwner(w, k.node, q);
  }

  lemma {:induction false} SameTexts(got: seq<Got>, k: Talk, q: nat)
    requires forall g | g in got ::
               (g.node == k.node && g.client == k.client && g.id == k.id) <==> (g.node == k.node && g.root == q)
    ensures GotTexts(got, k) == Handed(got, k.node, q)
  {
    if got != [] {
      var init := got[..|got| - 1];
      assert forall g | g in init :: g in got;
      assert got[|got| - 1] in got;
      SameTexts(init, k, q);
    }
  }

  lemma GotsByTalk(w: World, k: Talk, q: nat)
    requires Inv(w) && Replies(w) && TopOwns(w, q, k) && Sole(w.seats[TOP].sent, k, q)
    ensures GotTexts(w.got, k) == Handed(w.got, k.node, q)
  {
    hide Inv, Replies, TopOwns, Sole;
    forall g | g in w.got
      ensures (g.node == k.node && g.client == k.client && g.id == k.id) <==> (g.node == k.node && g.root == q)
    {
      GotIsOf(w, k, q, g);
    }
    SameTexts(w.got, k, q);
  }

  /** What the top has sent up is never taken back. */
  lemma TopSent(w: World, e: Event)
    requires TOP in w.seats
    ensures TOP in Step(w, e).seats && w.seats[TOP].sent <= Step(w, e).seats[TOP].sent
  {
    hide HandleReply, HandleLine, BuildRoute, Closing, Drop, ParseRoute, Clean, Lookup;
  }

  /** Answers to `k`, and answers under its sole id. */
  lemma {:induction false} AnswersByTalk(nodes: set<Node>, events: seq<Event>, all: World, k: Talk, q: nat)
    requires Tree(nodes) && Inv(all) && Replies(all) && TopOwns(all, q, k) && Sole(all.seats[TOP].sent, k, q)
    requires TOP in Run(nodes, events).seats && Run(nodes, events).seats[TOP].sent <= all.seats[TOP].sent
    ensures AnsweredFor(nodes, events, k) == AnsweredUnder(nodes, events, q)
    decreases |events|
  {
    if events != [] {
      var init, e := events[..|events| - 1], events[|events| - 1];
      var w := Run(nodes, init);
      RunInv(nodes, init);
      hide Inv, Replies, Step, CanAnswer, Sole, TopOwns;
      assert TOP in w.seats by { InvTop(w); }
      TopSent(w, e);
      AnswersByTalk(nodes, init, all, k, q);
      if e.Answers? && CanAnswer(w, e.cause, e.text) { AnswerOf(w, all, k, q, e.cause, e.text); }
    }
  }

  lemma InvTop(w: World)
    requires Inv(w)
    ensures TOP in w.seats
  {
  }

  lemma AnswerOf(w: World, all: World, k: Talk, q: nat, cause: nat, text: seq<Byte>)
    requires Inv(all) && Replies(all) && TopOwns(all, q, k) && Sole(all.seats[TOP].sent, k, q)
    requires TOP in w.seats && w.seats[TOP].sent <= all.seats[TOP].sent && CanAnswer(w, cause, text)
    ensures w.seats[TOP].sent[cause].talk == k <==> w.seats[TOP].sent[cause].frame.id == q
  {
    HeardOwner(all, cause);
    hide Inv, Replies, Clean, ApcLaws.Safe;
    assert all.seats[TOP].sent[cause] == w.seats[TOP].sent[cause];
    assert all.seats[TOP].sent[cause] in all.seats[TOP].sent;
  }

  // ----- Tunnels -----

  /** Nothing of a talk the wrapper has not heard was answered or handed over. */
  lemma {:induction false} UnheardAnswers(nodes: set<Node>, events: seq<Event>, all: seq<Entry>, k: Talk)
    requires Tree(nodes) && TOP in Run(nodes, events).seats && Run(nodes, events).seats[TOP].sent <= all
    requires forall e | e in all :: e.talk != k
    ensures AnsweredFor(nodes, events, k) == []
    decreases |events|
  {
    if events != [] {
      var init, e := events[..|events| - 1], events[|events| - 1];
      var w := Run(nodes, init);
      RunInv(nodes, init);
      hide Inv, Step, CanAnswer;
      assert TOP in w.seats by { InvTop(w); }
      TopSent(w, e);
      UnheardAnswers(nodes, init, all, k);
      if e.Answers? && CanAnswer(w, e.cause, e.text) { HeardIn(w, all, e.cause, e.text); }
    }
  }

  lemma HeardIn(w: World, all: seq<Entry>, cause: nat, text: seq<Byte>)
    requires TOP in w.seats && w.seats[TOP].sent <= all && CanAnswer(w, cause, text)
    ensures w.seats[TOP].sent[cause] in all
  {
    hide ApcLaws.Safe;
    assert all[cause] == w.seats[TOP].sent[cause];
  }

  lemma {:induction false} NoneGot(got: seq<Got>, k: Talk)
    requires forall g | g in got :: !(g.node == k.node && g.client == k.client && g.id == k.id)
    ensures GotTexts(got, k) == []
  {
    if got != [] {
      var init := got[..|got| - 1];
      assert forall g | g in init :: g in got;
      assert got[|got| - 1] in got;
      NoneGot(init, k);
    }
  }

  lemma UnheardGots(w: World, k: Talk)
    requires Inv(w) && Replies(w) && OwnedAt(w, k.node, k.id, k)
    requires TOP in w.seats && forall e | e in w.seats[TOP].sent :: e.talk != k
    ensures GotTexts(w.got, k) == []
  {
    forall g | g in w.got
      ensures !(g.node == k.node && g.client == k.client && g.id == k.id)
    {
      assert GotPlaced(w, g);
      TrailOwner(w, g.node, g.root);
      HeardOwner(w, g.cause);
      hide Inv, Replies, Trail;
      assert w.seats[TOP].sent[g.cause] in w.seats[TOP].sent;
    }
    NoneGot(w.got, k);
  }

  /**
   For every tree and run, a talk all of whose frames bear one id at the top: its client has been
   handed the beginning of what the wrapper answered to it, in order, empty answers left out.
   */
  lemma TalkInOrder(nodes: set<Node>, events: seq<Event>, k: Talk)
    requires Tree(nodes) && OwnedAt(Run(nodes, events), k.node, k.id, k)
    requires TOP in Run(nodes, events).seats && RoutingLaws.OneId(Run(nodes, events).seats[TOP].sent, k)
    ensures GotTexts(Run(nodes, events).got, k) <= NonEmpty(AnsweredFor(nodes, events, k))
  {
    var w := Run(nodes, events);
    RunReplies(nodes, events);
    var log := w.seats[TOP].sent;
    hide Run, Inv, Replies, OwnedAt, AnsweredUnder, AnsweredFor;
    if i: nat :| i < |log| && log[i].talk == k {
      var q := log[i].frame.id;
      HeardOwner(w, i);
      OneIdSole(log, k, i);
      GotsByTalk(w, k, q);
      AnswersByTalk(nodes, events, w, k, q);
      RepliesInOrder(nodes, events, k.node, q);
      FirstPrefix(AnsweredUnder(nodes, events, q));
      NonEmptyPrefix(Owed(w, q, AnsweredUnder(nodes, events, q)), AnsweredUnder(nodes, events, q));
    } else {
      UnheardGots(w, k);
    }
  }

  lemma FirstPrefix(texts: seq<seq<Byte>>)
    ensures First(texts) <= texts
  {
  }

  lemma OneIdSole(log: seq<Entry>, k: Talk, i: nat)
    requires RoutingLaws.OneId(log, k) && i < |log| && log[i].talk == k
    ensures Sole(log, k, log[i].frame.id)
  {
  }

  /** No mux above the tunnel's own has seen it closed. */
  ghost predicate Open(w: World, k: Talk) {
    forall m: nat {:trigger k.node[..m]} | m < |k.node| ::
      k.node[..m] in w.seats && !Closed(w.seats[k.node[..m]].sent, k)
  }

  /** No connection between the wrapper and the client of `k` is gone. */
  ghost predicate Connected(w: World, k: Talk) {
    && (forall m: nat {:trigger k.node[..m]} | m < |k.node| :: (k.node[..m], k.node[m]) !in w.gone)
    && (k.node, k.client) !in w.gone
  }

  /** One conduit of an open tunnel: the trail and the leading ids go together, and the route is there. */
  lemma OpenEdge(w: World, k: Talk, q: nat, m: nat)
    requires Inv(w) && Replies(w) && Ordered(w) && k.tunnel && m < |k.node| && TopOwns(w, q, k)
    requires k.node[..m] in w.seats && k.node[..m + 1] in w.seats && !Closed(w.seats[k.node[..m]].sent, k)
    requires Trail(w, k.node[..m], q).Some? && Trail(w, k.node[..m], q) == Lead(w.seats[k.node[..m]].sent, k)
    ensures Trail(w, k.node[..m], q).value in w.seats[k.node[..m]].table.routes
    ensures Trail(w, k.node[..m + 1], q).Some? && Trail(w, k.node[..m + 1], q) == Lead(w.seats[k.node[..m + 1]].sent, k)
  {
    var p, c := k.node[..m], k.node[..m + 1];
    TrailTo(w, k, q, m);
    TrailOn(w, k, q, m);
    assert c <= k.node && Parent(c) == p && Conduit(c) == k.node[m];
    assert EdgeAt(w, c, k);
    assert MuxOk(w, p);
    Beginning(w.seats[c].sent, w.seats[c].taken, k);
    RouteMade(w.seats[p]);
    hide Inv, Replies, Ordered, Trail, Texts, Lead, Closed, Known;
  }

  lemma {:induction false} OpenTrail(w: World, k: Talk, q: nat, m: nat)
    requires Inv(w) && Replies(w) && Ordered(w) && k.tunnel && m <= |k.node| && TopOwns(w, q, k) && Open(w, k)
    requires TOP in w.seats && Lead(w.seats[TOP].sent, k) == Some(q)
    ensures k.node[..m] in w.seats && Trail(w, k.node[..m], q).Some?
    ensures Trail(w, k.node[..m], q) == Lead(w.seats[k.node[..m]].sent, k)
    decreases m
  {
    hide Inv, Replies, Ordered, Lead, TopOwns, Open, Trail;
    TrailTo(w, k, q, m);
    TrailIn(w, k.node[..m], q);
    if m == 0 {
      assert k.node[..0] == TOP;
      TopTrail(w, q, k);
    } else {
      OpenTrail(w, k, q, m - 1);
      OpenAt(w, k, m - 1);
      OpenEdge(w, k, q, m - 1);
    }
  }

  lemma OpenAt(w: World, k: Talk, m: nat)
    requires Open(w, k) && m < |k.node|
    ensures k.node[..m] in w.seats && !Closed(w.seats[k.node[..m]].sent, k)
  {
  }

  lemma TopTrail(w: World, q: nat, k: Talk)
    requires TopOwns(w, q, k)
    ensures Trail(w, TOP, q) == Some(q)
  {
  }

  lemma OpenWhole(w: World, k: Talk, q: nat)
    requires Inv(w) && Replies(w) && Ordered(w) && k.tunnel && TopOwns(w, q, k) && Open(w, k) && Connected(w, k)
    requires TOP in w.seats && Lead(w.seats[TOP].sent, k) == Some(q)
    ensures Whole(w, k.node, q)
  {
    hide Inv, Replies, Ordered, Lead, Trail, Open, TopOwns;
    forall m: nat | m < |k.node|
      ensures Trail(w, k.node[..m], q).Some? && k.node[..m] in w.seats
      ensures Trail(w, k.node[..m], q).value in w.seats[k.node[..m]].made
      ensures Trail(w, k.node[..m], q).value in w.seats[k.node[..m]].table.routes
    {
      OpenTrail(w, k, q, m);
      TrailIn(w, k.node[..m], q);
      TrailTo(w, k, q, m + 1);
      TrailIn(w, k.node[..m + 1], q);
      OpenAt(w, k, m);
      OpenEdge(w, k, q, m);
    }
  }

  lemma TrailIn(w: World, n: Node, q: nat)
    requires Trail(w, n, q).Some?
    ensures n in w.seats && Trail(w, n, q).value in w.seats[n].made
  {
  }

  lemma {:induction false} OpenSole(log: seq<Entry>, k: Talk)
    requires Steady(log, k) && !Closed(log, k)
    ensures forall e | e in log && e.talk == k :: Lead(log, k) == Some(e.frame.id)
  {
    forall e | e in log && e.talk == k
      ensures Lead(log, k) == Some(e.frame.id)
    {
      var i :| 0 <= i < |log| && log[i] == e;
      NeverClosed(log, i, k);
      RoutingLaws.SteadyAt(log, k, i);
    }
  }

  lemma {:induction false} NeverClosed(log: seq<Entry>, m: nat, k: Talk)
    requires m <= |log| && !Closed(log, k)
    ensures !Closed(log[..m], k)
    decreases |log|
  {
    if m < |log| {
      NeverClosed(log[..|log| - 1], m, k);
      assert log[..|log| - 1][..m] == log[..m];
    } else {
      assert log[..m] == log;
    }
  }

  /** The sole id of an open tunnel. */
  lemma TunnelSole(w: World, k: Talk)
    requires Inv(w) && Replies(w) && Ordered(w) && k.tunnel && Open(w, k) && TOP in w.seats
             && Lead(w.seats[TOP].sent, k).Some?
    ensures var q := Lead(w.seats[TOP].sent, k).value; TopOwns(w, q, k) && Sole(w.seats[TOP].sent, k, q)
  {
    var log := w.seats[TOP].sent;
    LeadIs(log, k);
    var e :| e in log && e.talk == k && e.frame.id == Lead(log, k).value;
    var i :| 0 <= i < |log| && log[i] == e;
    HeardOwner(w, i);
    InOrder(w, TOP);
    assert Orderly(w.seats[TOP], TOP);
    assert LogOk(log, w.seats[TOP].table.routes, TOP, k);
    hide Inv, Replies, Ordered, Lead, Closed, Steady;
    if k.node == TOP {
      OwnSole(w.seats[TOP], k);
    } else {
      assert k.node[..0] == TOP;
      OpenSole(log, k);
    }
  }

  /** At its own mux a talk has its own id. */
  lemma OwnSole(s: Seat, k: Talk)
    requires Tidy(s, k.node) && Named(s, k.node)
    ensures Sole(s.sent, k, k.id)
  {
    forall e | e in s.sent && e.talk == k
      ensures e.frame.id == k.id
    {
      assert EntryTidy(s.owner, e);
    }
  }

  /**
   An open tunnel loses nothing: once every mux on the way has read what came down to it, with no
   connection gone and the tunnel closed at no mux above its own, its client has been handed every
   non-empty answer to it, in order, each once.
   */
  lemma TunnelComplete(nodes: set<Node>, events: seq<Event>, k: Talk)
    requires Tree(nodes) && k.tunnel && OwnedAt(Run(nodes, events), k.node, k.id, k)
    requires var w := Run(nodes, events); AllRead(w, k.node) && Open(w, k) && Connected(w, k)
    ensures GotTexts(Run(nodes, events).got, k) == NonEmpty(AnsweredFor(nodes, events, k))
  {
    var w := Run(nodes, events);
    RunReplies(nodes, events);
    RunOrdered(nodes, events);
    assert TOP in w.seats by { InvTop(w); }
    hide Run, Inv, Replies, Ordered, OwnedAt, AnsweredUnder, AnsweredFor, AllRead, Open, Sole, TopOwns, Lead, Trail,
         Whole;
    if Lead(w.seats[TOP].sent, k).Some? {
      var q := Lead(w.seats[TOP].sent, k).value;
      TunnelSole(w, k);
      OpenWhole(w, k, q);
      TrailHome(w, k, q);
      GotsByTalk(w, k, q);
      AnswersByTalk(nodes, events, w, k, q);
      RepliesArrive(nodes, events, k.node, q);
      TunnelPersists(w, k, q);
    } else {
      LeadIs(w.seats[TOP].sent, k);
      UnheardGots(w, k);
      UnheardAnswers(nodes, events, w.seats[TOP].sent, k);
    }
  }

  /** An open tunnel's id at the top has a tunnel's route. */
  lemma TunnelPersists(w: World, k: Talk, q: nat)
    requires Inv(w) && Replies(w) && Ordered(w) && k.tunnel && Open(w, k) && TopOwns(w, q, k)
    requires TOP in w.seats && Lead(w.seats[TOP].sent, k) == Some(q)
    ensures q in w.seats[TOP].made && w.seats[TOP].made[q].persistent
  {
    TrailHome(w, k, q);
    TopTrail(w, q, k);
    if k.node != TOP {
      OpenTrail(w, k, q, 1);
      var c := k.node[..1];
      assert k.node[..0] == TOP && Parent(c) == TOP && c <= k.node;
      assert EdgeAt(w, c, k);
      assert MuxOk(w, TOP);
      RouteMade(w.seats[TOP]);
      Beginning(w.seats[c].sent, w.seats[c].taken, k);
      hide Inv, Replies, Ordered, Trail, Texts, Lead, Closed, Known;
    }
  }

  // ----- One-shots -----

  /**
   A one-shot request: its client is handed at most one reply, the wrapper's first answer to it, and
   that one unless it is empty once every mux on the way has read what came down, with no connection gone.
   */
  lemma OneShotReply(nodes: set<Node>, events: seq<Event>, k: Talk)
    requires Tree(nodes) && !k.tunnel && OwnedAt(Run(nodes, events), k.node, k.id, k)
    ensures var w, due := Run(nodes, events), NonEmpty(First(AnsweredFor(nodes, events, k)));
            && |due| <= 1 && GotTexts(w.got, k) <= due
            && (AllRead(w, k.node) && Connected(w, k) ==> GotTexts(w.got, k) == due)
  {
    var w := Run(nodes, events);
    RunReplies(nodes, events);
    assert TOP in w.seats by { InvTop(w); }
    var log := w.seats[TOP].sent;
    AtMostOne(AnsweredFor(nodes, events, k));
    hide Run, Inv, Replies, OwnedAt, AnsweredUnder, AnsweredFor, Trail, NonEmpty, Sole, AllRead, Whole, Connected;
    if i: nat :| i < |log| && log[i].talk == k {
      var q := log[i].frame.id;
      HeardOwner(w, i);
      OneShotSole(w, k, q);
      GotsByTalk(w, k, q);
      AnswersByTalk(nodes, events, w, k, q);
      TrailHome(w, k, q);
      PersistentBelow(w, k.node, q);
      RepliesInOrder(nodes, events, k.node, q);
      if AllRead(w, k.node) && Connected(w, k) {
        OneShotWhole(w, k, q);
        StillThere(w, k);
        RepliesArrive(nodes, events, k.node, q);
      }
    } else {
      UnheardGots(w, k);
      UnheardAnswers(nodes, events, log, k);
      NothingNonEmpty();
    }
  }

  lemma StillThere(w: World, k: Talk)
    requires Connected(w, k)
    ensures (k.node, k.client) !in w.gone
  {
  }

  lemma AtMostOne(texts: seq<seq<Byte>>)
    ensures |NonEmpty(First(texts))| <= 1
  {
    if texts != [] {
      assert First(texts)[..0] == [];
    }
  }

  /** On a one-shot's way there is no tunnel's route. */
  lemma OneShotWhole(w: World, k: Talk, q: nat)
    requires Inv(w) && Replies(w) && TopOwns(w, q, k) && !k.tunnel && Connected(w, k)
    ensures Whole(w, k.node, q)
  {
    TrailHome(w, k, q);
    hide Inv, Replies, TopOwns, Trail;
    forall m: nat | m < |k.node|
      ensures Trail(w, k.node[..m], q).Some? && k.node[..m] in w.seats
              && Trail(w, k.node[..m], q).value in w.seats[k.node[..m]].made
              && !w.seats[k.node[..m]].made[Trail(w, k.node[..m], q).value].persistent
    {
      TrailTo(w, k, q, m);
      TrailIn(w, k.node[..m], q);
      FleetingAbove(w, k, q, m);
    }
  }

  lemma {:induction false} FleetingAbove(w: World, k: Talk, q: nat, m: nat)
    requires Inv(w) && Replies(w) && TopOwns(w, q, k) && !k.tunnel && m <= |k.node| && Trail(w, k.node[..m], q).Some?
    ensures !w.seats[k.node[..m]].made[Trail(w, k.node[..m], q).value].persistent
    decreases |k.node| - m
  {
    if m == |k.node| {
      TrailHome(w, k, q);
      assert k.node[..m] == k.node;
    } else {
      TrailTo(w, k, q, m);
      TrailOn(w, k, q, m);
      FleetingAbove(w, k, q, m + 1);
      assert Linked(w, k.node[..m], Trail(w, k.node[..m], q).value);
      assert k.node[..m] + [k.node[m]] == k.node[..m + 1];
    }
  }

  // ----- Across the conduits -----

  function Requests(log: seq<Entry>): seq<seq<Byte>> {
    if log == [] then [] else Requests(log[..|log| - 1]) + [BuildRoute(log[|log| - 1].frame)]
  }

  function Responses(log: seq<Answer>): seq<seq<Byte>> {
    if log == [] then [] else Responses(log[..|log| - 1]) + [BuildRoute(log[|log| - 1].frame)]
  }

  /** A route frame is safe exactly if its text is, and one line if the text is. */
  lemma RouteSafe(f: Frame)
    ensures Safe(BuildRoute(f)) <==> Safe(f.inner)
    ensures NEWLINE !in f.inner ==> NEWLINE !in BuildRoute(f)
  {
    var head, whole := [LETTER_R] + Dec(f.id) + [COLON], BuildRoute(f);
    assert whole == head + f.inner;
    assert forall i | 0 <= i < |Dec(f.id)| :: Digit(Dec(f.id)[i]);
    assert forall i | 0 <= i < |head| :: head[i] != ESC && head[i] != BEL && head[i] != NEWLINE && head[i] != BACKSLASH;
    forall i | 0 <= i < |whole|
      ensures SafeAt(whole, i) == (i < |head| || SafeAt(f.inner, i - |head|))
    {
    }
    assert forall i | 0 <= i < |f.inner| :: SafeAt(f.inner, i) == SafeAt(whole, |head| + i);
  }

  /**
   What a mux writes for a reply is read by whoever is there. A client reads the text as it is. The deeper
   mux hears one frame, which is the reply under that mux's own id, if and only if the text is safe.
   */
  lemma ReplyHeard(t: Table, f: Frame)
    requires f.id in t.routes
    ensures var w := Written(HandleReply(t, BuildRoute(f)).write);
            var to := t.routes[f.id].to;
            match t.routes[f.id].inner
            case None => w == if f.inner == [] then None else Some((to, f.inner))
            case Some(own) =>
              var event := BuildRoute(Frame(own, f.inner));
              && w.Some? && w.value.0 == to && ParseRoute(event) == Some(Frame(own, f.inner))
              && (Feed(IDLE, w.value.1) == Fed(IDLE, Output([], [event])) <==> Safe(f.inner))
  {
    hide BuildRoute, ParseRoute, Feed, Safe;
    RouteRoundTrip(f);
    if t.routes[f.id].inner.Some? {
      var below := Frame(t.routes[f.id].inner.value, f.inner);
      RouteRoundTrip(below);
      RouteSafe(below);
      EnvelopeRoundTrip(BuildRoute(below));
    }
  }

  lemma {:induction false} RequestsSafe(log: seq<Entry>)
    requires forall e | e in log :: Clean(e.frame.inner)
    ensures AllSafe(Requests(log)) && forall l | l in Requests(log) :: NEWLINE !in l
  {
    hide Safe, BuildRoute;
    if log != [] {
      assert log[|log| - 1] in log;
      RequestsSafe(log[..|log| - 1]);
      RouteSafe(log[|log| - 1].frame);
    }
  }

  lemma {:induction false} ResponsesSafe(log: seq<Answer>)
    requires forall a | a in log :: Safe(a.frame.inner)
    ensures AllSafe(Responses(log))
  {
    hide Safe, BuildRoute;
    if log != [] {
      assert log[|log| - 1] in log;
      ResponsesSafe(log[..|log| - 1]);
      RouteSafe(log[|log| - 1].frame);
    }
  }

  /**
   How the frames of a mux cross a conduit. Upward they go among what the child writes, stripped: they are
   heard as exactly those frames in order, one line a frame. Downward they go between keystrokes that spell
   and open no frame: they are heard as exactly those frames if and only if each was put on the line while
   the scanner at the other end was between sequences.
   */
  lemma ConduitsCarry(nodes: set<Node>, events: seq<Event>, n: Node, up: seq<Piece>, down: seq<Piece>)
    requires Tree(nodes) && n in Run(nodes, events).seats
    requires Stripped(up) && FramesIn(up) == Requests(Run(nodes, events).seats[n].sent)
    requires Typing(down) && FramesIn(down) == Responses(Run(nodes, events).seats[n].down)
    ensures Feed(IDLE, Line(up)).output.events == FramesIn(up) && forall l | l in FramesIn(up) :: NEWLINE !in l
    ensures Feed(IDLE, Line(down)).output.events == FramesIn(down) <==> Grounded(down)
  {
    LogsSafe(nodes, events, n);
    hide *;
    StrippedClear(up);
    HeardExactly(up);
    HeardExactly(down);
    GroundedClear(down);
  }

  lemma LogsSafe(nodes: set<Node>, events: seq<Event>, n: Node)
    requires Tree(nodes) && n in Run(nodes, events).seats
    ensures var s := Run(nodes, events).seats[n];
            && AllSafe(Requests(s.sent)) && (forall l | l in Requests(s.sent) :: NEWLINE !in l)
            && AllSafe(Responses(s.down))
  {
    var w := Run(nodes, events);
    RunReplies(nodes, events);
    var s := w.seats[n];
    assert MuxOk(w, n) && PlacedAt(w, n);
    hide Inv, Safe, Run, Trail;
    forall e | e in s.sent
      ensures Clean(e.frame.inner)
    {
      assert Stamped(s.made, e);
    }
    forall a | a in s.down
      ensures Safe(a.frame.inner)
    {
      assert Placed(w, n, a);
    }
    RequestsSafe(s.sent);
    ResponsesSafe(s.down);
  }
}
