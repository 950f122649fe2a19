/**
 How a tunnel's closing frame goes up: a mux passes on what came by the conduit and adds at most one
 close, when the conduit is lost, to a tunnel not yet closed. So a close that is last stays last.
 */
module RoutingCloses {
  import opened Bytes
  import opened Routing
  import opened RoutingTree
  import opened RoutingOrder
  import opened RoutingLaws
  import opened RoutingReplies
  import opened ReplyLaws
  import opened TalkLaws
  import ApcLaws

  /** All that was sent for `k`, with what muxes added. */
  function Frames(log: seq<Entry>, k: Talk): seq<seq<Byte>> {
    if log == [] then []
    else
      var e := log[|log| - 1];
      Frames(log[..|log| - 1], k) + if e.talk == k then [e.frame.inner] else []
  }

  lemma FramesNext(log: seq<Entry>, e: Entry, k: Talk)
    ensures Frames(log + [e], k) == if e.talk == k then Frames(log, k) + [e.frame.inner] else Frames(log, k)
  {
    assert (log + [e])[..|log|] == log;
    assert Frames(log, k) + [] == Frames(log, k);
  }

  lemma {:induction false} FramesPrefix(log: seq<Entry>, m: nat, k: Talk)
    requires m <= |log|
    ensures Frames(log[..m], k) <= Frames(log, k)
    decreases |log|
  {
    if m < |log| {
      FramesPrefix(log[..|log| - 1], m, k);
      assert log[..|log| - 1][..m] == log[..m];
    } else {
      assert log[..m] == log;
    }
  }

  /** A closing frame, if there is one, is the last. */
  ghost predicate LastCloses(texts: seq<seq<Byte>>) {
    forall i | 0 <= i < |texts| - 1 :: !StartsWith(texts[i], TUN_CLOSE)
  }

  ghost predicate SomeCloses(texts: seq<seq<Byte>>) { exists i :: 0 <= i < |texts| && StartsWith(texts[i], TUN_CLOSE) }

  lemma {:induction false} ClosedFrames(log: seq<Entry>, k: Talk)
    ensures Closed(log, k) <==> SomeCloses(Frames(log, k))
  {
    hide StartsWith;
    if log != [] {
      var init, e := log[..|log| - 1], log[|log| - 1];
      ClosedFrames(init, k);
      var texts := Frames(init, k);
      if e.talk == k {
        assert Frames(log, k) == texts + [e.frame.inner];
        if StartsWith(e.frame.inner, TUN_CLOSE) { assert Frames(log, k)[|texts|] == e.frame.inner; }
        if i :| 0 <= i < |texts| && StartsWith(texts[i], TUN_CLOSE) { assert Frames(log, k)[i] == texts[i]; }
        if i :| 0 <= i < |texts + [e.frame.inner]| && StartsWith((texts + [e.frame.inner])[i], TUN_CLOSE) {
          assert i < |texts| ==> texts[i] == (texts + [e.frame.inner])[i];
        }
      } else {
        assert texts + [] == texts;
      }
    }
  }

  lemma LastNext(texts: seq<seq<Byte>>, t: seq<Byte>)
    ensures LastCloses(texts + [t]) <==> !SomeCloses(texts)
  {
    hide StartsWith;
    var all := texts + [t];
    assert forall i | 0 <= i < |texts| :: all[i] == texts[i];
    if LastCloses(all) {
      assert forall i | 0 <= i < |texts| :: !StartsWith(all[i], TUN_CLOSE);
    }
  }

  lemma {:induction false} CloseLastFrames(log: seq<Entry>, k: Talk)
    ensures CloseIsLast(log, k) <==> LastCloses(Frames(log, k))
  {
    if log != [] {
      var init, e := log[..|log| - 1], log[|log| - 1];
      CloseLastFrames(init, k);
      CloseLastNext(init, e, k);
      assert log == init + [e];
      FramesNext(init, e, k);
      ClosedFrames(init, k);
      hide Closed, StartsWith, Frames;
      if e.talk == k {
        LastNext(Frames(init, k), e.frame.inner);
        LastFewer(Frames(init, k));
      }
    }
  }

  lemma LastFewer(texts: seq<seq<Byte>>)
    ensures !SomeCloses(texts) ==> LastCloses(texts)
  {
    hide StartsWith;
  }

  lemma CloseLastNext(log: seq<Entry>, e: Entry, k: Talk)
    ensures CloseIsLast(log + [e], k) <==> CloseIsLast(log, k) && (e.talk == k ==> !Closed(log, k))
  {
    hide Closed;
    var all := log + [e];
    assert all[..|log|] == log;
    assert forall j | 0 <= j < |log| :: all[j] == log[j] && all[..j] == log[..j];
    if CloseIsLast(all, k) {
      forall j | 0 <= j < |log| && log[j].talk == k
        ensures !Closed(log[..j], k)
      {
        assert all[j].talk == k;
      }
      assert all[|log|] == e;
    }
  }

  // ----- One conduit -----

  /** What `p` has sent for `k` is what it has taken from the conduit, and a close if the conduit is lost. */
  ghost predicate Follows(p: Seat, c: Seat, k: Talk, lost: bool)
    requires c.taken <= |c.sent|
  {
    var took := c.sent[..c.taken];
    || Frames(p.sent, k) == Frames(took, k)
    || (lost && !Closed(took, k) && Frames(p.sent, k) == Frames(took, k) + [TUN_CLOSE])
  }

  ghost predicate FollowsAt(w: World, c: Node, k: Talk) {
    && c in w.seats && c != TOP && Parent(c) in w.seats && w.seats[c].taken <= |w.seats[c].sent|
    && Follows(w.seats[Parent(c)], w.seats[c], k, (Parent(c), Conduit(c)) in w.gone)
  }

  ghost predicate Following(w: World) {
    forall c, k: Talk {:trigger FollowsAt(w, c, k)} | c in w.seats && c != TOP && c <= k.node :: FollowsAt(w, c, k)
  }

  lemma FollowsStays(p: Seat, p': Seat, c: Seat, c': Seat, k: Talk, lost: bool, lost': bool)
    requires c.taken <= |c.sent| && Follows(p, c, k, lost) && (lost ==> lost')
    requires Frames(p'.sent, k) == Frames(p.sent, k) && c.sent <= c'.sent && c'.taken == c.taken
    ensures Follows(p', c', k, lost')
  {
    assert c'.sent[..c.taken] == c.sent[..c.taken];
  }

  /** One mux acted, adding to its log only what is its own clients', or what came by a conduit now lost. */
  lemma PutFollows(w: World, n: Node, s': Seat, gone: set<(Node, Handle)>, c: Node, k: Talk)
    requires n in w.seats && FollowsAt(w, c, k) && c <= k.node && w.gone <= gone
    requires w.seats[n].sent <= s'.sent && (n == TOP || s'.taken == w.seats[n].taken)
    requires Parent(c) == n ==> Follows(s', w.seats[c], k, (n, Conduit(c)) in gone)
    ensures FollowsAt(Put(w, n, s').(gone := gone), c, k)
  {
    hide Follows;
    var p := w.seats[Parent(c)];
    var lost, lost' := (Parent(c), Conduit(c)) in w.gone, (Parent(c), Conduit(c)) in gone;
    if c == n {
      FollowsStays(p, p, w.seats[n], s', k, lost, lost');
    } else if Parent(c) != n {
      FollowsStays(p, p, w.seats[c], w.seats[c], k, lost, lost');
    }
  }

  lemma SayFollows(w: World, n: Node, from: Handle, line: seq<Byte>)
    requires Inv(w) && Ordered(w) && Following(w) && CanSay(w, n, from, line)
    ensures Following(Put(w, n, Say(w.seats[n], n, from, line)))
  {
    var s, s' := w.seats[n], Say(w.seats[n], n, from, line);
    InOrder(w, n);
    assert Orderly(s, n);
    var e := SayOrderly(s, n, from, line);
    hide Say, Orderly, Tidy, Inv, Ordered, Follows, ParseRoute, Clean;
    forall c, k: Talk | c in w.seats && c != TOP && c <= k.node
      ensures FollowsAt(Put(w, n, s'), c, k)
    {
      assert FollowsAt(w, c, k);
      FramesNext(s.sent, e, k);
      if Parent(c) == n {
        FollowsStays(s, s', w.seats[c], w.seats[c], k, (n, Conduit(c)) in w.gone, (n, Conduit(c)) in w.gone);
      }
      PutFollows(w, n, s', w.gone, c, k);
      assert Put(w, n, s').(gone := w.gone) == Put(w, n, s');
    }
  }

  /** Nothing sent, and nothing taken from a conduit. */
  lemma QuietFollows(w: World, w': World)
    requires Following(w) && w'.seats.Keys == w.seats.Keys && w.gone <= w'.gone
    requires forall m | m in w.seats ::
               w'.seats[m].sent == w.seats[m].sent && (m == TOP || w'.seats[m].taken == w.seats[m].taken)
    ensures Following(w')
  {
    forall c, k: Talk | c in w'.seats && c != TOP && c <= k.node
      ensures FollowsAt(w', c, k)
    {
      assert FollowsAt(w, c, k);
    }
  }

  // ----- Relaying -----

  lemma HearSent(s: Seat, from: Handle, e: Entry) returns (x: Entry)
    requires from !in s.table.tunnels
    ensures Hear(s, from, e).sent == s.sent + [x] && x.talk == e.talk && x.frame.inner == e.frame.inner
    ensures Hear(s, from, e).taken == s.taken
  {
    RelayLine(s.table, from, e.frame);
    hide HandleLine, StartsWith, Lookup;
    x := Entry(Relay(s.table, from, e.frame).frame, e.talk, e.added);
  }

  lemma ClimbFollows(w: World, c: Node)
    requires Inv(w) && Following(w) && CanClimb(w, c)
    ensures Following(Climb(w, c))
  {
    var p, h, e := Parent(c), Conduit(c), w.seats[c].sent[w.seats[c].taken];
    HeardWell(w, c);
    InOrder(w, c);
    var x := HearSent(w.seats[p], h, e);
    ClimbPlaces(w, c);
    OwnerBelow(w, c, e);
    var w' := Climb(w, c);
    assert w'.gone == w.gone by { hide Hear; }
    hide Hear, Climb, Inv, SeatOk, OneRoute, OwnedAt, Tidy;
    forall y, k: Talk | y in w'.seats && y != TOP && y <= k.node
      ensures FollowsAt(w', y, k)
    {
      assert FollowsAt(w, y, k);
      ClimbFollow(w, w', c, e, x, y, k);
    }
  }

  lemma OwnerBelow(w: World, c: Node, e: Entry)
    requires c in w.seats && Tidy(w.seats[c], c) && OwnedAt(w, c, e.frame.id, e.talk)
    ensures c <= e.talk.node
  {
  }

  lemma ClimbFollow(w: World, w': World, c: Node, e: Entry, x: Entry, y: Node, k: Talk)
    requires c in w.seats && c != TOP && Parent(c) in w.seats && Parent(c) != c
    requires w'.seats.Keys == w.seats.Keys && w'.gone == w.gone
    requires w.seats[c].taken < |w.seats[c].sent| && e == w.seats[c].sent[w.seats[c].taken] && c <= e.talk.node
    requires (Parent(c), Conduit(c)) !in w.gone
    requires w'.seats[Parent(c)].sent == w.seats[Parent(c)].sent + [x] && x.talk == e.talk
             && x.frame.inner == e.frame.inner
    requires w'.seats[Parent(c)].taken == w.seats[Parent(c)].taken && w'.seats[c] == Take(w.seats[c])
    requires forall m | m in w.seats && m != c && m != Parent(c) :: w'.seats[m] == w.seats[m]
    requires FollowsAt(w, y, k) && y <= k.node
    ensures FollowsAt(w', y, k)
  {
    var p, child, lost := w.seats[Parent(c)], w.seats[c], (Parent(y), Conduit(y)) in w.gone;
    FramesNext(p.sent, x, k);
    if y == c {
      var took := child.sent[..child.taken];
      assert child.sent[..child.taken + 1] == took + [e];
      FramesNext(took, e, k);
      hide Closed, Frames, StartsWith;
    } else if Parent(y) == Parent(c) {
      SiblingsApart(y, c, k.node, e.talk.node);
      FollowsStays(p, w'.seats[Parent(c)], w.seats[y], w.seats[y], k, lost, lost);
    } else if y == Parent(c) {
      FollowsStays(w.seats[Parent(y)], w.seats[Parent(y)], p, w'.seats[y], k, lost, lost);
    } else {
      hide Follows;
      if Parent(y) == c { FollowsStays(child, Take(child), w.seats[y], w.seats[y], k, lost, lost); }
    }
  }

  // ----- Departures -----

  /** Of distinct ids, at most the one that `k` leads with is closed for it. */
  lemma {:induction false} CloserFrames(log: seq<Entry>, owner: map<nat, Talk>, ids: seq<nat>, k: Talk, id: Option<nat>)
    requires Distinct(ids) && forall i | i in ids :: i in owner && (owner[i] == k ==> id == Some(i))
    ensures Frames(log + Closers(owner, ids), k)
            == Frames(log, k) + if id.Some? && id.value in ids && owner[id.value] == k then [TUN_CLOSE] else []
  {
    hide Frames;
    assert Frames(log, k) + [] == Frames(log, k);
    if ids == [] {
      assert log + Closers(owner, ids) == log;
    } else {
      var init, last := ids[..|ids| - 1], ids[|ids| - 1];
      SplitLastId(ids);
      CloserFrames(log, owner, init, k, id);
      var before, e := log + Closers(owner, init), Entry(Frame(last, TUN_CLOSE), owner[last], true);
      assert log + Closers(owner, ids) == before + [e];
      hide Closers;
      FramesNext(before, e, k);
    }
  }

  lemma SplitLastId(ids: seq<nat>)
    requires Distinct(ids) && ids != []
    ensures var init, last := ids[..|ids| - 1], ids[|ids| - 1];
            Distinct(init) && last !in init && last in ids && forall i :: i in ids <==> i in init || i == last
  {
    var init, last := ids[..|ids| - 1], ids[|ids| - 1];
    assert ids == init + [last];
    assert forall i | 0 <= i < |init| :: init[i] == ids[i];
  }

  /** An id closed with a connection, of a talk from below: the talk came by that connection. */
  lemma ClosedBelow(w: World, n: Node, from: Handle, id: nat)
    requires Inv(w) && n in w.seats && id in Closing(w.seats[n].table, from)
    ensures id in w.seats[n].owner
    ensures w.seats[n].owner[id].node != n ==> n + [from] <= w.seats[n].owner[id].node
  {
    var s := w.seats[n];
    InOrder(w, n);
    ClosingOwned(s, n, from);
    DeadIds(s.table, from, FIRST_ID);
    if n + [from] in w.seats { InOrder(w, n + [from]); }
    hide Inv;
    if from in s.table.tunnels && id == s.table.tunnels[from] {
      assert TunnelTidy(s.owner, n, s.table.tunnels[from], from);
    } else {
      assert RouteOk(w, n, id);
      if s.table.routes[id].inner.Some? { OwnerAt(w, n + [from], s.table.routes[id].inner.value, s.owner[id]); }
    }
  }

  lemma OwnerAt(w: World, c: Node, id: nat, talk: Talk)
    requires OwnedAt(w, c, id, talk) && (c in w.seats ==> Tidy(w.seats[c], c))
    ensures c <= talk.node
  {
  }

  lemma LeaveFollow(w: World, n: Node, from: Handle, c: Node, k: Talk)
    requires Inv(w) && Ordered(w) && Replies(w) && n in w.seats && (n, from) !in w.gone
    requires FollowsAt(w, c, k) && c <= k.node && Parent(c) == n
    ensures Follows(Leave(w.seats[n], from), w.seats[c], k, (n, Conduit(c)) in w.gone + {(n, from)})
  {
    var s, ids := w.seats[n], Closing(w.seats[n].table, from);
    InOrder(w, n);
    assert Orderly(s, n) && EdgeAt(w, c, k);
    ClosingLeads(s, n, from);
    ClosingDistinct(s.table, from);
    var id := Lead(s.sent, k);
    CloserFrames(s.sent, s.owner, ids, k, id);
    if id.Some? && id.value in ids && s.owner[id.value] == k {
      ClosedBelow(w, n, from, id.value);
      assert k.node != n;
      SameConduit(n, from, c, k.node);
      LogTunnel(w, n, from, id.value, k);
    }
    hide Inv, Ordered, Replies, Tidy, Orderly, Closing, Drop, Closers, Lead, Frames, Closed, Texts, Live;
    assert Frames(s.sent, k) + [] == Frames(s.sent, k);
  }

  lemma SameConduit(n: Node, from: Handle, c: Node, a: Node)
    requires c != TOP && Parent(c) == n && c <= a && n + [from] <= a
    ensures Conduit(c) == from
  {
    assert c == a[..|c|] && n + [from] == a[..|n + [from]|];
    assert |c| == |n| + 1;
  }

  /** A persistent route is a tunnel's. */
  lemma {:induction false} PersistentTunnel(w: World, n: Node, id: nat)
    requires Inv(w) && Replies(w) && n in w.seats && id in w.seats[n].made && w.seats[n].made[id].persistent
    ensures id in w.seats[n].owner && w.seats[n].owner[id].tunnel && |n| <= |w.seats[n].owner[id].node|
    decreases if id in w.seats[n].owner then |w.seats[n].owner[id].node| - |n| else 0
  {
    InOrder(w, n);
    assert MuxOk(w, n);
    assert Linked(w, n, id);
    hide Inv, Replies, Known, Spent;
    BelowOf(w.seats[n], n);
    var r := w.seats[n].made[id];
    if r.inner.Some? {
      var c := n + [r.to];
      InOrderAt(w, c);
      BelowOf(w.seats[c], c);
      PersistentTunnel(w, c, r.inner.value);
    }
  }

  lemma InOrderAt(w: World, c: Node)
    requires Inv(w) && c in w.seats
    ensures Tidy(w.seats[c], c)
  {
    InOrder(w, c);
    hide Inv, Tidy;
  }

  lemma BelowOf(s: Seat, n: Node)
    requires Tidy(s, n)
    ensures forall id | id in s.owner :: |n| <= |s.owner[id].node|
  {
  }

  /** What is closed with a conduit is an open tunnel. */
  lemma LogTunnel(w: World, n: Node, from: Handle, id: nat, k: Talk)
    requires Inv(w) && Ordered(w) && Replies(w) && n in w.seats && id in Closing(w.seats[n].table, from)
    requires id in w.seats[n].owner && w.seats[n].owner[id] == k && k.node != n
    ensures !Closed(w.seats[n].sent, k)
  {
    var s := w.seats[n];
    InOrder(w, n);
    assert MuxOk(w, n) && Orderly(s, n);
    ClosingMade(s, n, from);
    ClosingLeads(s, n, from);
    PersistentTunnel(w, n, id);
    hide Inv, Replies, Ordered, Orderly, Tidy, Closing, Closed;
  }

  lemma LeaveFollows(w: World, n: Node, from: Handle)
    requires Inv(w) && Ordered(w) && Replies(w) && Following(w) && n in w.seats && (n, from) !in w.gone
    ensures Following(Put(w, n, Leave(w.seats[n], from)).(gone := w.gone + {(n, from)}))
  {
    InOrder(w, n);
    LeaveTidy(w.seats[n], n, from);
    var s', gone := Leave(w.seats[n], from), w.gone + {(n, from)};
    LeaveTakes(w.seats[n], from);
    hide Inv, Ordered, Replies, Leave, Tidy, OthersKept, Follows;
    forall c, k: Talk | c in w.seats && c != TOP && c <= k.node
      ensures FollowsAt(Put(w, n, s').(gone := gone), c, k)
    {
      assert FollowsAt(w, c, k);
      if Parent(c) == n { LeaveFollow(w, n, from, c, k); }
      PutFollows(w, n, s', gone, c, k);
    }
  }

  lemma LeaveTakes(s: Seat, from: Handle)
    ensures Leave(s, from).taken == s.taken
  {
  }

  // ----- Whole runs -----

  lemma StartFollows(nodes: set<Node>)
    requires Tree(nodes)
    ensures Following(Start(nodes))
  {
    var w := Start(nodes);
    forall c, k: Talk | c in w.seats && c != TOP && c <= k.node
      ensures FollowsAt(w, c, k)
    {
      assert w.seats[c] == w.seats[Parent(c)] == Seat(Fresh(), map[], map[], [], 0, [], 0);
    }
  }

  lemma QuietStep(w: World, e: Event)
    requires Inv(w) && (e.Hears? || e.Answers? || e.Descends?)
    ensures Step(w, e).seats.Keys == w.seats.Keys && Step(w, e).gone == w.gone
    ensures forall m | m in w.seats ::
              Step(w, e).seats[m].sent == w.seats[m].sent && (m == TOP || Step(w, e).seats[m].taken == w.seats[m].taken)
  {
    hide HandleReply, BuildRoute, SeatOk, ApcLaws.Safe;
  }

  lemma StepFollows(w: World, e: Event)
    requires Inv(w) && Ordered(w) && Replies(w) && Following(w)
    ensures Following(Step(w, e))
  {
    hide Inv, Ordered, Replies, Following, Put, Say, Leave, Climb, CanSay, CanClimb, Descend, Reply, Take, CanAnswer;
    match e
    case Says(n, from, line) => if CanSay(w, n, from, line) { SayFollows(w, n, from, line); }
    case Climbs(c) => if CanClimb(w, c) { ClimbFollows(w, c); }
    case Leaves(n, from) => if n in w.seats && (n, from) !in w.gone { LeaveFollows(w, n, from); }
    case Hears =>
      QuietStep(w, e);
      QuietFollows(w, Step(w, e));
    case Answers(_, _) =>
      QuietStep(w, e);
      QuietFollows(w, Step(w, e));
    case Descends(_) =>
      QuietStep(w, e);
      QuietFollows(w, Step(w, e));
  }

  lemma {:induction false} RunFollows(nodes: set<Node>, events: seq<Event>)
    requires Tree(nodes)
    ensures Following(Run(nodes, events)) && Ordered(Run(nodes, events)) && Inv(Run(nodes, events))
    decreases |events|
  {
    hide Inv, Ordered, Following, Step, Start, Replies;
    RunOrdered(nodes, events);
    if events == [] {
      StartFollows(nodes);
    } else {
      var init := events[..|events| - 1];
      RunFollows(nodes, init);
      RunReplies(nodes, init);
      StepFollows(Run(nodes, init), events[|events| - 1]);
    }
  }

  // ----- The close stays last -----

  lemma LastAbove(p: Seat, c: Seat, k: Talk, lost: bool)
    requires c.taken <= |c.sent| && Follows(p, c, k, lost) && LastCloses(Frames(c.sent, k))
    ensures LastCloses(Frames(p.sent, k))
  {
    var took := c.sent[..c.taken];
    FramesPrefix(c.sent, c.taken, k);
    ClosedFrames(took, k);
    LastNext(Frames(took, k), TUN_CLOSE);
    hide StartsWith, Frames, Closed;
    assert forall i | 0 <= i < |Frames(took, k)| :: Frames(took, k)[i] == Frames(c.sent, k)[i];
  }

  lemma {:induction false} LastUp(w: World, k: Talk, m: nat)
    requires Following(w) && Ordered(w) && m <= |k.node| && k.node in w.seats
             && LastCloses(Frames(w.seats[k.node].sent, k))
    ensures k.node[..m] in w.seats && LastCloses(Frames(w.seats[k.node[..m]].sent, k))
    decreases |k.node| - m
  {
    hide Ordered, Frames;
    if m == |k.node| {
      assert k.node[..m] == k.node;
    } else {
      LastUp(w, k, m + 1);
      var c := k.node[..m + 1];
      assert Parent(c) == k.node[..m] && c <= k.node;
      assert FollowsAt(w, c, k);
      LastAbove(w.seats[Parent(c)], w.seats[c], k, (Parent(c), Conduit(c)) in w.gone);
    }
  }

  /**
   What a client can see to: if nothing follows the close in the log of its tunnel's own mux, every mux
   on the way keeps one id for the tunnel, whatever conduits are lost.
   */
  lemma CloseLastKeepsId(nodes: set<Node>, events: seq<Event>, k: Talk, m: nat)
    requires Tree(nodes) && k.tunnel && k.node in Run(nodes, events).seats && m <= |k.node|
    requires CloseIsLast(Run(nodes, events).seats[k.node].sent, k)
    ensures k.node[..m] in Run(nodes, events).seats && OneId(Run(nodes, events).seats[k.node[..m]].sent, k)
  {
    RunFollows(nodes, events);
    var w := Run(nodes, events);
    CloseLastFrames(w.seats[k.node].sent, k);
    hide Inv, Following, Ordered, Run, Frames, LastCloses, CloseIsLast, OneId;
    LastUp(w, k, m);
    CloseLastFrames(w.seats[k.node[..m]].sent, k);
    OneIdExactly(nodes, events, k.node[..m], k);
  }

  /** So the client of a tunnel whose close is the last of it is handed its answers in order, none left out between. */
  lemma TunnelInOrder(nodes: set<Node>, events: seq<Event>, k: Talk)
    requires Tree(nodes) && k.tunnel && OwnedAt(Run(nodes, events), k.node, k.id, k)
    requires CloseIsLast(Run(nodes, events).seats[k.node].sent, k)
    ensures GotTexts(Run(nodes, events).got, k) <= NonEmpty(AnsweredFor(nodes, events, k))
  {
    hide CloseIsLast, OneId, Run, AnsweredFor;
    CloseLastKeepsId(nodes, events, k, 0);
    assert k.node[..0] == TOP;
    TalkInOrder(nodes, events, k);
  }
}
