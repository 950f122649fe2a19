/**
 What becomes of replies on their way down a tree of muxes: under every id the wrapper answers, each
 mux passes on what it reads, in order and word for word, until the route is closed or the connection
 is gone; and under a one-shot's id the first reply alone.
 */
module RoutingReplies {
  import opened Bytes
  import ApcLaws
  import opened Routing
  import opened RoutingTree

  // ----- Logs -----

  /** The texts sent down for the request the wrapper heard under `q`. */
  function Under(log: seq<Answer>, q: nat): seq<seq<Byte>> {
    if log == [] then []
    else Under(log[..|log| - 1], q) + if log[|log| - 1].root == q then [log[|log| - 1].frame.inner] else []
  }

  /** The texts handed to clients of the mux at `n` for that request. */
  function Handed(got: seq<Got>, n: Node, q: nat): seq<seq<Byte>> {
    if got == [] then []
    else
      var g := got[|got| - 1];
      Handed(got[..|got| - 1], n, q) + if g.node == n && g.root == q then [g.text] else []
  }

  function NonEmpty(texts: seq<seq<Byte>>): seq<seq<Byte>> {
    if texts == [] then []
    else NonEmpty(texts[..|texts| - 1]) + if texts[|texts| - 1] == [] then [] else [texts[|texts| - 1]]
  }

  function First(texts: seq<seq<Byte>>): seq<seq<Byte>> { if texts == [] then [] else [texts[0]] }

  lemma UnderNext(log: seq<Answer>, a: Answer, q: nat)
    ensures Under(log + [a], q) == if a.root == q then Under(log, q) + [a.frame.inner] else Under(log, q)
  {
    assert (log + [a])[..|log|] == log;
    assert Under(log, q) + [] == Under(log, q);
  }

  lemma HandedNext(got: seq<Got>, g: Got, n: Node, q: nat)
    ensures Handed(got + [g], n, q)
            == if g.node == n && g.root == q then Handed(got, n, q) + [g.text] else Handed(got, n, q)
  {
    assert (got + [g])[..|got|] == got;
    assert Handed(got, n, q) + [] == Handed(got, n, q);
  }

  lemma NonEmptyNext(texts: seq<seq<Byte>>, t: seq<Byte>)
    ensures NonEmpty(texts + [t]) == if t == [] then NonEmpty(texts) else NonEmpty(texts) + [t]
  {
    assert (texts + [t])[..|texts|] == texts;
    assert NonEmpty(texts) + [] == NonEmpty(texts);
  }

  lemma {:induction false} NoneUnder(log: seq<Answer>, q: nat)
    requires forall a | a in log :: a.root != q
    ensures Under(log, q) == []
  {
    if log != [] {
      assert log[|log| - 1] in log;
      NoneUnder(log[..|log| - 1], q);
    }
  }

  lemma {:induction false} SomeUnder(log: seq<Answer>, q: nat)
    requires Under(log, q) != []
    ensures exists a :: a in log && a.root == q
  {
    if log[|log| - 1].root == q {
      assert log[|log| - 1] in log;
    } else {
      SomeUnder(log[..|log| - 1], q);
      var a :| a in log[..|log| - 1] && a.root == q;
      assert a in log;
    }
  }

  lemma {:induction false} NoneHanded(got: seq<Got>, n: Node, q: nat)
    requires forall g | g in got :: g.node != n || g.root != q
    ensures Handed(got, n, q) == []
  {
    if got != [] {
      assert got[|got| - 1] in got;
      NoneHanded(got[..|got| - 1], n, q);
    }
  }

  // ----- One mux -----

  ghost predicate Stamped(made: map<nat, Route>, e: Entry) {
    e.frame.id in made && (StartsWith(e.frame.inner, TUN) ==> made[e.frame.id].persistent) && Clean(e.frame.inner)
  }

  /** Only a tunnel's id is sent up more than once. */
  ghost predicate OnceSent(made: map<nat, Route>, sent: seq<Entry>) {
    forall x, y | 0 <= x < y < |sent| && sent[x].frame.id == sent[y].frame.id ::
      sent[x].frame.id in made && made[sent[x].frame.id].persistent
  }

  /** The record of routes made agrees with the table and with what was sent. */
  ghost predicate Known(s: Seat) {
    && s.made.Keys == s.owner.Keys
    && (forall id | id in s.table.routes :: id in s.made && s.made[id] == s.table.routes[id])
    && (forall h | h in s.table.tunnels ::
          s.table.tunnels[h] in s.made && s.made[s.table.tunnels[h]] == Route(h, None, true))
    && (forall e | e in s.sent :: Stamped(s.made, e))
    && OnceSent(s.made, s.sent)
  }

  /**
   Sending up, or losing the connection `lost`, leaves replies alone: ids are new with their routes, and
   only a tunnel's route is lost, a client's own only with its connection.
   */
  ghost predicate Extends(s: Seat, s': Seat, lost: Option<Handle>) {
    && s'.down == s.down && s'.read == s.read && s.sent <= s'.sent
    && (forall id | id in s.made :: id in s'.made && s'.made[id] == s.made[id])
    && (forall id | id in s'.made && id !in s.made :: id in s'.table.routes)
    && (forall id | id in s.made && id in s'.table.routes :: id in s.table.routes)
    && (forall id | id in s.made && id in s.table.routes && id !in s'.table.routes ::
          s.made[id].persistent && (s.made[id].inner.Some? || lost == Some(s.made[id].to)))
  }

  lemma MintKnown(s: Seat, n: Node, route: Route, text: seq<Byte>, talk: Talk, added: bool)
    requires Tidy(s, n) && Known(s) && Clean(text) && (StartsWith(text, TUN) ==> route.persistent)
    ensures var s' := Emit(s, Mint(s.table, route, text), talk, added);
            Known(s') && Extends(s, s', None) && s'.made == s.made[s.table.nextId := route]
  {
    hide Clean, StartsWith;
    var id := s.table.nextId;
    var s' := Emit(s, Mint(s.table, route, text), talk, added);
    assert id !in s.owner;
    assert id !in s.made && id !in s.table.routes && s'.made == s.made[id := route];
    MintSent(s.made, s.sent, id, route, Entry(Frame(id, text), talk, added));
    hide OnceSent, Stamped;
  }

  lemma MintSent(made: map<nat, Route>, sent: seq<Entry>, id: nat, route: Route, e: Entry)
    requires (forall x | x in sent :: Stamped(made, x)) && OnceSent(made, sent) && id !in made && e.frame.id == id
    requires Clean(e.frame.inner) && (StartsWith(e.frame.inner, TUN) ==> route.persistent)
    ensures (forall x | x in sent + [e] :: Stamped(made[id := route], x)) && OnceSent(made[id := route], sent + [e])
  {
    hide Clean, StartsWith;
    var made', sent' := made[id := route], sent + [e];
    forall x | x in sent'
      ensures Stamped(made', x)
    {
      if x in sent { assert Stamped(made, x); }
    }
    forall x, y | 0 <= x < y < |sent'| && sent'[x].frame.id == sent'[y].frame.id
      ensures sent'[x].frame.id in made' && made'[sent'[x].frame.id].persistent
    {
      assert sent'[x] == sent[x] && sent[x] in sent;
      assert Stamped(made, sent[x]);
    }
  }

  lemma ReuseKnown(s: Seat, id: nat, text: seq<Byte>, added: bool, routes: map<nat, Route>)
    requires Known(s) && id in s.made && s.made[id].persistent && Clean(text)
    requires routes == s.table.routes || (routes == s.table.routes - {id} && s.made[id].inner.Some?)
    ensures var s' := Emit(s, Relayed(s.table.(routes := routes), Frame(id, text)), s.owner[id], added);
            Known(s') && Extends(s, s', None) && s'.made == s.made
  {
    hide Clean, StartsWith;
    var s' := Emit(s, Relayed(s.table.(routes := routes), Frame(id, text)), s.owner[id], added);
    forall e | e in s'.sent
      ensures Stamped(s'.made, e)
    {
      if e in s.sent { assert Stamped(s.made, e); }
    }
  }

  /** An id of a local client's own request. */
  ghost predicate Local(s: Seat, n: Node, id: nat) {
    && id in s.made && s.made[id].inner == None
    && id in s.owner && s.owner[id] == Talk(n, id, s.made[id].to, s.made[id].persistent)
  }

  lemma SayKnown(s: Seat, n: Node, from: Handle, line: seq<Byte>)
    requires Tidy(s, n) && Known(s) && Clean(line) && (from in s.table.tunnels || ParseRoute(line) == None)
    ensures var s' := Say(s, n, from, line);
            && Known(s') && Extends(s, s', None)
            && forall id | id in s'.made && id !in s.made :: Local(s', n, id)
  {
    var id := s.table.nextId;
    hide Tidy, Clean, Extends, ParseRoute;
    if StartsWith(line, TUN) {
      hide StartsWith;
      MintKnown(s, n, Route(from, None, true), line, Talk(n, id, from, true), false);
      FreshId(s, n);
      TunnelKnown(Emit(s, Mint(s.table, Route(from, None, true), line), Talk(n, id, from, true), false), from, id);
      TunnelExtends(s, Emit(s, Mint(s.table, Route(from, None, true), line), Talk(n, id, from, true), false), from, id);
    } else if from in s.table.tunnels {
      ReuseKnown(s, s.table.tunnels[from], line, false, s.table.routes);
      assert s.table.(routes := s.table.routes) == s.table;
    } else {
      hide StartsWith;
      FreshId(s, n);
      MintKnown(s, n, Route(from, None, false), line, Talk(n, id, from, false), false);
    }
  }

  lemma FreshId(s: Seat, n: Node)
    requires Tidy(s, n)
    ensures s.table.nextId !in s.owner
  {
  }

  lemma TunnelKnown(s: Seat, from: Handle, id: nat)
    requires Known(s) && id in s.made && s.made[id] == Route(from, None, true)
    ensures Known(s.(table := s.table.(tunnels := s.table.tunnels[from := id])))
  {
    hide Stamped;
  }

  lemma TunnelExtends(s: Seat, s1: Seat, from: Handle, id: nat)
    requires Extends(s, s1, None)
    ensures Extends(s, s1.(table := s1.table.(tunnels := s1.table.tunnels[from := id])), None)
  {
  }

  lemma HearKnown(s: Seat, n: Node, from: Handle, e: Entry)
    requires Tidy(s, n) && Known(s) && from !in s.table.tunnels && Clean(e.frame.inner)
    requires forall id | Reusable(s.table.routes, id, from, e.frame.id) :: id in s.owner && s.owner[id] == e.talk
    ensures var s' := Hear(s, from, e);
            && Known(s') && Extends(s, s', None) && s'.taken == s.taken
            && (s'.made == s.made
                || (s.table.nextId !in s.made
                    && s'.made == s.made[s.table.nextId :=
                       Route(from, Some(e.frame.id), StartsWith(e.frame.inner, TUN))]
                    && s'.owner == s.owner[s.table.nextId := e.talk]))
  {
    RelayLine(s.table, from, e.frame);
    FreshId(s, n);
    hide Tidy, Clean, Extends, HandleLine, BuildRoute;
    match Lookup(s.table, from, e.frame.id, FIRST_ID)
    case None =>
      hide StartsWith;
      MintKnown(s, n, Route(from, Some(e.frame.id), StartsWith(e.frame.inner, TUN)), e.frame.inner, e.talk, e.added);
    case Some(id) =>
      var routes := if StartsWith(e.frame.inner, TUN_CLOSE) then s.table.routes - {id} else s.table.routes;
      hide StartsWith;
      ReuseKnown(s, id, e.frame.inner, e.added, routes);
      assert s.table.(routes := s.table.routes) == s.table;
  }

  lemma CloseClean()
    ensures Clean(TUN_CLOSE) && !StartsWith(TUN_CLOSE, TUN)
  {
    assert forall i | 0 <= i < |TUN_CLOSE| :: 32 <= TUN_CLOSE[i] < 127 && TUN_CLOSE[i] != 92;
    assert forall i | 0 <= i < |TUN_CLOSE| :: ApcLaws.SafeAt(TUN_CLOSE, i);
    assert TUN_CLOSE[..4][3] == 45 && TUN[3] == 58;
  }

  /** The ids closed with a connection are its tunnels'. */
  lemma ClosingMade(s: Seat, n: Node, from: Handle)
    requires Tidy(s, n) && Known(s)
    ensures forall id | id in Closing(s.table, from) :: id in s.made && s.made[id].persistent && s.made[id].to == from
  {
    DeadIds(s.table, from, FIRST_ID);
    hide Stamped;
  }

  lemma {:induction false} CloserEntries(owner: map<nat, Talk>, ids: seq<nat>)
    ensures forall e | e in Closers(owner, ids) :: e.frame.id in ids && e.frame.inner == TUN_CLOSE
  {
    if ids != [] { CloserEntries(owner, ids[..|ids| - 1]); }
  }

  lemma LeaveKnown(s: Seat, n: Node, from: Handle)
    requires Tidy(s, n) && Known(s)
    ensures var s' := Leave(s, from);
            Known(s') && Extends(s, s', Some(from)) && s'.made == s.made && s'.taken == s.taken
  {
    var ids, s' := Closing(s.table, from), Leave(s, from);
    ClosingMade(s, n, from);
    CloserEntries(s.owner, ids);
    WithoutKeys(s.table.routes, ids);
    CloseClean();
    hide Closing, Without, Clean, StartsWith, Tidy;
    forall e | e in s'.sent
      ensures Stamped(s'.made, e)
    {
      if e in s.sent { assert Stamped(s.made, e); }
    }
    forall x, y | 0 <= x < y < |s'.sent| && s'.sent[x].frame.id == s'.sent[y].frame.id
      ensures s'.sent[x].frame.id in s'.made && s'.made[s'.sent[x].frame.id].persistent
    {
      if y >= |s.sent| { assert s'.sent[y] in Closers(s.owner, ids); }
    }
  }

  // ----- The tree -----

  /** The id that the request the wrapper knows as `q` has at the mux at `n`, if it came through there. */
  function Trail(w: World, n: Node, q: nat): (id: Option<nat>)
    ensures id.Some? ==> n in w.seats && id.value in w.seats[n].made
    decreases |n|
  {
    if n !in w.seats then None
    else if n == TOP then if q in w.seats[n].made then Some(q) else None
    else match Trail(w, Parent(n), q)
      case None => None
      case Some(id) =>
        var r := w.seats[Parent(n)].made[id];
        if r.to == Conduit(n) && r.inner.Some? && r.inner.value in w.seats[n].made then r.inner else None
  }

  /** The conduit's mux has had a frame under this id taken from it. */
  ghost predicate Bore(c: Seat, i: nat) { exists x :: 0 <= x < c.taken && x < |c.sent| && c.sent[x].frame.id == i }

  /** An id is its own client's, or leads to the id under which the conduit's mux sent the same request. */
  ghost predicate Linked(w: World, n: Node, j: nat)
    requires n in w.seats && j in w.seats[n].made
  {
    var r := w.seats[n].made[j];
    match r.inner
    case None => OwnedAt(w, n, j, Talk(n, j, r.to, r.persistent))
    case Some(i) =>
      var c := n + [r.to];
      && c in w.seats && i in w.seats[c].made && (r.persistent ==> w.seats[c].made[i].persistent)
      && Bore(w.seats[c], i) && j in w.seats[n].owner && OwnedAt(w, c, i, w.seats[n].owner[j])
  }

  /** Two ids lead to one id below only if that is a tunnel's. */
  ghost predicate Single(w: World, n: Node, j1: nat, j2: nat)
    requires n in w.seats && j1 in w.seats[n].made && j2 in w.seats[n].made
  {
    var r1, r2 := w.seats[n].made[j1], w.seats[n].made[j2];
    j1 != j2 && r1.inner.Some? && r1.to == r2.to && r1.inner == r2.inner ==>
      && n + [r1.to] in w.seats && r1.inner.value in w.seats[n + [r1.to]].made
      && w.seats[n + [r1.to]].made[r1.inner.value].persistent
  }

  ghost predicate Linking(w: World) {
    && (forall n, j {:trigger Linked(w, n, j)} | n in w.seats && j in w.seats[n].made :: Linked(w, n, j))
    && (forall n, j1, j2 {:trigger Single(w, n, j1, j2)} |
          n in w.seats && j1 in w.seats[n].made && j2 in w.seats[n].made :: Single(w, n, j1, j2))
  }

  ghost predicate Unread(s: Seat, id: nat)
    requires s.read <= |s.down|
  {
    forall a | a in s.down[..s.read] :: a.frame.id != id
  }

  /** A one-shot's route is there until its first reply; a client's tunnel's until its connection is gone. */
  ghost predicate Spent(s: Seat, n: Node, gone: set<(Node, Handle)>) {
    && s.read <= |s.down|
    && (forall id | id in s.made && !s.made[id].persistent :: id in s.table.routes <==> Unread(s, id))
    && (forall id | id in s.made && s.made[id].persistent && s.made[id].inner.None? && id !in s.table.routes ::
          (n, s.made[id].to) in gone)
  }

  /** The request heard as number `cause` bore the id `root`. */
  ghost predicate Rooted(w: World, cause: nat, root: nat) {
    TOP in w.seats && cause < |w.seats[TOP].sent| && w.seats[TOP].sent[cause].frame.id == root
  }

  /** A reply is where the trail of its request leads, under the id the request has there. */
  ghost predicate Placed(w: World, n: Node, a: Answer) {
    Trail(w, n, a.root) == Some(a.frame.id) && Rooted(w, a.cause, a.root) && ApcLaws.Safe(a.frame.inner)
  }

  ghost predicate PlacedAt(w: World, n: Node)
    requires n in w.seats
  {
    forall a | a in w.seats[n].down :: Placed(w, n, a)
  }

  ghost predicate GotPlaced(w: World, g: Got) {
    && Trail(w, g.node, g.root) == Some(g.id) && Rooted(w, g.cause, g.root)
    && w.seats[g.node].made[g.id].inner == None && w.seats[g.node].made[g.id].to == g.client
  }

  /** What came out of the mux at `n` for `q`, whose route here is `r`. */
  function Onward(w: World, n: Node, q: nat, r: Route): seq<seq<Byte>> {
    match r.inner
    case Some(_) => if n + [r.to] in w.seats then Under(w.seats[n + [r.to]].down, q) else []
    case None => Handed(w.got, n, q)
  }

  /** What should have, when it has read `texts`. */
  function Due(r: Route, texts: seq<seq<Byte>>): seq<seq<Byte>> {
    var all := if r.persistent then texts else First(texts);
    if r.inner.Some? then all else NonEmpty(all)
  }

  ghost predicate Stopped(w: World, n: Node, id: nat, r: Route)
    requires n in w.seats
  {
    (n, r.to) in w.gone || (r.persistent && id !in w.seats[n].table.routes)
  }

  /** All that is due has gone on, in order; or the beginning of it, and then nothing more ever will. */
  ghost predicate FlowAt(w: World, n: Node, q: nat)
    requires Trail(w, n, q).Some?
  {
    var s, id := w.seats[n], Trail(w, n, q).value;
    var r := s.made[id];
    && s.read <= |s.down|
    && var due := Due(r, Under(s.down[..s.read], q));
       Onward(w, n, q, r) <= due && (Onward(w, n, q, r) == due || Stopped(w, n, id, r))
  }

  ghost predicate MuxOk(w: World, n: Node)
    requires n in w.seats
  {
    Known(w.seats[n]) && Spent(w.seats[n], n, w.gone)
  }

  ghost predicate Flowing(w: World) {
    && (forall n {:trigger PlacedAt(w, n)} | n in w.seats :: PlacedAt(w, n))
    && (forall g | g in w.got :: GotPlaced(w, g))
    && (forall n, q {:trigger FlowAt(w, n, q)} | Trail(w, n, q).Some? :: FlowAt(w, n, q))
  }

  ghost predicate Replies(w: World) {
    && (forall n {:trigger MuxOk(w, n)} | n in w.seats :: MuxOk(w, n))
    && Linking(w) && Flowing(w)
  }

  // ----- Steps that move no reply -----

  /** No reply moves; what was made stays made, and a lost route is lost for good. */
  ghost predicate Calm(w: World, w': World) {
    && w'.seats.Keys == w.seats.Keys && w'.got == w.got && w.gone <= w'.gone
    && forall n {:trigger CalmAt(w.seats[n], w'.seats[n])} | n in w.seats :: CalmAt(w.seats[n], w'.seats[n])
  }

  ghost predicate CalmAt(s: Seat, s': Seat) {
    && s'.down == s.down && s'.read == s.read && s.sent <= s'.sent
    && (forall id | id in s.made :: id in s'.made && s'.made[id] == s.made[id])
    && (forall id | id in s.made && id in s'.table.routes :: id in s.table.routes)
  }

  lemma {:induction false} TrailStays(w: World, w': World, n: Node, q: nat)
    requires Calm(w, w') && Trail(w, n, q).Some?
    ensures Trail(w', n, q) == Trail(w, n, q)
    decreases |n|
  {
    assert CalmAt(w.seats[n], w'.seats[n]);
    if n != TOP {
      assert CalmAt(w.seats[Parent(n)], w'.seats[Parent(n)]);
      TrailStays(w, w', Parent(n), q);
    }
  }

  /** Where no trail leads there is no reply. */
  lemma NoTrail(w: World, n: Node, q: nat)
    requires Flowing(w) && Trail(w, n, q) == None
    ensures n in w.seats ==> Under(w.seats[n].down, q) == []
    ensures Handed(w.got, n, q) == []
    ensures forall h: Handle | n + [h] in w.seats :: Under(w.seats[n + [h]].down, q) == []
  {
    if n in w.seats {
      assert PlacedAt(w, n);
      assert forall a | a in w.seats[n].down :: Placed(w, n, a);
      NoneUnder(w.seats[n].down, q);
    }
    forall g | g in w.got
      ensures g.node != n || g.root != q
    {
      assert GotPlaced(w, g);
    }
    NoneHanded(w.got, n, q);
    forall h: Handle | n + [h] in w.seats
      ensures Under(w.seats[n + [h]].down, q) == []
    {
      var c := n + [h];
      assert Parent(c) == n && PlacedAt(w, c);
      assert forall a | a in w.seats[c].down :: Placed(w, c, a);
      NoneUnder(w.seats[c].down, q);
    }
  }

  lemma {:induction false} UnderPrefix(log: seq<Answer>, m: nat, q: nat)
    requires m <= |log|
    ensures Under(log[..m], q) <= Under(log, q)
    decreases |log|
  {
    if m < |log| {
      UnderPrefix(log[..|log| - 1], m, q);
      assert log[..|log| - 1][..m] == log[..m];
    } else {
      assert log[..m] == log;
    }
  }

  lemma RootedStays(w: World, w': World, cause: nat, root: nat)
    requires Calm(w, w') && Rooted(w, cause, root)
    ensures Rooted(w', cause, root)
  {
    assert CalmAt(w.seats[TOP], w'.seats[TOP]);
  }

  lemma FlowStays(w: World, w': World, n: Node, q: nat)
    requires Calm(w, w') && Flowing(w) && Trail(w', n, q).Some?
             && (n in w.seats ==> w.seats[n].read <= |w.seats[n].down|)
    ensures FlowAt(w', n, q)
  {
    assert CalmAt(w.seats[n], w'.seats[n]);
    var s' := w'.seats[n];
    var r := s'.made[Trail(w', n, q).value];
    if r.inner.Some? && n + [r.to] in w.seats { assert CalmAt(w.seats[n + [r.to]], w'.seats[n + [r.to]]); }
    if Trail(w, n, q).Some? {
      TrailStays(w, w', n, q);
      hide Flowing, Under, Handed, NonEmpty, Trail;
      assert FlowAt(w, n, q) by { FlowingAt(w, n, q); }
    } else {
      NoTrail(w, n, q);
      UnderPrefix(s'.down, s'.read, q);
      hide Flowing, Under, Handed, Trail;
    }
  }

  lemma FlowingAt(w: World, n: Node, q: nat)
    requires Flowing(w) && Trail(w, n, q).Some?
    ensures FlowAt(w, n, q)
  {
  }

  lemma CalmFlows(w: World, w': World)
    requires Calm(w, w') && Flowing(w) && forall n {:trigger MuxOk(w, n)} | n in w.seats :: MuxOk(w, n)
    ensures Flowing(w')
  {
    forall n | n in w'.seats
      ensures PlacedAt(w', n)
    {
      PlacedStays(w, w', n);
    }
    forall g | g in w'.got
      ensures GotPlaced(w', g)
    {
      assert GotPlaced(w, g) && CalmAt(w.seats[g.node], w'.seats[g.node]);
      TrailStays(w, w', g.node, g.root);
      RootedStays(w, w', g.cause, g.root);
    }
    forall n, q | Trail(w', n, q).Some?
      ensures FlowAt(w', n, q)
    {
      assert MuxOk(w, n);
      hide Flowing;
      FlowStays(w, w', n, q);
    }
  }

  lemma PlacedStays(w: World, w': World, n: Node)
    requires Calm(w, w') && Flowing(w) && n in w.seats
    ensures PlacedAt(w', n)
  {
    assert PlacedAt(w, n) && CalmAt(w.seats[n], w'.seats[n]);
    hide ApcLaws.Safe, Flowing;
    forall a | a in w'.seats[n].down
      ensures Placed(w', n, a)
    {
      assert Placed(w, n, a);
      TrailStays(w, w', n, a.root);
      RootedStays(w, w', a.cause, a.root);
    }
  }

  lemma ExtendsCalm(s: Seat, s': Seat, lost: Option<Handle>)
    requires Extends(s, s', lost)
    ensures CalmAt(s, s')
  {
  }

  /** Ids of replies are ids handed out. */
  lemma RepliesMade(w: World, n: Node)
    requires Flowing(w) && n in w.seats
    ensures forall a | a in w.seats[n].down :: a.frame.id in w.seats[n].made
  {
    assert PlacedAt(w, n);
    hide ApcLaws.Safe, Rooted;
    assert forall a | a in w.seats[n].down :: Placed(w, n, a);
  }

  lemma SpentStays(s: Seat, s': Seat, n: Node, gone: set<(Node, Handle)>, gone': set<(Node, Handle)>,
                   lost: Option<Handle>)
    requires Spent(s, n, gone) && Extends(s, s', lost) && Known(s) && gone <= gone'
    requires forall a | a in s.down :: a.frame.id in s.made
    requires lost.Some? ==> (n, lost.value) in gone'
    ensures Spent(s', n, gone')
  {
    hide Known, OnceSent;
    forall id | id in s'.made && !s'.made[id].persistent
      ensures id in s'.table.routes <==> Unread(s', id)
    {
      if id !in s.made {
        forall a | a in s'.down[..s'.read]
          ensures a.frame.id != id
        {
          assert a in s.down;
        }
      } else {
        assert Unread(s, id) <==> Unread(s', id);
      }
    }
  }

  /** Links last while ids, and what was sent and taken, are only added to. */
  lemma LinkStays(w: World, w': World, n: Node, j: nat)
    requires Grows(w, w') && Calm(w, w') && n in w.seats && j in w.seats[n].made && Linked(w, n, j)
    ensures j in w'.seats[n].made && Linked(w', n, j)
  {
    assert CalmAt(w.seats[n], w'.seats[n]) && SeatGrows(w.seats[n], w'.seats[n]);
    var r := w.seats[n].made[j];
    if r.inner.Some? {
      var c := n + [r.to];
      assert CalmAt(w.seats[c], w'.seats[c]) && SeatGrows(w.seats[c], w'.seats[c]);
      BoreStays(w.seats[c], w'.seats[c], r.inner.value);
    }
  }

  lemma BoreStays(c: Seat, c': Seat, i: nat)
    requires Bore(c, i) && c.sent <= c'.sent && c.taken <= c'.taken
    ensures Bore(c', i)
  {
    var x :| 0 <= x < c.taken && x < |c.sent| && c.sent[x].frame.id == i;
    assert c'.sent[x] == c.sent[x];
  }

  lemma SingleStays(w: World, w': World, n: Node, j1: nat, j2: nat)
    requires Calm(w, w') && n in w.seats && j1 in w.seats[n].made && j2 in w.seats[n].made && Single(w, n, j1, j2)
    ensures j1 in w'.seats[n].made && j2 in w'.seats[n].made && Single(w', n, j1, j2)
  {
    assert CalmAt(w.seats[n], w'.seats[n]);
    var c := n + [w.seats[n].made[j1].to];
    if c in w.seats { assert CalmAt(w.seats[c], w'.seats[c]); }
  }

  /** No new link: every new id is a local client's. */
  lemma LinksStay(w: World, w': World)
    requires Linking(w) && Grows(w, w') && Calm(w, w')
    requires forall n, j | n in w.seats && j in w'.seats[n].made && j !in w.seats[n].made :: Local(w'.seats[n], n, j)
    ensures Linking(w')
  {
    hide Linked, Single, Calm, Grows;
    KeysOf(w, w');
    forall n, j | n in w'.seats && j in w'.seats[n].made
      ensures Linked(w', n, j)
    {
      if j in w.seats[n].made { LinkStays(w, w', n, j); } else { LocalLink(w', n, j); }
    }
    forall n, j1, j2 | n in w'.seats && j1 in w'.seats[n].made && j2 in w'.seats[n].made
      ensures Single(w', n, j1, j2)
    {
      if j1 in w.seats[n].made && j2 in w.seats[n].made {
        SingleStays(w, w', n, j1, j2);
      } else {
        LocalSingle(w', n, j1, j2);
      }
    }
  }

  lemma KeysOf(w: World, w': World)
    requires Calm(w, w')
    ensures w'.seats.Keys == w.seats.Keys
  {
  }

  lemma LocalLink(w: World, n: Node, j: nat)
    requires n in w.seats && Local(w.seats[n], n, j)
    ensures Linked(w, n, j)
  {
  }

  lemma LocalSingle(w: World, n: Node, j1: nat, j2: nat)
    requires n in w.seats && j1 in w.seats[n].made && j2 in w.seats[n].made
    requires w.seats[n].made[j1].inner == None || w.seats[n].made[j2].inner == None
    ensures Single(w, n, j1, j2)
  {
  }

  /** One mux acted, moving no reply and linking to no conduit. */
  lemma PutReplies(w: World, n: Node, s': Seat, gone: set<(Node, Handle)>, lost: Option<Handle>)
    requires Inv(w) && Replies(w) && n in w.seats && Known(s') && Extends(w.seats[n], s', lost) && w.gone <= gone
    requires SeatGrows(w.seats[n], s') && (lost.Some? ==> (n, lost.value) in gone)
    requires forall id | id in s'.made && id !in w.seats[n].made :: Local(s', n, id)
    ensures Replies(Put(w, n, s').(gone := gone))
  {
    var w' := Put(w, n, s').(gone := gone);
    PutGrows(w, n, s');
    assert Calm(w, w') by {
      ExtendsCalm(w.seats[n], s', lost);
      hide Replies, Inv, Known, Extends, SeatGrows;
    }
    RepliesMade(w, n);
    hide Inv, Known, Calm, Linking, Flowing, SeatGrows;
    CalmFlows(w, w');
    GrowsAlike(w, Put(w, n, s'), w');
    LinksStay(w, w');
    forall m | m in w'.seats
      ensures MuxOk(w', m)
    {
      assert MuxOk(w, m);
      if m == n { SpentStays(w.seats[n], s', n, w.gone, gone, lost); } else { StillOk(w, w', m); }
    }
  }

  lemma StillOk(w: World, w': World, m: Node)
    requires m in w.seats && m in w'.seats && w'.seats[m] == w.seats[m] && w.gone <= w'.gone && MuxOk(w, m)
    ensures MuxOk(w', m)
  {
    hide Known, Unread;
  }

  lemma GrowsAlike(w: World, w1: World, w': World)
    requires Grows(w, w1) && w'.seats == w1.seats
    ensures Grows(w, w')
  {
  }

  lemma SayReplies(w: World, n: Node, from: Handle, line: seq<Byte>)
    requires Inv(w) && Replies(w) && CanSay(w, n, from, line)
    ensures Replies(Put(w, n, Say(w.seats[n], n, from, line)))
  {
    var s' := Say(w.seats[n], n, from, line);
    InOrder(w, n);
    assert MuxOk(w, n);
    SayKnown(w.seats[n], n, from, line);
    var made := SayTidy(w.seats[n], n, from, line);
    hide Inv, Replies, Known, Extends, SeatGrows, Say, Put, Spent, Tidy;
    PutReplies(w, n, s', w.gone, None);
    SameWorld(Put(w, n, s'));
  }

  lemma SameWorld(w: World)
    ensures w.(gone := w.gone) == w
  {
  }

  lemma LeaveReplies(w: World, n: Node, from: Handle)
    requires Inv(w) && Replies(w) && n in w.seats
    ensures Replies(Put(w, n, Leave(w.seats[n], from)).(gone := w.gone + {(n, from)}))
  {
    InOrder(w, n);
    assert MuxOk(w, n);
    LeaveKnown(w.seats[n], n, from);
    LeaveTidy(w.seats[n], n, from);
    hide Inv, Replies, Known, Extends, SeatGrows, Leave, Put, Spent, Tidy;
    PutReplies(w, n, Leave(w.seats[n], from), w.gone + {(n, from)}, Some(from));
  }

  lemma TakeReplies(w: World)
    requires Inv(w) && Replies(w) && TOP in w.seats && w.seats[TOP].taken < |w.seats[TOP].sent|
    ensures Replies(Put(w, TOP, Take(w.seats[TOP])))
  {
    var s := w.seats[TOP];
    assert MuxOk(w, TOP);
    TakeKnown(s);
    hide Inv, Replies, Known, Extends, Put, Spent;
    PutReplies(w, TOP, Take(s), w.gone, None);
    SameWorld(Put(w, TOP, Take(s)));
  }

  lemma TakeKnown(s: Seat)
    requires Known(s)
    ensures Known(Take(s)) && Extends(s, Take(s), None) && SeatGrows(s, Take(s)) && Take(s).made == s.made
  {
    hide Stamped, OnceSent;
  }

  // ----- A request relayed -----

  /** The id under which a frame is passed on leads to the id it bore, and no other id does but a tunnel's. */
  lemma ClimbLinks(w: World, w': World, c: Node, e: Entry)
    requires Linking(w) && Grows(w, w') && Calm(w, w') && c in w.seats && c != TOP && Parent(c) in w.seats
    requires MuxOk(w, c) && w.seats[c].taken < |w.seats[c].sent| && e == w.seats[c].sent[w.seats[c].taken]
    requires w'.seats[c] == Take(w.seats[c])
    requires forall n, j | n in w.seats && n != Parent(c) && j in w'.seats[n].made :: j in w.seats[n].made
    requires var p, s' := w.seats[Parent(c)], w'.seats[Parent(c)];
             s'.made == p.made
             || (p.table.nextId !in p.made
                 && s'.made == p.made[p.table.nextId :=
                    Route(Conduit(c), Some(e.frame.id), StartsWith(e.frame.inner, TUN))]
                 && s'.owner == p.owner[p.table.nextId := e.talk])
    requires OwnedAt(w, c, e.frame.id, e.talk)
    ensures Linking(w')
  {
    hide Linked, Single, Calm, Grows, StartsWith;
    KeysOf(w, w');
    forall n, j | n in w'.seats && j in w'.seats[n].made
      ensures Linked(w', n, j)
    {
      if j in w.seats[n].made { LinkStays(w, w', n, j); } else { NewLink(w, w', c, e, j); }
    }
    forall n, j1, j2 | n in w'.seats && j1 in w'.seats[n].made && j2 in w'.seats[n].made
      ensures Single(w', n, j1, j2)
    {
      if j1 in w.seats[n].made && j2 in w.seats[n].made {
        SingleStays(w, w', n, j1, j2);
      } else if j1 == j2 {
        SameId(w', n, j1);
      } else {
        NewSingle(w, w', c, e, if j1 in w.seats[n].made then j1 else j2, if j1 in w.seats[n].made then j2 else j1);
        SingleSwap(w', n, j1, j2);
        SingleSwap(w', n, j2, j1);
      }
    }
  }

  lemma SameId(w: World, n: Node, j: nat)
    requires n in w.seats && j in w.seats[n].made
    ensures Single(w, n, j, j)
  {
  }

  lemma SingleSwap(w: World, n: Node, j1: nat, j2: nat)
    requires n in w.seats && j1 in w.seats[n].made && j2 in w.seats[n].made
    ensures Single(w, n, j1, j2) ==> Single(w, n, j2, j1)
  {
  }

  lemma EntryStamped(w: World, c: Node)
    requires c in w.seats && MuxOk(w, c) && w.seats[c].taken < |w.seats[c].sent|
    ensures Stamped(w.seats[c].made, w.seats[c].sent[w.seats[c].taken])
  {
    hide Stamped, OnceSent, Spent;
  }

  lemma NewLink(w: World, w': World, c: Node, e: Entry, j: nat)
    requires c in w.seats && c != TOP && Parent(c) in w'.seats && c in w'.seats && CalmAt(w.seats[c], w'.seats[c])
    requires MuxOk(w, c) && w.seats[c].taken < |w.seats[c].sent| && e == w.seats[c].sent[w.seats[c].taken]
    requires w'.seats[c] == Take(w.seats[c]) && j in w'.seats[Parent(c)].made
    requires w'.seats[Parent(c)].made[j] == Route(Conduit(c), Some(e.frame.id), StartsWith(e.frame.inner, TUN))
    requires OwnedAt(w, c, e.frame.id, e.talk) && OwnedAt(w', Parent(c), j, e.talk)
    ensures Linked(w', Parent(c), j)
  {
    EntryStamped(w, c);
    hide Known, Spent, StartsWith, Clean;
    assert Parent(c) + [Conduit(c)] == c;
    assert w'.seats[c].sent[w.seats[c].taken] == e;
  }

  /** A second id for one below: that one was sent twice, so it is a tunnel's. */
  lemma NewSingle(w: World, w': World, c: Node, e: Entry, j1: nat, j2: nat)
    requires Linking(w) && c in w.seats && c != TOP && Parent(c) in w.seats && Parent(c) in w'.seats && c in w'.seats
    requires CalmAt(w.seats[c], w'.seats[c]) && MuxOk(w, c)
    requires w.seats[c].taken < |w.seats[c].sent| && e == w.seats[c].sent[w.seats[c].taken]
    requires j1 in w.seats[Parent(c)].made && j1 in w'.seats[Parent(c)].made && j2 in w'.seats[Parent(c)].made
    requires w'.seats[Parent(c)].made[j1] == w.seats[Parent(c)].made[j1]
    requires w'.seats[Parent(c)].made[j2] == Route(Conduit(c), Some(e.frame.id), StartsWith(e.frame.inner, TUN))
    ensures Single(w', Parent(c), j1, j2)
  {
    EntryStamped(w, c);
    assert OnceSent(w.seats[c].made, w.seats[c].sent);
    hide Known, Spent, StartsWith, Clean;
    assert Parent(c) + [Conduit(c)] == c;
    assert Linked(w, Parent(c), j1);
    var r1 := w.seats[Parent(c)].made[j1];
    if r1.inner == Some(e.frame.id) && r1.to == Conduit(c) {
      var x :| 0 <= x < w.seats[c].taken && x < |w.seats[c].sent| && w.seats[c].sent[x].frame.id == e.frame.id;
      assert w.seats[c].made[e.frame.id].persistent;
    }
  }

  lemma ClimbReplies(w: World, c: Node)
    requires Inv(w) && Replies(w) && CanClimb(w, c)
    ensures Replies(Climb(w, c))
  {
    var w', p, h, e := Climb(w, c), Parent(c), Conduit(c), w.seats[c].sent[w.seats[c].taken];
    assert MuxOk(w, c) && MuxOk(w, p);
    EntryStamped(w, c);
    HeardWell(w, c);
    ClimbParent(w, c);
    ClimbOthers(w, c);
    ClimbTakes(w, c);
    ClimbSeats(w, c);
    hide Inv, SeatOk, Tidy, Replies, Hear, Climb, Grows, Known, Spent, OnceSent, Clean, StartsWith, OwnedAt;
    HearKnown(w.seats[p], p, h, e);
    assert Calm(w, w') by { ClimbCalm(w, c); }
    ClimbFinish(w, w', c, e);
  }

  lemma ClimbTakes(w: World, c: Node)
    requires CanClimb(w, c)
    ensures Climb(w, c).seats[c] == Take(w.seats[c]) && Climb(w, c).gone == w.gone && Parent(c) != c
  {
    hide Hear;
  }

  lemma ClimbCalm(w: World, c: Node)
    requires CanClimb(w, c)
    requires Extends(w.seats[Parent(c)], Hear(w.seats[Parent(c)], Conduit(c), w.seats[c].sent[w.seats[c].taken]), None)
    ensures Calm(w, Climb(w, c))
  {
    ClimbSeats(w, c);
    ClimbTakes(w, c);
    ClimbOthers(w, c);
    hide Hear, Climb, Parent, Conduit;
    var w' := Climb(w, c);
    forall n | n in w.seats
      ensures CalmAt(w.seats[n], w'.seats[n])
    {
      if n != c && n != Parent(c) { assert Same(w, w', n); }
    }
  }

  lemma ClimbFinish(w: World, w': World, c: Node, e: Entry)
    requires Inv(w) && Replies(w) && Grows(w, w') && Calm(w, w') && w'.gone == w.gone
    requires c in w.seats && c != TOP && Parent(c) in w.seats && Parent(c) != c
    requires w.seats[c].taken < |w.seats[c].sent| && e == w.seats[c].sent[w.seats[c].taken]
    requires w'.seats.Keys == w.seats.Keys && w'.seats[c] == Take(w.seats[c])
    requires forall m | m in w.seats && m != Parent(c) && m != c :: Same(w, w', m)
    requires Known(w'.seats[Parent(c)]) && Extends(w.seats[Parent(c)], w'.seats[Parent(c)], None)
    requires var p, s' := w.seats[Parent(c)], w'.seats[Parent(c)];
             s'.made == p.made
             || (p.table.nextId !in p.made
                 && s'.made == p.made[p.table.nextId :=
                    Route(Conduit(c), Some(e.frame.id), StartsWith(e.frame.inner, TUN))]
                 && s'.owner == p.owner[p.table.nextId := e.talk])
    requires OwnedAt(w, c, e.frame.id, e.talk)
    ensures Replies(w')
  {
    hide Inv, Known, Calm, Linking, Flowing, Grows, Extends, Parent, Conduit, StartsWith, Spent;
    assert MuxOk(w, c) && MuxOk(w, Parent(c));
    CalmFlows(w, w');
    forall n, j | n in w.seats && n != Parent(c) && j in w'.seats[n].made
      ensures j in w.seats[n].made
    {
      if n != c { assert Same(w, w', n); }
    }
    ClimbLinks(w, w', c, e);
    forall m | m in w'.seats
      ensures MuxOk(w', m)
    {
      assert MuxOk(w, m);
      RepliesMade(w, m);
      if m == Parent(c) {
        SpentStays(w.seats[m], w'.seats[m], m, w.gone, w.gone, None);
      } else if m == c {
        TakeKnown(w.seats[c]);
        SpentStays(w.seats[m], w'.seats[m], m, w.gone, w.gone, None);
      } else {
        assert Same(w, w', m);
        StillOk(w, w', m);
      }
    }
  }

  // ----- A reply from the wrapper -----

  lemma {:induction false} TrailSame(w: World, w': World, n: Node, q: nat)
    requires w'.seats.Keys == w.seats.Keys && forall m | m in w.seats :: w'.seats[m].made == w.seats[m].made
    ensures Trail(w', n, q) == Trail(w, n, q)
    decreases |n|
  {
    if n != TOP { TrailSame(w, w', Parent(n), q); }
  }

  /** A reply is added to what comes down to `n`. */
  ghost predicate Adds(w: World, w': World, n: Node, a: Answer) {
    && n in w.seats && w' == Put(w, n, w.seats[n].(down := w.seats[n].down + [a]))
    && Placed(w, n, a)
  }

  lemma AddsMade(w: World, w': World, n: Node, a: Answer)
    requires Adds(w, w', n, a)
    ensures w'.seats.Keys == w.seats.Keys && w'.got == w.got && w'.gone == w.gone
    ensures forall m | m in w.seats ::
              && w'.seats[m].made == w.seats[m].made && w'.seats[m].table == w.seats[m].table
              && w'.seats[m].read == w.seats[m].read && w'.seats[m].sent == w.seats[m].sent
              && w'.seats[m].taken == w.seats[m].taken && w'.seats[m].owner == w.seats[m].owner
    ensures forall m | m in w.seats :: w'.seats[m].down == if m == n then w.seats[m].down + [a] else w.seats[m].down
  {
    hide Placed;
  }

  lemma AddsPlaced(w: World, w': World, n: Node, a: Answer, m: Node)
    requires Adds(w, w', n, a) && m in w.seats && PlacedAt(w, m) && m in w'.seats
    ensures PlacedAt(w', m)
  {
    AddsMade(w, w', n, a);
    hide Placed;
    forall b | b in w'.seats[m].down
      ensures Placed(w', m, b)
    {
      if b != a || m != n { assert Placed(w, m, b); }
      PlacedAlike(w, w', m, b);
    }
  }

  /** What places a reply. */
  ghost predicate AlikeMade(w: World, w': World) {
    w'.seats.Keys == w.seats.Keys
    && forall m {:trigger w'.seats[m]} | m in w.seats ::
         w'.seats[m].made == w.seats[m].made && w'.seats[m].sent == w.seats[m].sent
  }

  lemma PlacedAlike(w: World, w': World, n: Node, a: Answer)
    requires AlikeMade(w, w') && Placed(w, n, a)
    ensures Placed(w', n, a)
  {
    hide ApcLaws.Safe;
    assert TOP in w.seats ==> w'.seats[TOP].sent == w.seats[TOP].sent;
    TrailSame(w, w', n, a.root);
  }

  lemma GotAlike(w: World, w': World, g: Got)
    requires AlikeMade(w, w') && GotPlaced(w, g)
    ensures GotPlaced(w', g)
  {
    assert TOP in w.seats ==> w'.seats[TOP].sent == w.seats[TOP].sent;
    TrailSame(w, w', g.node, g.root);
  }

  lemma SeatKept(s: Seat, s': Seat, n: Node, gone: set<(Node, Handle)>)
    requires Known(s) && Spent(s, n, gone) && s'.made == s.made && s'.table == s.table && s'.read == s.read
    requires s'.sent == s.sent && s'.owner == s.owner && s.down <= s'.down
    ensures Known(s') && Spent(s', n, gone)
  {
    hide Stamped, OnceSent;
    assert s'.down[..s'.read] == s.down[..s.read];
    assert forall id :: Unread(s', id) <==> Unread(s, id);
  }

  lemma LinksSame(w: World, w': World)
    requires Linking(w) && w'.seats.Keys == w.seats.Keys
    requires forall m | m in w.seats ::
               && w'.seats[m].made == w.seats[m].made && w'.seats[m].owner == w.seats[m].owner
               && w'.seats[m].sent == w.seats[m].sent && w'.seats[m].taken == w.seats[m].taken
    ensures Linking(w')
  {
    forall n, j | n in w'.seats && j in w'.seats[n].made
      ensures Linked(w', n, j)
    {
      assert Linked(w, n, j);
      var r := w.seats[n].made[j];
      if r.inner.Some? { BoreStays(w.seats[n + [r.to]], w'.seats[n + [r.to]], r.inner.value); }
    }
    forall n, j1, j2 | n in w'.seats && j1 in w'.seats[n].made && j2 in w'.seats[n].made
      ensures Single(w', n, j1, j2)
    {
      assert Single(w, n, j1, j2);
    }
  }

  lemma AnswerReplies(w: World, cause: nat, text: seq<Byte>)
    requires Inv(w) && Replies(w) && CanAnswer(w, cause, text)
    ensures Replies(Put(w, TOP, Reply(w.seats[TOP], w.seats[TOP].sent[cause].frame.id, cause, text)))
  {
    var id := w.seats[TOP].sent[cause].frame.id;
    var a := Answer(Frame(id, text), cause, id);
    var w' := Put(w, TOP, Reply(w.seats[TOP], id, cause, text));
    assert MuxOk(w, TOP);
    assert Stamped(w.seats[TOP].made, w.seats[TOP].sent[cause]);
    hide ApcLaws.Safe, Known, Spent, Inv, Linking, Flowing, PlacedAt;
    assert Adds(w, w', TOP, a);
    AddsMade(w, w', TOP, a);
    LinksSame(w, w');
    forall m | m in w'.seats
      ensures MuxOk(w', m) && PlacedAt(w', m)
    {
      assert MuxOk(w, m);
      SeatKept(w.seats[m], w'.seats[m], m, w.gone);
      assert PlacedAt(w, m) by { FlowParts(w, m); }
      AddsPlaced(w, w', TOP, a, m);
    }
    forall m, q | Trail(w', m, q).Some?
      ensures FlowAt(w', m, q)
    {
      TrailSame(w, w', m, q);
      FlowingAt(w, m, q);
      hide Trail, Adds;
      TopFlow(w, w', a, m, q);
    }
    GotsPlaced(w, w');
    Assembled(w');
  }

  lemma FlowParts(w: World, m: Node)
    requires Flowing(w) && m in w.seats
    ensures PlacedAt(w, m)
  {
  }

  lemma GotsPlaced(w: World, w': World)
    requires (forall g | g in w.got :: GotPlaced(w, g)) && w'.got == w.got && AlikeMade(w, w')
    ensures forall g | g in w'.got :: GotPlaced(w', g)
  {
    forall g | g in w'.got
      ensures GotPlaced(w', g)
    {
      GotAlike(w, w', g);
    }
  }

  lemma Assembled(w: World)
    requires forall m {:trigger MuxOk(w, m)} | m in w.seats :: MuxOk(w, m)
    requires forall m {:trigger PlacedAt(w, m)} | m in w.seats :: PlacedAt(w, m)
    requires forall m, q {:trigger FlowAt(w, m, q)} | Trail(w, m, q).Some? :: FlowAt(w, m, q)
    requires (forall g | g in w.got :: GotPlaced(w, g)) && Linking(w)
    ensures Replies(w)
  {
  }

  /** A reply waiting at the top has not been read there, and the top is below nothing. */
  lemma TopFlow(w: World, w': World, a: Answer, m: Node, q: nat)
    requires Adds(w, w', TOP, a) && Trail(w, m, q).Some? && FlowAt(w, m, q) && Trail(w', m, q) == Trail(w, m, q)
    ensures FlowAt(w', m, q)
  {
    AddsMade(w, w', TOP, a);
    hide Trail, Under, Handed, NonEmpty, Adds, Put;
    var s, s' := w.seats[m], w'.seats[m];
    assert s'.down[..s.read] == s.down[..s.read];
    var r := s.made[Trail(w, m, q).value];
    assert |m + [r.to]| > 0;
  }

  // ----- A reply read -----

  /** `n` has read reply `a`; its mux, and no other, has one route fewer if that was a one-shot's. */
  ghost predicate ReadAt(w: World, w1: World, n: Node, a: Answer) {
    && n in w.seats && w.seats[n].read < |w.seats[n].down| && a == w.seats[n].down[w.seats[n].read]
    && w1 == Put(w, n, Read(w.seats[n]))
  }

  lemma ReadIs(s: Seat)
    requires Known(s) && s.read < |s.down|
    ensures var s', id := Read(s), s.down[s.read].frame.id;
            && s' == s.(read := s.read + 1, table := s'.table)
            && s'.table.routes == (if id in s.table.routes && !s.made[id].persistent then s.table.routes - {id}
                                   else s.table.routes)
            && s'.table.tunnels == s.table.tunnels
  {
    var f := s.down[s.read].frame;
    if f.id in s.table.routes { ReplyRead(s.table, f); } else { ReplyUnknown(s.table, f); }
    hide HandleReply, Stamped, OnceSent;
  }

  lemma ReadSpent(s: Seat, n: Node, gone: set<(Node, Handle)>)
    requires Known(s) && Spent(s, n, gone) && s.read < |s.down|
    ensures Known(Read(s)) && Spent(Read(s), n, gone)
  {
    ReadIs(s);
    var s', id := Read(s), s.down[s.read].frame.id;
    hide Read, Stamped, OnceSent;
    assert s.down[..s.read + 1] == s.down[..s.read] + [s.down[s.read]];
    assert forall k :: Unread(s', k) <==> Unread(s, k) && k != id;
  }

  /** One trail, one request, for an id that only one reply is passed on under. */
  lemma {:induction false} RootUnique(w: World, n: Node, q1: nat, q2: nat)
    requires Linking(w) && Trail(w, n, q1).Some? && Trail(w, n, q2) == Trail(w, n, q1)
    requires !w.seats[n].made[Trail(w, n, q1).value].persistent
    ensures q1 == q2
    decreases |n|
  {
    if n != TOP {
      var p := Parent(n);
      var j1, j2 := Trail(w, p, q1).value, Trail(w, p, q2).value;
      assert p + [Conduit(n)] == n;
      assert Linked(w, p, j1) && Single(w, p, j1, j2);
      hide Trail, Linking;
      RootUnique(w, p, q1, q2);
    }
  }

  /** What reading leaves as it was. */
  lemma ReadWorld(w: World, w1: World, n: Node, a: Answer)
    requires ReadAt(w, w1, n, a) && Known(w.seats[n])
    ensures w1.seats.Keys == w.seats.Keys && w1.gone == w.gone && w1.got == w.got
    ensures forall m | m in w.seats ::
              && w1.seats[m].made == w.seats[m].made && w1.seats[m].down == w.seats[m].down
              && w1.seats[m].owner == w.seats[m].owner
              && w1.seats[m].sent == w.seats[m].sent && w1.seats[m].taken == w.seats[m].taken
    ensures forall m | m in w.seats && m != n :: w1.seats[m] == w.seats[m]
    ensures w1.seats[n] == Read(w.seats[n])
  {
    ReadIs(w.seats[n]);
    hide Read, Known;
  }

  /** Reading: everything but the flow at `n` of that very request is as before. */
  lemma ReadOthers(w: World, w1: World, n: Node, a: Answer, m: Node, q: nat)
    requires Inv(w) && Replies(w) && ReadAt(w, w1, n, a) && Trail(w, m, q).Some? && (m != n || q != a.root)
    ensures Trail(w1, m, q) == Trail(w, m, q) && FlowAt(w1, m, q)
  {
    hide *;
    ReadHere(w, w1, n, a);
    MuxKnown(w, n);
    TrailSeat(w, m, q);
    MuxKnown(w, m);
    ReadWorld(w, w1, n, a);
    TrailSame(w, w1, m, q);
    FlowingIn(w, m, q);
    if m == n { ReadSame(w.seats[n], a, q); }
    OnwardSame(w, w1, m, q, w.seats[m].made[Trail(w, m, q).value]);
    FlowSame(w, w1, m, q);
  }

  lemma MuxKnown(w: World, n: Node)
    requires Replies(w) && n in w.seats
    ensures Known(w.seats[n]) && w.seats[n].read <= |w.seats[n].down|
  {
    assert MuxOk(w, n);
    hide Known, Linking, Flowing;
  }

  lemma ReadHere(w: World, w1: World, n: Node, a: Answer)
    requires ReadAt(w, w1, n, a)
    ensures n in w.seats && w.seats[n].read < |w.seats[n].down| && a == w.seats[n].down[w.seats[n].read]
  {
    hide Read, Put;
  }

  /** Reading a reply to one request leaves what was read for another. */
  lemma ReadSame(s: Seat, a: Answer, q: nat)
    requires Known(s) && s.read < |s.down| && a == s.down[s.read] && q != a.root
    ensures var s' := Read(s);
            && s'.read <= |s'.down| && Under(s'.down[..s'.read], q) == Under(s.down[..s.read], q)
            && forall id | id !in s.table.routes :: id !in s'.table.routes
  {
    ReadIs(s);
    hide Read, Known, Under;
    assert s.down[..s.read + 1] == s.down[..s.read] + [a];
    UnderNext(s.down[..s.read], a, q);
  }

  lemma OnwardSame(w: World, w1: World, m: Node, q: nat, r: Route)
    requires w1.seats.Keys == w.seats.Keys && w1.got == w.got
    requires forall x | x in w.seats :: w1.seats[x].down == w.seats[x].down
    ensures Onward(w1, m, q, r) == Onward(w, m, q, r)
  {
    hide Under, Handed;
  }

  lemma FlowingIn(w: World, m: Node, q: nat)
    requires Replies(w) && Trail(w, m, q).Some?
    ensures FlowAt(w, m, q)
  {
    hide Linking, MuxOk, FlowAt, PlacedAt;
  }

  lemma DueNext(r: Route, texts: seq<seq<Byte>>, t: seq<Byte>)
    ensures r.persistent && r.inner.Some? ==> Due(r, texts + [t]) == Due(r, texts) + [t]
    ensures r.persistent && r.inner.None? ==> Due(r, texts + [t]) == Due(r, texts) + if t == [] then [] else [t]
    ensures !r.persistent && texts != [] ==> Due(r, texts + [t]) == Due(r, texts)
    ensures !r.persistent && texts == [] ==>
              Due(r, texts) == [] && Due(r, texts + [t]) == if r.inner.None? && t == [] then [] else [t]
  {
    NonEmptyNext(texts, t);
    NonEmptyNext([], t);
    assert [] + [t] == [t];
    hide NonEmpty;
    assert NonEmpty([]) == [] by { NothingNonEmpty(); }
    assert Due(r, texts) + [] == Due(r, texts);
  }

  lemma NothingNonEmpty()
    ensures NonEmpty([]) == []
  {
  }

  /** What a reply adds to what went on. */
  function Passes(w: World, n: Node, a: Answer): seq<seq<Byte>>
    requires n in w.seats
  {
    var routes := w.seats[n].table.routes;
    if a.frame.id !in routes || (n, routes[a.frame.id].to) in w.gone
      || (routes[a.frame.id].inner.None? && a.frame.inner == [])
    then [] else [a.frame.inner]
  }

  /** One more reply under a route: what it adds to what went on is what it adds to what is due. */
  lemma NextDue(r: Route, texts: seq<seq<Byte>>, t: seq<Byte>, on: seq<seq<Byte>>, there: bool, gone: bool)
    requires on <= Due(r, texts) && (on == Due(r, texts) || gone || (r.persistent && !there))
    requires !r.persistent ==> (there <==> texts == [])
    ensures var due := Due(r, texts + [t]);
            var out := on + if !there || gone || (r.inner.None? && t == []) then [] else [t];
            out <= due && (out == due || gone || (r.persistent && !there))
  {
    DueNext(r, texts, t);
    hide Due;
    assert on + [] == on;
  }

  /** At `n`, for the request of the reply just read, before it is passed on: what it will add is what is due. */
  lemma ReadFlow(w: World, w1: World, n: Node, a: Answer)
    requires Inv(w) && Replies(w) && ReadAt(w, w1, n, a)
    ensures Trail(w, n, a.root) == Some(a.frame.id) && Trail(w1, n, a.root) == Some(a.frame.id)
    ensures Reaches(w1, n, a, Passes(w, n, a))
  {
    assert MuxOk(w, n);
    PlacedIn(w, n, a);
    ReadWorld(w, w1, n, a);
    TrailSame(w, w1, n, a.root);
    FlowingAt(w, n, a.root);
    ReadLog(w.seats[n], a);
    var s, r := w.seats[n], w.seats[n].made[a.frame.id];
    if !r.persistent { OneShotRead(w, n, a.root, a.frame.id); }
    OnwardSame(w, w1, n, a.root, r);
    hide Replies, Inv, Trail, Read, Under, Due, ReadAt, Spent, ApcLaws.Safe, Onward, Known;
    NextDue(r, Under(s.down[..s.read], a.root), a.frame.inner, Onward(w, n, a.root, r),
            a.frame.id in s.table.routes, (n, r.to) in w.gone);
  }

  lemma ReadLog(s: Seat, a: Answer)
    requires Known(s) && s.read < |s.down| && a == s.down[s.read]
    ensures var s' := Read(s);
            && s'.made == s.made && s'.read == s.read + 1 && s'.down == s.down
            && Under(s'.down[..s'.read], a.root) == Under(s.down[..s.read], a.root) + [a.frame.inner]
            && (forall id | id in s.table.routes :: id in s.made && s.made[id] == s.table.routes[id])
            && (a.frame.id in s.made && s.made[a.frame.id].persistent ==>
                  (a.frame.id in s'.table.routes <==> a.frame.id in s.table.routes))
  {
    ReadIs(s);
    RouteMade(s);
    hide Read, Known, Under;
    assert s.down[..s.read + 1] == s.down[..s.read] + [a];
    UnderNext(s.down[..s.read], a, a.root);
  }

  lemma RouteMade(s: Seat)
    requires Known(s)
    ensures forall id | id in s.table.routes :: id in s.made && s.made[id] == s.table.routes[id]
  {
    hide Stamped, OnceSent;
  }

  /** With `more`, what went on from `n` for the request of `a` is what is due, or the beginning of it and the end. */
  ghost predicate Reaches(w: World, n: Node, a: Answer, more: seq<seq<Byte>>) {
    && n in w.seats && a.frame.id in w.seats[n].made && w.seats[n].read <= |w.seats[n].down|
    && var r := w.seats[n].made[a.frame.id];
       var due := Due(r, Under(w.seats[n].down[..w.seats[n].read], a.root));
       var out := Onward(w, n, a.root, r) + more;
       out <= due && (out == due || Stopped(w, n, a.frame.id, r))
  }

  /** A one-shot's route is there exactly while no reply to its request has been read. */
  lemma OneShotRead(w: World, n: Node, q: nat, id: nat)
    requires Replies(w) && Trail(w, n, q) == Some(id) && !w.seats[n].made[id].persistent
    ensures w.seats[n].read <= |w.seats[n].down|
    ensures id in w.seats[n].table.routes <==> Under(w.seats[n].down[..w.seats[n].read], q) == []
  {
    var s := w.seats[n];
    assert MuxOk(w, n) && PlacedAt(w, n);
    var log := s.down[..s.read];
    if Under(log, q) != [] {
      SomeUnder(log, q);
      var a :| a in log && a.root == q;
      assert a in s.down && !Unread(s, id);
    } else if !Unread(s, id) {
      var a :| a in log && a.frame.id == id;
      assert a in s.down;
      RootUnique(w, n, q, a.root);
      UnderHas(log, a);
    }
  }

  lemma {:induction false} UnderHas(log: seq<Answer>, a: Answer)
    requires a in log
    ensures Under(log, a.root) != []
  {
    if log[|log| - 1] != a {
      assert a in log[..|log| - 1];
      UnderHas(log[..|log| - 1], a);
    }
  }

  /** The reply goes to the mux below: what the flow at `n` still lacked is there. */
  lemma PassedDown(w1: World, w2: World, n: Node, a: Answer, b: Answer)
    requires Trail(w1, n, a.root) == Some(a.frame.id) && Trail(w2, n, a.root) == Trail(w1, n, a.root)
    requires w1.seats[n].made[a.frame.id].inner.Some? && b.root == a.root
    requires Adds(w1, w2, n + [w1.seats[n].made[a.frame.id].to], b) && Reaches(w1, n, a, [b.frame.inner])
    ensures FlowAt(w2, n, a.root)
  {
    var c := n + [w1.seats[n].made[a.frame.id].to];
    AddsMade(w1, w2, c, b);
    UnderNext(w1.seats[c].down, b, a.root);
    hide Trail, Under, Handed, NonEmpty, Due, Adds, Put;
  }

  /** ... and no other flow has changed. */
  lemma PassedBy(w1: World, w2: World, n: Node, h: Handle, b: Answer, m: Node, q: nat)
    requires Adds(w1, w2, n + [h], b) && Trail(w1, m, q).Some? && Trail(w2, m, q) == Trail(w1, m, q)
    requires FlowAt(w1, m, q) && (m != n || q != b.root) && w1.seats[m].read <= |w1.seats[m].down|
    ensures FlowAt(w2, m, q)
  {
    AddsMade(w1, w2, n + [h], b);
    hide Trail, Under, Adds, Put;
    var s1 := w1.seats[m];
    var r := s1.made[Trail(w1, m, q).value];
    assert s1.read <= |s1.down| ==> w2.seats[m].down[..s1.read] == s1.down[..s1.read];
    OnwardBy(w1, w2, n, h, b, m, q, r);
    hide Onward, FlowAt;
    FlowSame(w1, w2, m, q);
  }

  lemma OnwardBy(w1: World, w2: World, n: Node, h: Handle, b: Answer, m: Node, q: nat, r: Route)
    requires Adds(w1, w2, n + [h], b) && (m != n || q != b.root)
    ensures Onward(w2, m, q, r) == Onward(w1, m, q, r)
  {
    AddsMade(w1, w2, n + [h], b);
    UnderNext(w1.seats[n + [h]].down, b, q);
    hide Under, Adds, Handed;
    if m != n { ChildOfOne(m, n, r.to, h); }
  }

  /** A flow whose log, route and output are as before. */
  lemma FlowSame(w1: World, w2: World, m: Node, q: nat)
    requires Trail(w1, m, q).Some? && Trail(w2, m, q) == Trail(w1, m, q) && FlowAt(w1, m, q)
    requires w1.seats[m].read <= |w1.seats[m].down| && w2.seats[m].read <= |w2.seats[m].down| && w1.gone <= w2.gone
    requires w2.seats[m].made == w1.seats[m].made
    requires Under(w2.seats[m].down[..w2.seats[m].read], q) == Under(w1.seats[m].down[..w1.seats[m].read], q)
    requires var id := Trail(w1, m, q).value;
             var r := w1.seats[m].made[id];
             && Onward(w2, m, q, r) == Onward(w1, m, q, r)
             && (r.persistent && id !in w1.seats[m].table.routes ==> id !in w2.seats[m].table.routes)
    ensures FlowAt(w2, m, q)
  {
    hide Trail, Under, Onward, Due;
  }

  lemma ChildOfOne(m: Node, n: Node, h: Handle, k: Handle)
    requires m != n
    ensures m + [h] != n + [k]
  {
    assert Parent(m + [h]) == m && Parent(n + [k]) == n;
  }

  /** The reply goes to a client. */
  lemma HandedDown(w1: World, w2: World, n: Node, a: Answer, g: Got)
    requires w2 == w1.(got := w1.got + [g]) && g.node == n && g.root == a.root
    requires Trail(w1, n, a.root) == Some(a.frame.id) && Trail(w2, n, a.root) == Trail(w1, n, a.root)
    requires w1.seats[n].made[a.frame.id].inner == None && Reaches(w1, n, a, [g.text])
    ensures FlowAt(w2, n, a.root)
  {
    HandedNext(w1.got, g, n, a.root);
    hide Trail, Under, Handed, NonEmpty, Due;
  }

  lemma HandedBy(w1: World, w2: World, g: Got, m: Node, q: nat)
    requires w2 == w1.(got := w1.got + [g]) && Trail(w1, m, q).Some? && Trail(w2, m, q) == Trail(w1, m, q)
    requires FlowAt(w1, m, q) && (m != g.node || q != g.root)
    ensures FlowAt(w2, m, q)
  {
    HandedNext(w1.got, g, m, q);
    hide Trail, Under, Handed, NonEmpty, Due;
  }

  /** Nothing is passed on. */
  lemma NothingPassed(w1: World, n: Node, a: Answer)
    requires Trail(w1, n, a.root) == Some(a.frame.id) && Reaches(w1, n, a, [])
    ensures FlowAt(w1, n, a.root)
  {
    hide Trail, Under, Handed, NonEmpty, Due, Onward;
    assert Onward(w1, n, a.root, w1.seats[n].made[a.frame.id]) + []
           == Onward(w1, n, a.root, w1.seats[n].made[a.frame.id]);
  }

  /** After the read: the muxes, the links and the places are in order. */
  lemma ReadOk(w: World, w1: World, n: Node, a: Answer)
    requires Inv(w) && Replies(w) && ReadAt(w, w1, n, a)
    ensures Linking(w1) && (forall m {:trigger MuxOk(w1, m)} | m in w1.seats :: MuxOk(w1, m))
    ensures forall m {:trigger PlacedAt(w1, m)} | m in w1.seats :: PlacedAt(w1, m)
    ensures forall g | g in w1.got :: GotPlaced(w1, g)
  {
    assert MuxOk(w, n);
    ReadWorld(w, w1, n, a);
    hide Inv, Known, Spent, Linking, Flowing, ReadAt, Read;
    LinksSame(w, w1);
    GotsPlaced(w, w1);
    ReadSpent(w.seats[n], n, w.gone);
    forall m | m in w1.seats
      ensures MuxOk(w1, m) && PlacedAt(w1, m)
    {
      assert MuxOk(w, m);
      FlowParts(w, m);
      PlacedSame(w, w1, m);
    }
  }

  lemma PlacedSame(w: World, w1: World, m: Node)
    requires AlikeMade(w, w1) && m in w.seats && w1.seats[m].down == w.seats[m].down && PlacedAt(w, m)
    ensures PlacedAt(w1, m)
  {
    hide Placed;
    forall b | b in w1.seats[m].down
      ensures Placed(w1, m, b)
    {
      PlacedAlike(w, w1, m, b);
    }
  }

  /** What reading a reply makes of the tree, and which reply goes on. */
  lemma DescendIs(w: World, n: Node, a: Answer)
    requires n in w.seats && Known(w.seats[n]) && w.seats[n].read < |w.seats[n].down|
             && a == w.seats[n].down[w.seats[n].read]
    ensures var w1, w2, routes := Put(w, n, Read(w.seats[n])), Descend(w, n), w.seats[n].table.routes;
            && (Passes(w, n, a) == [] ==>
                  || w2 == w1
                  || (a.frame.id in routes && routes[a.frame.id].inner.Some?
                    && n + [routes[a.frame.id].to] !in w.seats))
            && (Passes(w, n, a) != [] ==>
                  && Passes(w, n, a) == [a.frame.inner] && a.frame.id in routes
                  && var r := routes[a.frame.id];
                     match r.inner
                     case None => w2 == w1.(got := w1.got + [Got(n, r.to, a.frame.id, a.frame.inner, a.cause, a.root)])
                     case Some(i) =>
                       n + [r.to] in w.seats ==>
                         && n + [r.to] in w1.seats
                         && w2 == Put(w1, n + [r.to], Push(w1.seats[n + [r.to]], Frame(i, a.frame.inner), a.cause,
                                                           a.root)))
  {
    var t := w.seats[n].table;
    if a.frame.id in t.routes { ReplyRead(t, a.frame); } else { ReplyUnknown(t, a.frame); }
    hide HandleReply, BuildRoute, Read, Known;
  }

  lemma LinkBelow(w: World, n: Node, id: nat)
    requires Linking(w) && n in w.seats && id in w.seats[n].made && w.seats[n].made[id].inner.Some?
    ensures n + [w.seats[n].made[id].to] in w.seats
  {
    assert Linked(w, n, id);
  }

  /** Down one conduit: the trail goes on under the inner id. */
  lemma TrailDown(w: World, n: Node, q: nat)
    requires Linking(w) && Trail(w, n, q).Some? && w.seats[n].made[Trail(w, n, q).value].inner.Some?
    ensures var r := w.seats[n].made[Trail(w, n, q).value]; n + [r.to] in w.seats && Trail(w, n + [r.to], q) == r.inner
  {
    var r := w.seats[n].made[Trail(w, n, q).value];
    assert Linked(w, n, Trail(w, n, q).value);
    assert Parent(n + [r.to]) == n && Conduit(n + [r.to]) == r.to;
  }

  /** Passing the reply on to a mux. */
  lemma DescendMux(w: World, w1: World, w2: World, n: Node, a: Answer, b: Answer, h: Handle)
    requires Inv(w) && Replies(w) && ReadAt(w, w1, n, a) && Passes(w, n, a) == [a.frame.inner]
    requires a.frame.id in w.seats[n].made && w.seats[n].made[a.frame.id].inner.Some?
             && h == w.seats[n].made[a.frame.id].to
    requires b == Answer(Frame(w.seats[n].made[a.frame.id].inner.value, a.frame.inner), a.cause, a.root)
    requires n + [h] in w1.seats && w2 == Put(w1, n + [h], w1.seats[n + [h]].(down := w1.seats[n + [h]].down + [b]))
    ensures Replies(w2)
  {
    ReadOk(w, w1, n, a);
    ReadFlow(w, w1, n, a);
    ReadWorld(w, w1, n, a) by { assert MuxOk(w, n); }
    PlacedIn(w, n, a);
    TrailDown(w1, n, a.root);
    assert Adds(w1, w2, n + [h], b) by { hide ApcLaws.Safe, Trail, Replies, Inv, Linking; }
    AddsMade(w1, w2, n + [h], b);
    hide Inv, Replies, Adds, Put, Known, Spent, Reaches, ReadAt, Read, Passes, Linking, Trail, FlowAt, PlacedAt,
         GotPlaced;
    LinksSame(w1, w2);
    forall m | m in w2.seats
      ensures MuxOk(w2, m) && PlacedAt(w2, m)
    {
      assert MuxOk(w1, m) && PlacedAt(w1, m);
      SeatKept(w1.seats[m], w2.seats[m], m, w1.gone);
      AddsPlaced(w1, w2, n + [h], b, m);
    }
    forall m, q | Trail(w2, m, q).Some?
      ensures FlowAt(w2, m, q)
    {
      TrailSame(w1, w2, m, q);
      TrailSame(w, w1, m, q);
      if m == n && q == a.root {
        PassedDown(w1, w2, n, a, b);
      } else {
        ReadOthers(w, w1, n, a, m, q);
        assert MuxOk(w1, m) by { TrailSeat(w1, m, q); }
        ReadBound(w1, m);
        PassedBy(w1, w2, n, h, b, m, q);
      }
    }
    GotsPlaced(w1, w2);
    Assembled(w2);
  }

  lemma TrailSeat(w: World, m: Node, q: nat)
    requires Trail(w, m, q).Some?
    ensures m in w.seats
  {
  }

  lemma ReadBound(w: World, m: Node)
    requires m in w.seats && MuxOk(w, m)
    ensures w.seats[m].read <= |w.seats[m].down|
  {
  }

  lemma PlacedIn(w: World, n: Node, a: Answer)
    requires Replies(w) && n in w.seats && a in w.seats[n].down
    ensures Placed(w, n, a)
  {
    assert PlacedAt(w, n);
    hide Placed;
  }

  /** Handing it to a client. */
  lemma DescendClient(w: World, w1: World, w2: World, n: Node, a: Answer, g: Got)
    requires Inv(w) && Replies(w) && ReadAt(w, w1, n, a) && Passes(w, n, a) == [a.frame.inner]
    requires a.frame.id in w.seats[n].made && w.seats[n].made[a.frame.id].inner.None?
    requires g == Got(n, w.seats[n].made[a.frame.id].to, a.frame.id, a.frame.inner, a.cause, a.root)
    requires w2 == w1.(got := w1.got + [g])
    ensures Replies(w2)
  {
    ReadOk(w, w1, n, a);
    ReadFlow(w, w1, n, a);
    ReadWorld(w, w1, n, a) by { assert MuxOk(w, n); }
    PlacedIn(w, n, a);
    PlacedAlike(w, w1, n, a);
    hide Inv, Replies, Known, Spent, Reaches, ReadAt, Read, Passes, Linking, Trail, FlowAt, PlacedAt, GotPlaced;
    LinksAgain(w1, w2);
    MuxesAgain(w1, w2);
    forall m, q | Trail(w2, m, q).Some?
      ensures FlowAt(w2, m, q)
    {
      TrailSame(w1, w2, m, q);
      TrailSame(w, w1, m, q);
      if m == n && q == a.root {
        HandedDown(w1, w2, n, a, g);
      } else {
        ReadOthers(w, w1, n, a, m, q);
        HandedBy(w1, w2, g, m, q);
      }
    }
    forall x | x in w2.got
      ensures GotPlaced(w2, x)
    {
      if x != g { assert GotPlaced(w1, x); }
      GotAlike(w1, w2, x);
    }
    Assembled(w2);
  }

  lemma MuxesAgain(w: World, w': World)
    requires w'.seats == w.seats && w'.gone == w.gone
    requires forall m {:trigger MuxOk(w, m)} | m in w.seats :: MuxOk(w, m)
    requires forall m {:trigger PlacedAt(w, m)} | m in w.seats :: PlacedAt(w, m)
    ensures forall m {:trigger MuxOk(w', m)} | m in w'.seats :: MuxOk(w', m)
    ensures forall m {:trigger PlacedAt(w', m)} | m in w'.seats :: PlacedAt(w', m)
  {
    hide Known, Spent, PlacedAt;
    forall m | m in w'.seats
      ensures MuxOk(w', m) && PlacedAt(w', m)
    {
      assert MuxOk(w, m) && PlacedAt(w, m);
      PlacedSame(w, w', m);
    }
  }

  lemma LinksAgain(w: World, w': World)
    requires Linking(w) && w'.seats == w.seats
    ensures Linking(w')
  {
    LinksSame(w, w');
  }

  /** It goes nowhere: an unknown id, a lost connection, or nothing to say. */
  lemma DescendNowhere(w: World, w1: World, n: Node, a: Answer)
    requires Inv(w) && Replies(w) && ReadAt(w, w1, n, a) && Passes(w, n, a) == []
    ensures Replies(w1)
  {
    ReadOk(w, w1, n, a);
    ReadFlow(w, w1, n, a);
    ReadWorld(w, w1, n, a) by { assert MuxOk(w, n); }
    hide Inv, Replies, Known, Spent, Reaches, ReadAt, Read, Passes, Linking, Trail, FlowAt, PlacedAt, GotPlaced;
    forall m, q | Trail(w1, m, q).Some?
      ensures FlowAt(w1, m, q)
    {
      TrailSame(w, w1, m, q);
      if m == n && q == a.root { NothingPassed(w1, n, a); } else { ReadOthers(w, w1, n, a, m, q); }
    }
    Assembled(w1);
  }

  lemma DescendReplies(w: World, n: Node)
    requires Inv(w) && Replies(w) && n in w.seats && w.seats[n].read < |w.seats[n].down|
    ensures Replies(Descend(w, n))
  {
    var a, w1 := w.seats[n].down[w.seats[n].read], Put(w, n, Read(w.seats[n]));
    assert MuxOk(w, n);
    DescendIs(w, n, a);
    RouteMade(w.seats[n]);
    hide Inv, Known, Spent, Flowing, Descend, Passes, Linking, Read;
    var routes := w.seats[n].table.routes;
    if a.frame.id in routes && routes[a.frame.id].inner.Some? { LinkBelow(w, n, a.frame.id); }
    hide Replies;
    if Passes(w, n, a) == [] {
      DescendNowhere(w, w1, n, a);
    } else if routes[a.frame.id].inner.None? {
      var g := Got(n, routes[a.frame.id].to, a.frame.id, a.frame.inner, a.cause, a.root);
      DescendClient(w, w1, Descend(w, n), n, a, g);
    } else {
      var r := routes[a.frame.id];
      DescendMux(w, w1, Descend(w, n), n, a, Answer(Frame(r.inner.value, a.frame.inner), a.cause, a.root), r.to);
    }
  }

  // ----- Whole runs -----

  lemma StartReplies(nodes: set<Node>)
    requires Tree(nodes)
    ensures Replies(Start(nodes))
  {
    var w := Start(nodes);
    forall n | n in w.seats
      ensures MuxOk(w, n) && PlacedAt(w, n)
    {
      assert w.seats[n] == Seat(Fresh(), map[], map[], [], 0, [], 0);
    }
  }

  lemma WrapperReplies(w: World, cause: nat, text: seq<Byte>)
    requires Inv(w) && Replies(w)
    ensures Replies(Hearing(w)) && Replies(Answering(w, cause, text))
  {
    assert TOP in w.seats;
    hide Inv, Replies, Put, Reply, Take, CanAnswer;
    if w.seats[TOP].taken < |w.seats[TOP].sent| { TakeReplies(w); }
    if CanAnswer(w, cause, text) { AnswerReplies(w, cause, text); }
  }

  lemma ClientReplies(w: World, n: Node, from: Handle, line: seq<Byte>)
    requires Inv(w) && Replies(w)
    ensures Replies(Saying(w, n, from, line)) && Replies(Leaving(w, n, from))
  {
    hide Inv, Replies, Put, Say, Leave, CanSay;
    if CanSay(w, n, from, line) { SayReplies(w, n, from, line); }
    if n in w.seats && (n, from) !in w.gone { LeaveReplies(w, n, from); }
  }

  lemma ConduitReplies(w: World, n: Node)
    requires Inv(w) && Replies(w)
    ensures Replies(Climbing(w, n)) && Replies(Descending(w, n))
  {
    hide Inv, Replies, Climb, Descend;
    if CanClimb(w, n) { ClimbReplies(w, n); }
    if n in w.seats && w.seats[n].read < |w.seats[n].down| { DescendReplies(w, n); }
  }

  lemma StepReplies(w: World, e: Event)
    requires Inv(w) && Replies(w)
    ensures Replies(Step(w, e))
  {
    hide Inv, Replies, Saying, Climbing, Hearing, Answering, Descending, Leaving;
    match e
    case Says(n, from, line) => ClientReplies(w, n, from, line);
    case Climbs(c) => ConduitReplies(w, c);
    case Hears => WrapperReplies(w, 0, []);
    case Answers(cause, text) => WrapperReplies(w, cause, text);
    case Descends(n) => ConduitReplies(w, n);
    case Leaves(n, from) => ClientReplies(w, n, from, []);
  }

  lemma {:induction false} RunReplies(nodes: set<Node>, events: seq<Event>)
    requires Tree(nodes)
    ensures Replies(Run(nodes, events)) && Inv(Run(nodes, events))
    decreases |events|
  {
    hide Inv, Replies, Step, Start;
    RunInv(nodes, events);
    if events == [] {
      StartReplies(nodes);
    } else {
      RunReplies(nodes, events[..|events| - 1]);
      StepReplies(Run(nodes, events[..|events| - 1]), events[|events| - 1]);
    }
  }
}
