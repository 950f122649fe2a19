/**
 A tree of muxes under one wrapper. Every conduit carries frames in order; requests, relays, replies
 and departures interleave in any way, and the wrapper answers whatever it has heard as often as it
 likes. Connection handles are never reused; what is said and answered is safe inside an envelope.
 */
module RoutingTree {
  import opened Bytes
  import opened Text
  import ApcLaws
  import opened Routing

  /** A mux, named by the conduit handles that lead to it from the top. */
  type Node = seq<Handle>

  /** Who a request belongs to: the mux it entered at, the id it got there, its client. */
  datatype Talk = Talk(node: Node, id: nat, client: Handle, tunnel: bool)

  /** A frame sent up; `added` if a mux made it up to close the tunnel of a lost connection. */
  datatype Entry = Entry(frame: Frame, talk: Talk, added: bool)

  /** A reply on its way down to the request the wrapper heard as number `cause`, which bore the id `root`. */
  datatype Answer = Answer(frame: Frame, cause: nat, root: nat)

  /**
   A mux in its place: its table, who each id it handed out belongs to and the route it made for it,
   all it sent up and how much of that was taken, all it was sent down and how much of that it has read.
   */
  datatype Seat = Seat(
    table: Table,
    owner: map<nat, Talk>,
    made: map<nat, Route>,
    sent: seq<Entry>,
    taken: nat,
    down: seq<Answer>,
    read: nat)

  /** A raw reply handed to a client, and the id it arrived under. */
  datatype Got = Got(node: Node, client: Handle, id: nat, text: seq<Byte>, cause: nat, root: nat)

  datatype World = World(seats: map<Node, Seat>, gone: set<(Node, Handle)>, got: seq<Got>)

  const TOP: Node := []

  function Parent(c: Node): Node
    requires c != TOP
  {
    c[..|c| - 1]
  }

  function Conduit(c: Node): Handle
    requires c != TOP
  {
    c[|c| - 1]
  }

  // ----- Steps -----

  datatype Event =
    | Says(n: Node, from: Handle, line: seq<Byte>)
    | Climbs(c: Node)
    | Hears
    | Answers(cause: nat, text: seq<Byte>)
    | Descends(n: Node)
    | Leaves(n: Node, from: Handle)

  function Emit(s: Seat, r: Relayed, talk: Talk, added: bool): Seat {
    s.(table := r.table,
       owner := if r.frame.id in s.owner then s.owner else s.owner[r.frame.id := talk],
       made := if r.frame.id in s.owner || r.frame.id !in r.table.routes then s.made
               else s.made[r.frame.id := r.table.routes[r.frame.id]],
       sent := s.sent + [Entry(r.frame, talk, added)])
  }

  /** One line, and one that survives an envelope. */
  predicate Clean(line: seq<Byte>) { ApcLaws.Safe(line) && NEWLINE !in line }

  /** A connected local client speaks; only a tunnel's lines may look like frames. */
  predicate CanSay(w: World, n: Node, from: Handle, line: seq<Byte>) {
    && n in w.seats && (n, from) !in w.gone && n + [from] !in w.seats && Clean(line)
    && (from in w.seats[n].table.tunnels || ParseRoute(line) == None)
  }

  function Say(s: Seat, n: Node, from: Handle, line: seq<Byte>): Seat {
    var r := HandleLine(s.table, from, line);
    var talk := if r.frame.id in s.owner then s.owner[r.frame.id]
                else Talk(n, r.frame.id, from, StartsWith(line, TUN));
    Emit(s, r, talk, false)
  }

  predicate CanClimb(w: World, c: Node) {
    && c != TOP && c in w.seats && Parent(c) in w.seats && (Parent(c), Conduit(c)) !in w.gone
    && w.seats[c].taken < |w.seats[c].sent|
  }

  function Hear(s: Seat, from: Handle, e: Entry): Seat {
    Emit(s, HandleLine(s.table, from, BuildRoute(e.frame)), e.talk, e.added)
  }

  function Climb(w: World, c: Node): World
    requires CanClimb(w, c)
  {
    var s := w.seats[c];
    var p := Hear(w.seats[Parent(c)], Conduit(c), s.sent[s.taken]);
    w.(seats := w.seats[Parent(c) := p][c := Take(s)])
  }

  function Push(s: Seat, f: Frame, cause: nat, root: nat): Seat { s.(down := s.down + [Answer(f, cause, root)]) }

  /** The mux after it has read the next reply. */
  function Read(s: Seat): Seat
    requires s.read < |s.down|
  {
    s.(table := HandleReply(s.table, BuildRoute(s.down[s.read].frame)).table, read := s.read + 1)
  }

  function Put(w: World, n: Node, s: Seat): World { w.(seats := w.seats[n := s]) }

  /** Writing to a connection that is gone is lost; a conduit carries a frame to its mux. */
  function Deliver(w: World, n: Node, a: Answer, write: Write): World {
    match write
    case Silent => w
    case Raw(to, bytes) =>
      if (n, to) in w.gone then w else w.(got := w.got + [Got(n, to, a.frame.id, bytes, a.cause, a.root)])
    case Framed(to, f) =>
      var c := n + [to];
      if (n, to) in w.gone || c !in w.seats then w else Put(w, c, Push(w.seats[c], f, a.cause, a.root))
  }

  function Descend(w: World, n: Node): World
    requires n in w.seats && w.seats[n].read < |w.seats[n].down|
  {
    var s := w.seats[n];
    var a := s.down[s.read];
    Deliver(Put(w, n, Read(s)), n, a, HandleReply(s.table, BuildRoute(a.frame)).write)
  }

  function Closers(owner: map<nat, Talk>, ids: seq<nat>): seq<Entry> {
    if ids == [] then []
    else
      var id := ids[|ids| - 1];
      Closers(owner, ids[..|ids| - 1]) + if id in owner then [Entry(Frame(id, TUN_CLOSE), owner[id], true)] else []
  }

  function Leave(s: Seat, from: Handle): Seat {
    s.(table := Drop(s.table, from), sent := s.sent + Closers(s.owner, Closing(s.table, from)))
  }

  function Saying(w: World, n: Node, from: Handle, line: seq<Byte>): World {
    if CanSay(w, n, from, line) then Put(w, n, Say(w.seats[n], n, from, line)) else w
  }

  function Climbing(w: World, c: Node): World { if CanClimb(w, c) then Climb(w, c) else w }

  function Take(s: Seat): Seat { s.(taken := s.taken + 1) }

  function Hearing(w: World): World {
    if TOP !in w.seats || w.seats[TOP].taken >= |w.seats[TOP].sent| then w
    else Put(w, TOP, Take(w.seats[TOP]))
  }

  predicate CanAnswer(w: World, cause: nat, text: seq<Byte>) {
    TOP in w.seats && cause < w.seats[TOP].taken && cause < |w.seats[TOP].sent| && ApcLaws.Safe(text)
  }

  function Reply(s: Seat, id: nat, cause: nat, text: seq<Byte>): Seat { Push(s, Frame(id, text), cause, id) }

  /** The wrapper answers anything it has heard. */
  function Answering(w: World, cause: nat, text: seq<Byte>): World {
    if CanAnswer(w, cause, text)
    then Put(w, TOP, Reply(w.seats[TOP], w.seats[TOP].sent[cause].frame.id, cause, text)) else w
  }

  function Descending(w: World, n: Node): World {
    if n in w.seats && w.seats[n].read < |w.seats[n].down| then Descend(w, n) else w
  }

  function Leaving(w: World, n: Node, from: Handle): World {
    if n in w.seats && (n, from) !in w.gone
    then Put(w, n, Leave(w.seats[n], from)).(gone := w.gone + {(n, from)})
    else w
  }

  function Step(w: World, e: Event): World {
    match e
    case Says(n, from, line) => Saying(w, n, from, line)
    case Climbs(c) => Climbing(w, c)
    case Hears => Hearing(w)
    case Answers(cause, text) => Answering(w, cause, text)
    case Descends(n) => Descending(w, n)
    case Leaves(n, from) => Leaving(w, n, from)
  }

  /** Any tree: every mux's parent is in it. */
  ghost predicate Tree(nodes: set<Node>) {
    TOP in nodes && forall c | c in nodes && c != TOP :: Parent(c) in nodes
  }

  function Start(nodes: set<Node>): World {
    World(map n | n in nodes :: Seat(Fresh(), map[], map[], [], 0, [], 0), {}, [])
  }

  function Run(nodes: set<Node>, events: seq<Event>): World
    decreases |events|
  {
    if events == [] then Start(nodes) else Step(Run(nodes, events[..|events| - 1]), events[|events| - 1])
  }

  // ----- Invariants -----

  /** What one mux keeps by itself. */
  ghost predicate Tidy(s: Seat, n: Node) {
    && (forall id :: id in s.owner <==> FIRST_ID <= id < s.table.nextId)
    && (forall id | id in s.owner :: n <= s.owner[id].node)
    && (forall id | id in s.table.routes :: id in s.owner)
    && (forall e | e in s.sent :: EntryTidy(s.owner, e))
    && (forall h | h in s.table.tunnels :: TunnelTidy(s.owner, n, s.table.tunnels[h], h))
    && OneRoute(s.table)
    && s.taken <= |s.sent| && s.read <= |s.down| && s.table.nextId >= FIRST_ID
  }

  ghost predicate EntryTidy(owner: map<nat, Talk>, e: Entry) {
    && e.frame.id in owner && owner[e.frame.id] == e.talk
    && (e.added ==> e.frame.inner == TUN_CLOSE)
  }

  ghost predicate TunnelTidy(owner: map<nat, Talk>, n: Node, id: nat, h: Handle) {
    id in owner && owner[id] == Talk(n, id, h, true)
  }

  /** At most one tunnel route per conduit and inner id, so the lookup does not depend on its order. */
  ghost predicate OneRoute(t: Table) {
    forall i, j, h, k :: Reusable(t.routes, i, h, k) && Reusable(t.routes, j, h, k) ==> i == j
  }

  /** A route leads back along the path its request came by. */
  ghost predicate RouteOk(w: World, n: Node, id: nat)
    requires n in w.seats && id in w.seats[n].table.routes && id in w.seats[n].owner
  {
    var r, talk := w.seats[n].table.routes[id], w.seats[n].owner[id];
    match r.inner
    case None => talk == Talk(n, id, r.to, r.persistent)
    case Some(i) => OwnedAt(w, n + [r.to], i, talk)
  }

  ghost predicate OwnedAt(w: World, n: Node, id: nat, talk: Talk) {
    n in w.seats && id in w.seats[n].owner && w.seats[n].owner[id] == talk
  }

  /** The wrapper has heard a request, as number `cause`, and it is one of `talk`. */
  ghost predicate Heard(w: World, cause: nat, talk: Talk) {
    TOP in w.seats && cause < w.seats[TOP].taken && cause < |w.seats[TOP].sent| && w.seats[TOP].sent[cause].talk == talk
  }

  ghost predicate AnswerOk(w: World, n: Node, a: Answer) {
    n in w.seats && a.frame.id in w.seats[n].owner && Heard(w, a.cause, w.seats[n].owner[a.frame.id])
  }

  ghost predicate SeatOk(w: World, n: Node)
    requires n in w.seats
  {
    var s := w.seats[n];
    && Tidy(s, n)
    && (forall id | id in s.table.routes :: RouteOk(w, n, id))
    && (forall h | h in s.table.tunnels :: n + [h] !in w.seats)
    && (forall id | id in s.owner :: s.owner[id].node in w.seats)
    && (forall a | a in s.down :: AnswerOk(w, n, a))
  }

  ghost predicate GotOk(w: World, g: Got) {
    && g.node in w.seats
    && exists tunnel ::
        && Heard(w, g.cause, Talk(g.node, g.id, g.client, tunnel))
        && (tunnel || (g.id !in w.seats[g.node].table.routes && g.id < w.seats[g.node].table.nextId))
  }

  ghost predicate OnceEach(w: World) {
    forall i, j | 0 <= i < j < |w.got| && w.got[i].node == w.got[j].node && w.got[i].id == w.got[j].id ::
      Heard(w, w.got[i].cause, Talk(w.got[i].node, w.got[i].id, w.got[i].client, true))
  }

  ghost predicate Inv(w: World) {
    && TOP in w.seats
    && (forall n {:trigger SeatOk(w, n)} | n in w.seats :: SeatOk(w, n))
    && (forall g | g in w.got :: GotOk(w, g))
    && OnceEach(w)
  }

  /** Nothing recorded is lost or altered, and a route once gone stays gone. */
  ghost predicate SeatGrows(s: Seat, s': Seat) {
    && s.sent <= s'.sent && s.taken <= s'.taken && s.table.nextId <= s'.table.nextId
    && (forall id | id in s.owner :: id in s'.owner && s'.owner[id] == s.owner[id])
    && (forall id | id < s.table.nextId && id in s'.table.routes :: id in s.table.routes)
  }

  ghost predicate Grows(w: World, w': World) {
    && w.seats.Keys == w'.seats.Keys && TOP in w.seats
    && forall n {:trigger SeatGrows(w.seats[n], w'.seats[n])} | n in w.seats :: SeatGrows(w.seats[n], w'.seats[n])
  }

  lemma OwnedStays(w: World, w': World, n: Node, id: nat, talk: Talk)
    requires Grows(w, w') && OwnedAt(w, n, id, talk)
    ensures OwnedAt(w', n, id, talk)
  {
    assert SeatGrows(w.seats[n], w'.seats[n]);
  }

  lemma HeardStays(w: World, w': World, cause: nat, talk: Talk)
    requires Grows(w, w') && Heard(w, cause, talk)
    ensures Heard(w', cause, talk)
  {
    assert SeatGrows(w.seats[TOP], w'.seats[TOP]);
  }

  lemma RouteStays(w: World, w': World, n: Node, id: nat)
    requires Grows(w, w') && n in w.seats && id in w.seats[n].table.routes && id in w.seats[n].owner
             && RouteOk(w, n, id)
    requires id in w'.seats[n].table.routes && w'.seats[n].table.routes[id] == w.seats[n].table.routes[id]
    ensures id in w'.seats[n].owner && RouteOk(w', n, id)
  {
    assert SeatGrows(w.seats[n], w'.seats[n]);
    var r := w.seats[n].table.routes[id];
    if r.inner.Some? { OwnedStays(w, w', n + [r.to], r.inner.value, w.seats[n].owner[id]); }
  }

  lemma AnswerStays(w: World, w': World, n: Node, a: Answer)
    requires Grows(w, w') && AnswerOk(w, n, a)
    ensures AnswerOk(w', n, a)
  {
    assert SeatGrows(w.seats[n], w'.seats[n]);
    HeardStays(w, w', a.cause, w.seats[n].owner[a.frame.id]);
  }

  /** A mux that did not act stays in order. */
  lemma Untouched(w: World, w': World, n: Node)
    requires Grows(w, w') && n in w.seats && SeatOk(w, n)
    requires var s, s' := w.seats[n], w'.seats[n];
             && s'.table == s.table && s'.owner == s.owner && s'.sent == s.sent && s'.down == s.down
             && s'.taken <= |s.sent| && s'.read <= |s.down|
    ensures SeatOk(w', n)
  {
    hide EntryTidy, TunnelTidy, OneRoute, RouteOk, AnswerOk, Heard, OwnedAt, SeatGrows;
    var s := w.seats[n];
    forall id | id in s.table.routes
      ensures RouteOk(w', n, id)
    {
      RouteStays(w, w', n, id);
    }
    forall a | a in s.down
      ensures AnswerOk(w', n, a)
    {
      AnswerStays(w, w', n, a);
    }
  }

  // ----- Sending up -----

  /** Sending under a new id: the mux keeps its own order. */
  lemma MintTidy(s: Seat, n: Node, route: Route, text: seq<Byte>, talk: Talk, added: bool)
    requires Tidy(s, n) && n <= talk.node && (added ==> text == TUN_CLOSE)
    requires route.persistent && route.inner.Some? ==>
               forall k | FIRST_ID <= k < s.table.nextId :: !Reusable(s.table.routes, k, route.to, route.inner.value)
    ensures var s' := Emit(s, Mint(s.table, route, text), talk, added);
            Tidy(s', n) && SeatGrows(s, s') && s'.owner == s.owner[s.table.nextId := talk]
  {
    var id := s.table.nextId;
    var s' := Emit(s, Mint(s.table, route, text), talk, added);
    assert id !in s.owner;
    forall e | e in s'.sent
      ensures EntryTidy(s'.owner, e)
    {
      if e in s.sent { assert EntryTidy(s.owner, e); }
    }
    forall h | h in s'.table.tunnels
      ensures TunnelTidy(s'.owner, n, s'.table.tunnels[h], h)
    {
      assert TunnelTidy(s.owner, n, s.table.tunnels[h], h);
    }
    forall i, j, h, k | Reusable(s'.table.routes, i, h, k) && Reusable(s'.table.routes, j, h, k)
      ensures i == j
    {
      if i != id { assert Reusable(s.table.routes, i, h, k); }
      if j != id { assert Reusable(s.table.routes, j, h, k); }
    }
  }

  /** Sending under an id already handed out, perhaps dropping its route. */
  lemma ReuseTidy(s: Seat, n: Node, id: nat, text: seq<Byte>, added: bool, routes: map<nat, Route>)
    requires Tidy(s, n) && id in s.owner && n <= s.owner[id].node && (added ==> text == TUN_CLOSE)
    requires routes == s.table.routes || routes == s.table.routes - {id}
    ensures var s' := Emit(s, Relayed(s.table.(routes := routes), Frame(id, text)), s.owner[id], added);
            Tidy(s', n) && SeatGrows(s, s') && s'.owner == s.owner
  {
    var s' := Emit(s, Relayed(s.table.(routes := routes), Frame(id, text)), s.owner[id], added);
    forall e | e in s'.sent
      ensures EntryTidy(s'.owner, e)
    {
      if e in s.sent { assert EntryTidy(s.owner, e); }
    }
    forall h | h in s'.table.tunnels
      ensures TunnelTidy(s'.owner, n, s'.table.tunnels[h], h)
    {
      assert TunnelTidy(s.owner, n, s.table.tunnels[h], h);
    }
    forall i, j, h, k | Reusable(routes, i, h, k) && Reusable(routes, j, h, k)
      ensures i == j
    {
      assert Reusable(s.table.routes, i, h, k) && Reusable(s.table.routes, j, h, k);
    }
  }

  /** No route but `made` is new or altered, and nothing is added to what comes down. */
  ghost predicate OthersKept(s: Seat, s': Seat, made: nat) {
    && s'.down == s.down
    && forall id | id in s'.table.routes && id != made ::
       id in s.table.routes && s'.table.routes[id] == s.table.routes[id]
  }

  /** A mux that sent a frame is in order again, if the route it may have made leads back. */
  lemma Emitted(w: World, w': World, n: Node, made: nat)
    requires Grows(w, w') && n in w.seats && SeatOk(w, n) && Tidy(w'.seats[n], n)
    requires OthersKept(w.seats[n], w'.seats[n], made)
    requires made in w'.seats[n].table.routes ==> RouteOk(w', n, made)
    requires forall h | h in w'.seats[n].table.tunnels :: n + [h] !in w.seats
    requires forall id | id in w'.seats[n].owner :: w'.seats[n].owner[id].node in w.seats
    ensures SeatOk(w', n)
  {
    var s, s' := w.seats[n], w'.seats[n];
    forall id | id in s'.table.routes
      ensures RouteOk(w', n, id)
    {
      if id != made { RouteStays(w, w', n, id); }
    }
    forall a | a in s'.down
      ensures AnswerOk(w', n, a)
    {
      AnswerStays(w, w', n, a);
    }
  }

  lemma GotStays(w: World, w': World, g: Got)
    requires Grows(w, w') && GotOk(w, g)
    ensures GotOk(w', g)
  {
    var tunnel :| && Heard(w, g.cause, Talk(g.node, g.id, g.client, tunnel))
                  && (tunnel || (g.id !in w.seats[g.node].table.routes && g.id < w.seats[g.node].table.nextId));
    HeardStays(w, w', g.cause, Talk(g.node, g.id, g.client, tunnel));
    assert SeatGrows(w.seats[g.node], w'.seats[g.node]);
  }

  /** A step that hands nothing to a client keeps the invariant if every mux is in order. */
  lemma Assemble(w: World, w': World)
    requires Inv(w) && Grows(w, w') && w'.got == w.got
    requires forall n | n in w.seats :: SeatOk(w', n)
    ensures Inv(w')
  {
    forall g | g in w'.got
      ensures GotOk(w', g)
    {
      GotStays(w, w', g);
    }
    forall i, j | 0 <= i < j < |w'.got| && w'.got[i].node == w'.got[j].node && w'.got[i].id == w'.got[j].id
      ensures Heard(w', w'.got[i].cause, Talk(w'.got[i].node, w'.got[i].id, w'.got[i].client, true))
    {
      HeardStays(w, w', w'.got[i].cause, Talk(w'.got[i].node, w'.got[i].id, w'.got[i].client, true));
    }
  }

  lemma Unrecorded(s: Seat, s': Seat)
    requires s'.table == s.table && s'.owner == s.owner && s'.sent == s.sent && s.taken <= s'.taken
    ensures SeatGrows(s, s')
  {
  }

  lemma TunnelOpened(s: Seat, n: Node, from: Handle, id: nat)
    requires Tidy(s, n) && id in s.owner && s.owner[id] == Talk(n, id, from, true)
    ensures Tidy(s.(table := s.table.(tunnels := s.table.tunnels[from := id])), n)
  {
    var s' := s.(table := s.table.(tunnels := s.table.tunnels[from := id]));
    forall h | h in s'.table.tunnels
      ensures TunnelTidy(s'.owner, n, s'.table.tunnels[h], h)
    {
      if h != from { assert TunnelTidy(s.owner, n, s.table.tunnels[h], h); }
    }
    forall e | e in s'.sent
      ensures EntryTidy(s'.owner, e)
    {
      assert EntryTidy(s.owner, e);
    }
  }

  /** What saying a line does to the mux, case by case. */
  lemma SayTidy(s: Seat, n: Node, from: Handle, line: seq<Byte>) returns (made: nat)
    requires Tidy(s, n) && (from in s.table.tunnels || ParseRoute(line) == None)
    ensures var s' := Say(s, n, from, line);
            && Tidy(s', n) && SeatGrows(s, s') && OthersKept(s, s', made)
            && (made in s'.table.routes ==>
                  && made in s'.owner && s'.table.routes[made].inner == None
                  && s'.owner[made] == Talk(n, made, s'.table.routes[made].to, s'.table.routes[made].persistent))
            && (forall h | h in s'.table.tunnels :: h in s.table.tunnels || h == from)
            && (forall id | id in s'.owner :: id in s.owner || s'.owner[id].node == n)
  {
    made := s.table.nextId;
    var s' := Say(s, n, from, line);
    if StartsWith(line, TUN) {
      var talk := Talk(n, made, from, true);
      MintTidy(s, n, Route(from, None, true), line, talk, false);
      var s1 := Emit(s, Mint(s.table, Route(from, None, true), line), talk, false);
      TunnelOpened(s1, n, from, made);
      assert s' == s1.(table := s1.table.(tunnels := s1.table.tunnels[from := made]));
    } else if from in s.table.tunnels {
      assert TunnelTidy(s.owner, n, s.table.tunnels[from], from);
      ReuseTidy(s, n, s.table.tunnels[from], line, false, s.table.routes);
      assert s.table.(routes := s.table.routes) == s.table;
      assert made !in s'.table.routes;
    } else {
      MintTidy(s, n, Route(from, None, false), line, Talk(n, made, from, false), false);
    }
  }

  /** The muxes that acted are in order; the rest did not act. */
  lemma Settled(w: World, w': World, a: Node, b: Node)
    requires Inv(w) && Grows(w, w') && w'.got == w.got
    requires a in w'.seats && SeatOk(w', a) && b in w'.seats && SeatOk(w', b)
    requires forall m | m in w.seats && m != a && m != b :: Same(w, w', m)
    ensures Inv(w')
  {
    forall m | m in w.seats
      ensures SeatOk(w', m)
    {
      if m != a && m != b { Unmoved(w, w', m); }
    }
    hide SeatOk, Grows, Same;
    Assemble(w, w');
  }

  predicate Same(w: World, w': World, m: Node) {
    m in w.seats && m in w'.seats && w'.seats[m] == w.seats[m]
  }

  lemma Unmoved(w: World, w': World, m: Node)
    requires Grows(w, w') && m in w.seats && SeatOk(w, m) && w'.seats[m] == w.seats[m]
    ensures SeatOk(w', m)
  {
    Untouched(w, w', m);
  }

  lemma PutGrows(w: World, n: Node, s: Seat)
    requires TOP in w.seats && n in w.seats && SeatGrows(w.seats[n], s)
    ensures Grows(w, Put(w, n, s)) && n in Put(w, n, s).seats && Put(w, n, s).seats[n] == s
  {
    var w' := Put(w, n, s);
    forall m | m in w.seats
      ensures SeatGrows(w.seats[m], w'.seats[m])
    {
      if m != n { Unrecorded(w.seats[m], w'.seats[m]); }
    }
  }

  /** One mux acted and is in order again. */
  lemma PutKeeps(w: World, n: Node, s: Seat)
    requires Inv(w) && n in w.seats && Grows(w, Put(w, n, s)) && n in Put(w, n, s).seats && SeatOk(Put(w, n, s), n)
    ensures Inv(Put(w, n, s))
  {
    hide Inv, Grows, SeatOk;
    Settled(w, Put(w, n, s), n, n);
  }

  lemma SayKeeps(w: World, n: Node, from: Handle, line: seq<Byte>)
    requires Inv(w) && CanSay(w, n, from, line)
    ensures Inv(Put(w, n, Say(w.seats[n], n, from, line)))
  {
    var s' := Say(w.seats[n], n, from, line);
    InOrder(w, n);
    var made := SayTidy(w.seats[n], n, from, line);
    hide Inv, Say, Tidy, OthersKept, SeatGrows, Put, Grows;
    PutGrows(w, n, s');
    Emitted(w, Put(w, n, s'), n, made);
    hide SeatOk;
    PutKeeps(w, n, s');
  }

  // ----- Relaying up -----

  /** A frame from a conduit is always read as a frame. */
  lemma RelayLine(t: Table, from: Handle, f: Frame)
    requires from !in t.tunnels
    ensures HandleLine(t, from, BuildRoute(f)) == Relay(t, from, f)
  {
    RouteRoundTrip(f);
    var line := BuildRoute(f);
    assert line[0] == LETTER_R && TUN[0] == 84;
    assert |line| >= |TUN| ==> line[..|TUN|][0] == line[0];
  }

  lemma HearTidy(s: Seat, n: Node, from: Handle, e: Entry) returns (made: nat)
    requires Tidy(s, n) && from !in s.table.tunnels && n <= e.talk.node && (e.added ==> e.frame.inner == TUN_CLOSE)
    requires forall id | Reusable(s.table.routes, id, from, e.frame.id) :: id in s.owner && s.owner[id] == e.talk
    ensures var s' := Hear(s, from, e);
            && Tidy(s', n) && SeatGrows(s, s') && OthersKept(s, s', made)
            && (made in s'.table.routes ==>
                  && made in s'.owner && s'.owner[made] == e.talk
                  && s'.table.routes[made].to == from && s'.table.routes[made].inner == Some(e.frame.id))
            && s'.table.tunnels == s.table.tunnels
            && (forall id | id in s'.owner :: (id in s.owner && s'.owner[id] == s.owner[id]) || s'.owner[id] == e.talk)
  {
    RelayLine(s.table, from, e.frame);
    made := s.table.nextId;
    var s' := Hear(s, from, e);
    var found := Lookup(s.table, from, e.frame.id, FIRST_ID);
    match found
    case None =>
      var route := Route(from, Some(e.frame.id), StartsWith(e.frame.inner, TUN));
      MintTidy(s, n, route, e.frame.inner, e.talk, e.added);
    case Some(id) =>
      var routes := if StartsWith(e.frame.inner, TUN_CLOSE) then s.table.routes - {id} else s.table.routes;
      ReuseTidy(s, n, id, e.frame.inner, e.added, routes);
      assert s.table.(routes := s.table.routes) == s.table;
      assert made !in s'.table.routes;
  }

  lemma HeardWell(w: World, c: Node)
    requires Inv(w) && CanClimb(w, c)
    ensures var p, e := w.seats[Parent(c)], w.seats[c].sent[w.seats[c].taken];
            && Tidy(p, Parent(c)) && Conduit(c) !in p.table.tunnels && OwnedAt(w, c, e.frame.id, e.talk)
            && Parent(c) <= e.talk.node && e.talk.node in w.seats && (e.added ==> e.frame.inner == TUN_CLOSE)
            && (forall id | id in p.owner :: p.owner[id].node in w.seats)
            && (forall h | h in p.table.tunnels :: Parent(c) + [h] !in w.seats)
            && forall id | Reusable(p.table.routes, id, Conduit(c), e.frame.id) ::
               id in p.owner && p.owner[id] == e.talk
  {
    var p, from, e := Parent(c), Conduit(c), w.seats[c].sent[w.seats[c].taken];
    assert p + [from] == c;
    assert SeatOk(w, p) && SeatOk(w, c);
    assert EntryTidy(w.seats[c].owner, e);
    forall id | Reusable(w.seats[p].table.routes, id, from, e.frame.id)
      ensures id in w.seats[p].owner && w.seats[p].owner[id] == e.talk
    {
      assert RouteOk(w, p, id);
    }
  }

  lemma ClimbGrows(w: World, c: Node)
    requires CanClimb(w, c) && TOP in w.seats
    requires SeatGrows(w.seats[Parent(c)], Hear(w.seats[Parent(c)], Conduit(c), w.seats[c].sent[w.seats[c].taken]))
    ensures Grows(w, Climb(w, c))
  {
    hide Hear;
    var w' := Climb(w, c);
    forall m | m in w.seats
      ensures SeatGrows(w.seats[m], w'.seats[m])
    {
    }
  }

  lemma ClimbSeats(w: World, c: Node)
    requires CanClimb(w, c)
    ensures var w' := Climb(w, c);
            && w'.seats.Keys == w.seats.Keys
            && w'.seats[Parent(c)] == Hear(w.seats[Parent(c)], Conduit(c), w.seats[c].sent[w.seats[c].taken])
  {
    hide Hear;
  }

  /** What taking in the conduit's next frame makes of the parent. */
  lemma ParentHears(w: World, c: Node) returns (made: nat)
    requires Inv(w) && CanClimb(w, c)
    ensures var p, e := Parent(c), w.seats[c].sent[w.seats[c].taken];
            var s := w.seats[p];
            var s' := Hear(s, Conduit(c), e);
            && Tidy(s', p) && SeatGrows(s, s') && OthersKept(s, s', made)
            && (forall id | id in s'.owner :: s'.owner[id].node in w.seats)
            && (forall h | h in s'.table.tunnels :: p + [h] !in w.seats)
            && (made in s'.table.routes ==>
                  && made in s'.owner && s'.owner[made] == e.talk
                  && s'.table.routes[made].to == Conduit(c) && s'.table.routes[made].inner == Some(e.frame.id))
  {
    hide Inv, SeatOk, Tidy, OneRoute, Hear, OthersKept, SeatGrows, OwnedAt;
    HeardWell(w, c);
    made := HearTidy(w.seats[Parent(c)], Parent(c), Conduit(c), w.seats[c].sent[w.seats[c].taken]);
  }

  lemma ClimbParent(w: World, c: Node)
    requires Inv(w) && CanClimb(w, c)
    ensures Grows(w, Climb(w, c)) && SeatOk(Climb(w, c), Parent(c))
  {
    var w' := Climb(w, c);
    var p, e := Parent(c), w.seats[c].sent[w.seats[c].taken];
    assert SeatOk(w, p) && p + [Conduit(c)] == c;
    HeardWell(w, c);
    var made := ParentHears(w, c);
    ClimbSeats(w, c);
    ClimbGrows(w, c);
    OwnedStays(w, w', c, e.frame.id, e.talk);
    hide SeatGrows, Climb, CanClimb, Inv, SeatOk, Grows, Hear, OthersKept, OwnedAt, Tidy, Reusable;
    Emitted(w, w', p, made);
  }

  lemma ClimbChild(w: World, c: Node)
    requires Inv(w) && CanClimb(w, c) && Grows(w, Climb(w, c))
    ensures SeatOk(Climb(w, c), c)
  {
    assert SeatOk(w, c);
    hide Hear, Grows;
    Untouched(w, Climb(w, c), c);
  }

  lemma ClimbOthers(w: World, c: Node)
    requires CanClimb(w, c)
    ensures Climb(w, c).got == w.got && Parent(c) in Climb(w, c).seats && c in Climb(w, c).seats
    ensures forall m | m in w.seats && m != Parent(c) && m != c :: Same(w, Climb(w, c), m)
  {
    hide Hear, Parent, Conduit;
  }

  lemma ClimbKeeps(w: World, c: Node)
    requires Inv(w) && CanClimb(w, c)
    ensures Inv(Climb(w, c))
  {
    ClimbParent(w, c);
    ClimbChild(w, c);
    ClimbOthers(w, c);
    hide *;
    Settled(w, Climb(w, c), Parent(c), c);
  }

  // ----- The wrapper -----

  lemma TakeKeeps(w: World, n: Node)
    requires Inv(w) && n in w.seats && w.seats[n].taken < |w.seats[n].sent|
    ensures Inv(Put(w, n, Take(w.seats[n])))
  {
    var s' := Take(w.seats[n]);
    InOrder(w, n);
    hide Inv, SeatOk, SeatGrows, Put, Grows;
    Unrecorded(w.seats[n], s');
    PutGrows(w, n, s');
    Untouched(w, Put(w, n, s'), n);
    PutKeeps(w, n, s');
  }

  /** A reply pushed down to a mux that handed out its id, for the request that bears it. */
  lemma Pushed(w: World, w': World, n: Node, f: Frame, cause: nat, root: nat)
    requires n in w.seats && SeatOk(w, n) && Grows(w, w') && w'.seats[n] == Push(w.seats[n], f, cause, root)
    requires f.id in w.seats[n].owner && Heard(w, cause, w.seats[n].owner[f.id])
    ensures SeatOk(w', n)
  {
    var s, s' := w.seats[n], w'.seats[n];
    forall id | id in s'.table.routes
      ensures RouteOk(w', n, id)
    {
      RouteStays(w, w', n, id);
    }
    forall a | a in s'.down
      ensures AnswerOk(w', n, a)
    {
      if a == Answer(f, cause, root) { assert AnswerOk(w, n, a); }
      AnswerStays(w, w', n, a);
    }
  }

  lemma PushKeeps(w: World, c: Node, f: Frame, cause: nat, root: nat, talk: Talk)
    requires Inv(w) && OwnedAt(w, c, f.id, talk) && Heard(w, cause, talk)
    ensures Inv(Put(w, c, Push(w.seats[c], f, cause, root)))
  {
    var s' := Push(w.seats[c], f, cause, root);
    InOrder(w, c);
    hide Inv, SeatOk, SeatGrows, Put, Grows, Heard;
    Unrecorded(w.seats[c], s');
    PutGrows(w, c, s');
    Pushed(w, Put(w, c, s'), c, f, cause, root);
    hide OwnedAt, Push;
    PutKeeps(w, c, s');
  }

  lemma AnswersKeeps(w: World, cause: nat, text: seq<Byte>)
    requires Inv(w) && cause < w.seats[TOP].taken && cause < |w.seats[TOP].sent|
    ensures Inv(Put(w, TOP, Reply(w.seats[TOP], w.seats[TOP].sent[cause].frame.id, cause, text)))
  {
    var e := w.seats[TOP].sent[cause];
    InOrder(w, TOP);
    assert EntryTidy(w.seats[TOP].owner, e);
    assert OwnedAt(w, TOP, e.frame.id, e.talk) && Heard(w, cause, e.talk);
    hide Inv;
    PushKeeps(w, TOP, Frame(e.frame.id, text), cause, e.frame.id, e.talk);
  }

  // ----- Replies going down -----

  /** The frame the wrapper or a parent sent is read back as it was. */
  lemma ReplyRead(t: Table, f: Frame)
    requires f.id in t.routes
    ensures var r, route := HandleReply(t, BuildRoute(f)), t.routes[f.id];
            && r.table == (if route.persistent then t else t.(routes := t.routes - {f.id}))
            && r.write == match route.inner
                          case None => (if f.inner == [] then Silent else Raw(route.to, f.inner))
                          case Some(inner) => Framed(route.to, Frame(inner, f.inner))
  {
    RouteRoundTrip(f);
    hide BuildRoute, ParseRoute;
  }

  lemma ReplyUnknown(t: Table, f: Frame)
    requires f.id !in t.routes
    ensures HandleReply(t, BuildRoute(f)) == Answered(t, Silent)
  {
    RouteRoundTrip(f);
    hide BuildRoute, ParseRoute;
  }

  lemma ReadTidy(s: Seat, n: Node)
    requires Tidy(s, n) && s.read < |s.down|
    ensures var s' := Read(s);
            && Tidy(s', n) && SeatGrows(s, s') && s'.down == s.down && s'.owner == s.owner && s'.sent == s.sent
            && s'.table.tunnels == s.table.tunnels
            && forall id | id in s'.table.routes :: id in s.table.routes && s'.table.routes[id] == s.table.routes[id]
  {
    var f := s.down[s.read].frame;
    if f.id in s.table.routes { ReplyRead(s.table, f); } else { ReplyUnknown(s.table, f); }
    hide HandleReply;
    var s' := Read(s);
    forall e | e in s'.sent
      ensures EntryTidy(s'.owner, e)
    {
      assert EntryTidy(s.owner, e);
    }
    forall h | h in s'.table.tunnels
      ensures TunnelTidy(s'.owner, n, s'.table.tunnels[h], h)
    {
      assert TunnelTidy(s.owner, n, s.table.tunnels[h], h);
    }
    forall i, j, h, k | Reusable(s'.table.routes, i, h, k) && Reusable(s'.table.routes, j, h, k)
      ensures i == j
    {
      assert Reusable(s.table.routes, i, h, k) && Reusable(s.table.routes, j, h, k);
    }
  }

  lemma InOrder(w: World, n: Node)
    requires Inv(w) && n in w.seats
    ensures SeatOk(w, n) && TOP in w.seats && Tidy(w.seats[n], n)
  {
  }

  /** Reading a reply, before anything is written: the invariant holds. */
  lemma ReadKeeps(w: World, n: Node)
    requires Inv(w) && n in w.seats && w.seats[n].read < |w.seats[n].down|
    ensures Inv(Put(w, n, Read(w.seats[n]))) && Grows(w, Put(w, n, Read(w.seats[n])))
  {
    var s' := Read(w.seats[n]);
    InOrder(w, n);
    ReadTidy(w.seats[n], n);
    hide Inv, Read, Tidy, SeatGrows, Put, Grows;
    PutGrows(w, n, s');
    Emitted(w, Put(w, n, s'), n, s'.table.nextId);
    hide SeatOk;
    PutKeeps(w, n, s');
  }

  /** The reply a client is handed answers a request of that very client. */
  lemma RawRight(w: World, n: Node)
    requires Inv(w) && n in w.seats && w.seats[n].read < |w.seats[n].down|
    requires var a := w.seats[n].down[w.seats[n].read];
             a.frame.id in w.seats[n].table.routes && w.seats[n].table.routes[a.frame.id].inner == None
    ensures var s := w.seats[n];
            var a := s.down[s.read];
            var route := s.table.routes[a.frame.id];
            && GotOk(Put(w, n, Read(s)), Got(n, route.to, a.frame.id, a.frame.inner, a.cause, a.root))
  {
    var s := w.seats[n];
    var a := s.down[s.read];
    var id, w' := a.frame.id, Put(w, n, Read(s));
    var route := s.table.routes[id];
    ReadKeeps(w, n);
    InOrder(w, n);
    hide Inv;
    assert RouteOk(w, n, id) && AnswerOk(w, n, a);
    ReplyRead(s.table, a.frame);
    hide SeatOk, Grows, HandleReply, BuildRoute;
    HeardStays(w, w', a.cause, Talk(n, id, route.to, route.persistent));
  }

  /** Handing a client a reply: its request, and if it is a one-shot then the only time. */
  lemma RawKeeps(w: World, n: Node)
    requires Inv(w) && n in w.seats && w.seats[n].read < |w.seats[n].down|
    requires var a := w.seats[n].down[w.seats[n].read];
             a.frame.id in w.seats[n].table.routes && w.seats[n].table.routes[a.frame.id].inner == None
    ensures var s := w.seats[n];
            var a := s.down[s.read];
            var w1 := Put(w, n, Read(s));
            var g := Got(n, s.table.routes[a.frame.id].to, a.frame.id, a.frame.inner, a.cause, a.root);
            Inv(w1.(got := w1.got + [g]))
  {
    var s := w.seats[n];
    var a := s.down[s.read];
    var g := Got(n, s.table.routes[a.frame.id].to, a.frame.id, a.frame.inner, a.cause, a.root);
    var w1 := Put(w, n, Read(s));
    ReadKeeps(w, n);
    RawRight(w, n);
    OldGotsOnce(w, n, a.frame.id);
    forall x | x in w.got && x.node == n && x.id == a.frame.id
      ensures Heard(w1, x.cause, Talk(n, x.id, x.client, true))
    {
      HeardStays(w, w1, x.cause, Talk(n, x.id, x.client, true));
    }
    hide Inv, Grows, Read;
    HandOver(w1, g);
  }

  /** One more reply handed over. */
  lemma HandOver(w: World, g: Got)
    requires Inv(w) && GotOk(w, g)
    requires forall x | x in w.got && x.node == g.node && x.id == g.id ::
             Heard(w, x.cause, Talk(x.node, x.id, x.client, true))
    ensures Inv(w.(got := w.got + [g]))
  {
    var w' := w.(got := w.got + [g]);
    forall x | x in w'.got
      ensures GotOk(w', x)
    {
      SameGot(w, w', x);
    }
    forall i, j | 0 <= i < j < |w'.got| && w'.got[i].node == w'.got[j].node && w'.got[i].id == w'.got[j].id
      ensures Heard(w', w'.got[i].cause, Talk(w'.got[i].node, w'.got[i].id, w'.got[i].client, true))
    {
      assert w'.got[i] == w.got[i] && w.got[i] in w.got;
      assert Heard(w, w.got[i].cause, Talk(w.got[i].node, w.got[i].id, w.got[i].client, true));
    }
    forall m | m in w'.seats
      ensures SeatOk(w', m)
    {
      SameSeats(w, w', m);
    }
  }

  lemma SameGot(w: World, w': World, g: Got)
    requires w'.seats == w.seats && GotOk(w, g)
    ensures GotOk(w', g)
  {
    var tunnel :| && Heard(w, g.cause, Talk(g.node, g.id, g.client, tunnel))
                  && (tunnel || (g.id !in w.seats[g.node].table.routes && g.id < w.seats[g.node].table.nextId));
    assert Heard(w', g.cause, Talk(g.node, g.id, g.client, tunnel));
  }

  lemma SameSeats(w: World, w': World, n: Node)
    requires w'.seats == w.seats && n in w.seats && SeatOk(w, n)
    ensures SeatOk(w', n)
  {
    var s := w.seats[n];
    forall id | id in s.table.routes
      ensures RouteOk(w', n, id)
    {
      assert RouteOk(w, n, id);
    }
    forall a | a in s.down
      ensures AnswerOk(w', n, a)
    {
      assert AnswerOk(w, n, a);
    }
  }

  /** While a route is in the table, any earlier reply under its id was a tunnel's. */
  lemma OldGotsOnce(w: World, n: Node, id: nat)
    requires Inv(w) && n in w.seats && id in w.seats[n].table.routes
    ensures forall g | g in w.got && g.node == n && g.id == id :: Heard(w, g.cause, Talk(n, id, g.client, true))
  {
    forall g | g in w.got && g.node == n && g.id == id
      ensures Heard(w, g.cause, Talk(n, id, g.client, true))
    {
      assert GotOk(w, g);
    }
  }

  /** A reply re-framed for a conduit bears the id the deeper mux gave the same request. */
  lemma FramedRight(w: World, n: Node)
    requires Inv(w) && n in w.seats && w.seats[n].read < |w.seats[n].down|
    requires var a := w.seats[n].down[w.seats[n].read];
             a.frame.id in w.seats[n].table.routes && w.seats[n].table.routes[a.frame.id].inner.Some?
    ensures var s := w.seats[n];
            var a := s.down[s.read];
            var route := s.table.routes[a.frame.id];
            var w1, c := Put(w, n, Read(s)), n + [route.to];
            && a.frame.id in s.owner
            && OwnedAt(w1, c, route.inner.value, s.owner[a.frame.id]) && Heard(w1, a.cause, s.owner[a.frame.id])
  {
    var s := w.seats[n];
    var a := s.down[s.read];
    var route := s.table.routes[a.frame.id];
    ReadKeeps(w, n);
    InOrder(w, n);
    var w1, c, talk := Put(w, n, Read(s)), n + [route.to], s.owner[a.frame.id];
    hide Inv;
    assert RouteOk(w, n, a.frame.id) && AnswerOk(w, n, a);
    hide SeatOk, Read;
    OwnedStays(w, w1, c, route.inner.value, talk);
    HeardStays(w, w1, a.cause, talk);
  }

  lemma DeliverKeeps(w: World, n: Node, a: Answer, write: Write)
    requires Inv(w)
    requires match write
             case Silent => true
             case Raw(to, bytes) => Inv(w.(got := w.got + [Got(n, to, a.frame.id, bytes, a.cause, a.root)]))
             case Framed(to, f) =>
               n + [to] in w.seats && Inv(Put(w, n + [to], Push(w.seats[n + [to]], f, a.cause, a.root)))
    ensures Inv(Deliver(w, n, a, write))
  {
    hide Inv, Put, Push;
  }

  lemma DescendKeeps(w: World, n: Node)
    requires Inv(w) && n in w.seats && w.seats[n].read < |w.seats[n].down|
    ensures Inv(Descend(w, n))
  {
    var s := w.seats[n];
    var a := s.down[s.read];
    var w1 := Put(w, n, Read(s));
    ReadKeeps(w, n);
    hide Read, Inv, Put, Push, Heard, Grows;
    if a.frame.id !in s.table.routes {
      ReplyUnknown(s.table, a.frame);
      DeliverKeeps(w1, n, a, Silent);
    } else {
      ReplyRead(s.table, a.frame);
      var route := s.table.routes[a.frame.id];
      if route.inner == None {
        RawKeeps(w, n);
        DeliverKeeps(w1, n, a, if a.frame.inner == [] then Silent else Raw(route.to, a.frame.inner));
      } else {
        FramedRight(w, n);
        var f := Frame(route.inner.value, a.frame.inner);
        PushKeeps(w1, n + [route.to], f, a.cause, a.root, s.owner[a.frame.id]);
        DeliverKeeps(w1, n, a, Framed(route.to, f));
      }
    }
    hide HandleReply, BuildRoute, Deliver;
  }

  // ----- Departures -----

  lemma {:induction false} ClosersTidy(owner: map<nat, Talk>, ids: seq<nat>)
    ensures forall e | e in Closers(owner, ids) ::
              e.frame.id in ids && e.frame.id in owner && e.talk == owner[e.frame.id] && e.added
                && e.frame.inner == TUN_CLOSE
  {
    if ids != [] { ClosersTidy(owner, ids[..|ids| - 1]); }
  }

  /** The frames recorded are the frames the mux sends. */
  lemma {:induction false} ClosersSent(owner: map<nat, Talk>, ids: seq<nat>)
    requires forall id | id in ids :: id in owner
    ensures |Closers(owner, ids)| == |ids| == |CloseFrames(ids)|
    ensures forall i | 0 <= i < |ids| :: Closers(owner, ids)[i].frame == CloseFrames(ids)[i] == Frame(ids[i], TUN_CLOSE)
  {
    if ids != [] {
      assert ids[|ids| - 1] in ids;
      ClosersSent(owner, ids[..|ids| - 1]);
    }
  }

  lemma ClosingOwned(s: Seat, n: Node, from: Handle)
    requires Tidy(s, n)
    ensures forall id | id in Closing(s.table, from) :: id in s.owner
  {
    DeadIds(s.table, from, FIRST_ID);
    if from in s.table.tunnels { assert TunnelTidy(s.owner, n, s.table.tunnels[from], from); }
  }

  lemma LeaveTidy(s: Seat, n: Node, from: Handle)
    requires Tidy(s, n)
    ensures var s' := Leave(s, from);
            && Tidy(s', n) && SeatGrows(s, s') && OthersKept(s, s', s'.table.nextId) && s'.owner == s.owner
            && (forall h | h in s'.table.tunnels :: h in s.table.tunnels)
  {
    var ids := Closing(s.table, from);
    ClosersTidy(s.owner, ids);
    WithoutKeys(s.table.routes, ids);
    hide Closing, Without;
    var s' := Leave(s, from);
    forall e | e in s'.sent
      ensures EntryTidy(s'.owner, e)
    {
      if e in s.sent { assert EntryTidy(s.owner, e); }
    }
    forall h | h in s'.table.tunnels
      ensures TunnelTidy(s'.owner, n, s'.table.tunnels[h], h)
    {
      assert TunnelTidy(s.owner, n, s.table.tunnels[h], h);
    }
    forall i, j, h, k | Reusable(s'.table.routes, i, h, k) && Reusable(s'.table.routes, j, h, k)
      ensures i == j
    {
      assert Reusable(s.table.routes, i, h, k) && Reusable(s.table.routes, j, h, k);
    }
  }

  lemma LeaveKeeps(w: World, n: Node, from: Handle)
    requires Inv(w) && n in w.seats
    ensures Inv(Put(w, n, Leave(w.seats[n], from)))
  {
    var s' := Leave(w.seats[n], from);
    InOrder(w, n);
    LeaveTidy(w.seats[n], n, from);
    hide Inv, Leave, Tidy, SeatGrows, OthersKept, Put, Grows;
    PutGrows(w, n, s');
    Emitted(w, Put(w, n, s'), n, s'.table.nextId);
    hide SeatOk;
    PutKeeps(w, n, s');
  }

  /** Which connections are gone is no part of the invariant. */
  lemma GoneKeeps(w: World, gone: set<(Node, Handle)>)
    requires Inv(w)
    ensures Inv(w.(gone := gone))
  {
    var w' := w.(gone := gone);
    forall m | m in w'.seats
      ensures SeatOk(w', m)
    {
      SameSeats(w, w', m);
    }
    forall g | g in w'.got
      ensures GotOk(w', g)
    {
      SameGot(w, w', g);
    }
    forall i, j | 0 <= i < j < |w'.got| && w'.got[i].node == w'.got[j].node && w'.got[i].id == w'.got[j].id
      ensures Heard(w', w'.got[i].cause, Talk(w'.got[i].node, w'.got[i].id, w'.got[i].client, true))
    {
      assert Heard(w, w.got[i].cause, Talk(w.got[i].node, w.got[i].id, w.got[i].client, true));
    }
  }

  // ----- Whole runs -----

  lemma StartInv(nodes: set<Node>)
    requires Tree(nodes)
    ensures Inv(Start(nodes))
  {
    var w := Start(nodes);
    forall n | n in w.seats
      ensures SeatOk(w, n)
    {
      assert w.seats[n] == Seat(Fresh(), map[], map[], [], 0, [], 0);
    }
  }

  lemma WrapperKeeps(w: World, cause: nat, text: seq<Byte>)
    requires Inv(w)
    ensures Inv(Hearing(w)) && Inv(Answering(w, cause, text))
  {
    assert TOP in w.seats;
    hide Inv, Put, Reply, Take, ApcLaws.Safe;
    var s := w.seats[TOP];
    if s.taken < |s.sent| { TakeKeeps(w, TOP); }
    if cause < s.taken && cause < |s.sent| { AnswersKeeps(w, cause, text); }
  }

  lemma ClientKeeps(w: World, n: Node, from: Handle, line: seq<Byte>)
    requires Inv(w)
    ensures Inv(Saying(w, n, from, line)) && Inv(Leaving(w, n, from))
  {
    hide Inv, Put, Say, Leave;
    if CanSay(w, n, from, line) { SayKeeps(w, n, from, line); }
    if n in w.seats {
      LeaveKeeps(w, n, from);
      GoneKeeps(Put(w, n, Leave(w.seats[n], from)), w.gone + {(n, from)});
    }
  }

  lemma ConduitKeeps(w: World, n: Node)
    requires Inv(w)
    ensures Inv(Climbing(w, n)) && Inv(Descending(w, n))
  {
    hide Inv, Climb, Descend;
    if CanClimb(w, n) { ClimbKeeps(w, n); }
    if n in w.seats && w.seats[n].read < |w.seats[n].down| { DescendKeeps(w, n); }
  }

  lemma StepKeeps(w: World, e: Event)
    requires Inv(w)
    ensures Inv(Step(w, e))
  {
    hide Inv, Saying, Climbing, Hearing, Answering, Descending, Leaving;
    match e
    case Says(n, from, line) => ClientKeeps(w, n, from, line);
    case Climbs(c) => ConduitKeeps(w, c);
    case Hears => WrapperKeeps(w, 0, []);
    case Answers(cause, text) => WrapperKeeps(w, cause, text);
    case Descends(n) => ConduitKeeps(w, n);
    case Leaves(n, from) => ClientKeeps(w, n, from, []);
  }

  lemma {:induction false} RunInv(nodes: set<Node>, events: seq<Event>)
    requires Tree(nodes)
    ensures Inv(Run(nodes, events))
    decreases |events|
  {
    hide Inv, Step, Start;
    if events == [] {
      StartInv(nodes);
    } else {
      RunInv(nodes, events[..|events| - 1]);
      StepKeeps(Run(nodes, events[..|events| - 1]), events[|events| - 1]);
    }
  }
}
