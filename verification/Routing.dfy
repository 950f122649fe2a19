/**
 Label-swap routing in one mux: every request going up gets an id of this mux's own, the table
 remembers where it came from, and the reply carrying that id goes back there.
 */
module Routing {
  import opened Bytes
  import opened Text
  import opened Apc

  /** A connection to the mux's socket: a local client, or the conduit to a deeper mux. */
  type Handle = nat

  datatype Frame = Frame(id: nat, inner: seq<Byte>)

  const LETTER_R: Byte := 82
  const TUN: seq<Byte> := [84, 85, 78, 58] // "TUN:"
  const TUN_CLOSE: seq<Byte> := [84, 85, 78, 45, 67, 76, 79, 83, 69] // "TUN-CLOSE"

  // ----- The frame text `R<id>:<inner>` -----

  function BuildRoute(f: Frame): seq<Byte> { [LETTER_R] + Dec(f.id) + [COLON] + f.inner }

  function ParseRoute(cmd: seq<Byte>): Option<Frame> {
    if cmd == [] || cmd[0] != LETTER_R then None
    else
      var rest := cmd[1..];
      var i := Find(rest, COLON);
      if i == |rest| then None
      else match ParseDec(rest[..i])
        case None => None
        case Some(id) => Some(Frame(id, rest[i + 1..]))
  }

  lemma RouteRoundTrip(f: Frame)
    ensures ParseRoute(BuildRoute(f)) == Some(f)
  {
    var cmd := BuildRoute(f);
    assert cmd[1..] == Dec(f.id) + [COLON] + f.inner;
    DigitsLack(Dec(f.id), COLON);
    FindAfter(Dec(f.id), COLON, f.inner);
    NumOfDec(f.id);
  }

  /** The mux's own parser, which reads the digits one by one, agrees with the wrapper's split. */
  method ParseRouteBytes(cmd: seq<Byte>) returns (frame: Option<Frame>)
    ensures frame == ParseRoute(cmd)
  {
    if |cmd| < 2 || cmd[0] != LETTER_R { return None; }
    ghost var rest := cmd[1..];
    var i: nat, id: nat := 1, 0;
    while i < |cmd| && Digit(cmd[i])
      invariant 1 <= i <= |cmd| && Digits(cmd[1..i]) && id == Num(cmd[1..i])
    {
      assert cmd[1..i + 1] == cmd[1..i] + [cmd[i]];
      id := id * 10 + (cmd[i] as int - 48);
      i := i + 1;
    }
    DigitsLack(cmd[1..i], COLON);
    if i == 1 || i >= |cmd| || cmd[i] != COLON {
      assert rest[..i - 1] == cmd[1..i];
      NotARoute(rest, i - 1);
      return None;
    }
    assert rest == cmd[1..i] + [COLON] + cmd[i + 1..];
    FindAfter(cmd[1..i], COLON, cmd[i + 1..]);
    return Some(Frame(id, cmd[i + 1..]));
  }

  /** No id: the digits run to the end, or to something other than a colon, or there are none. */
  lemma NotARoute(rest: seq<Byte>, n: nat)
    requires n <= |rest| && Digits(rest[..n])
    requires n == 0 ==> rest != [] && !Digit(rest[0])
    requires 0 < n < |rest| ==> !Digit(rest[n]) && rest[n] != COLON
    ensures var i := Find(rest, COLON); i == |rest| || ParseDec(rest[..i]) == None
  {
    hide Find, Num;
    var i := Find(rest, COLON);
    if i < |rest| {
      assert forall k | 0 <= k < n :: Digit(rest[k]) by { assert forall k | 0 <= k < n :: Digit(rest[..n][k]); }
      if n < i { assert rest[..i][n] == rest[n]; }
    }
  }

  // ----- The table -----

  /** Where a reply goes: to `to`, re-framed under `inner` if the request came in a frame. */
  datatype Route = Route(to: Handle, inner: Option<nat>, persistent: bool)

  /** The routes by id, the next id to hand out, and the id of each tunnel client. */
  datatype Table = Table(routes: map<nat, Route>, nextId: nat, tunnels: map<Handle, nat>)

  const FIRST_ID: nat := 1

  function Fresh(): Table { Table(map[], FIRST_ID, map[]) }

  datatype Relayed = Relayed(table: Table, frame: Frame)

  function Mint(t: Table, route: Route, text: seq<Byte>): Relayed {
    Relayed(t.(routes := t.routes[t.nextId := route], nextId := t.nextId + 1), Frame(t.nextId, text))
  }

  predicate Reusable(routes: map<nat, Route>, id: nat, from: Handle, inner: nat) {
    id in routes && routes[id] == Route(from, Some(inner), true)
  }

  /** The first tunnel route for this conduit and inner id; ids are handed out in ascending order. */
  function Lookup(t: Table, from: Handle, inner: nat, id: nat): (r: Option<nat>)
    ensures r.Some? ==> id <= r.value < t.nextId && Reusable(t.routes, r.value, from, inner)
    ensures r.None? ==> forall k | id <= k < t.nextId :: !Reusable(t.routes, k, from, inner)
    decreases t.nextId - id
  {
    if id >= t.nextId then None
    else if Reusable(t.routes, id, from, inner) then Some(id)
    else Lookup(t, from, inner, id + 1)
  }

  /** A framed line, up from a conduit. */
  function Relay(t: Table, from: Handle, f: Frame): Relayed {
    match Lookup(t, from, f.id, FIRST_ID)
    case Some(id) =>
      Relayed(if StartsWith(f.inner, TUN_CLOSE) then t.(routes := t.routes - {id}) else t, Frame(id, f.inner))
    case None => Mint(t, Route(from, Some(f.id), StartsWith(f.inner, TUN)), f.inner)
  }

  /** Any line that is not one of the mux's own verbs. */
  function HandleLine(t: Table, from: Handle, line: seq<Byte>): Relayed {
    if StartsWith(line, TUN) then
      var r := Mint(t, Route(from, None, true), line);
      r.(table := r.table.(tunnels := t.tunnels[from := t.nextId]))
    else if from in t.tunnels then Relayed(t, Frame(t.tunnels[from], line))
    else match ParseRoute(line)
      case Some(f) => Relay(t, from, f)
      case None => Mint(t, Route(from, None, false), line)
  }

  /** What a reply frame makes the mux write. */
  datatype Write = Silent | Raw(to: Handle, bytes: seq<Byte>) | Framed(to: Handle, frame: Frame)

  datatype Answered = Answered(table: Table, write: Write)

  function HandleReply(t: Table, payload: seq<Byte>): Answered {
    match ParseRoute(payload)
    case None => Answered(t, Silent)
    case Some(f) =>
      if f.id !in t.routes then Answered(t, Silent)
      else
        var route := t.routes[f.id];
        var write := match route.inner
                     case None => if f.inner == [] then Silent else Raw(route.to, f.inner)
                     case Some(inner) => Framed(route.to, Frame(inner, f.inner));
        Answered(if route.persistent then t else t.(routes := t.routes - {f.id}), write)
  }

  /** The bytes on the connection: a raw reply as it is, a framed one in an envelope. */
  function Written(w: Write): Option<(Handle, seq<Byte>)> {
    match w
    case Silent => None
    case Raw(to, bytes) => Some((to, bytes))
    case Framed(to, f) => Some((to, Envelope(BuildRoute(f))))
  }

  /** A persistent route of this connection other than its own tunnel. */
  predicate Hanging(t: Table, from: Handle, id: nat) {
    && id in t.routes && t.routes[id].persistent && t.routes[id].to == from
    && !(from in t.tunnels && t.tunnels[from] == id)
  }

  function Dead(t: Table, from: Handle, id: nat): seq<nat>
    decreases t.nextId - id
  {
    if id >= t.nextId then []
    else if Hanging(t, from, id) then [id] + Dead(t, from, id + 1)
    else Dead(t, from, id + 1)
  }

  lemma {:induction false} DeadIds(t: Table, from: Handle, id: nat)
    ensures forall k :: k in Dead(t, from, id) <==> id <= k < t.nextId && Hanging(t, from, k)
    decreases t.nextId - id
  {
    if id < t.nextId {
      DeadIds(t, from, id + 1);
      hide Hanging;
    }
  }

  function Closing(t: Table, from: Handle): seq<nat> {
    (if from in t.tunnels then [t.tunnels[from]] else []) + Dead(t, from, FIRST_ID)
  }

  function CloseFrames(ids: seq<nat>): seq<Frame> {
    if ids == [] then [] else CloseFrames(ids[..|ids| - 1]) + [Frame(ids[|ids| - 1], TUN_CLOSE)]
  }

  function Without(routes: map<nat, Route>, ids: seq<nat>): map<nat, Route> {
    if ids == [] then routes else Without(routes, ids[..|ids| - 1]) - {ids[|ids| - 1]}
  }

  lemma {:induction false} WithoutKeys(routes: map<nat, Route>, ids: seq<nat>)
    ensures forall k :: k in Without(routes, ids) <==> k in routes && k !in ids
    ensures forall k | k in Without(routes, ids) :: Without(routes, ids)[k] == routes[k]
  {
    if ids != [] {
      WithoutKeys(routes, ids[..|ids| - 1]);
      assert ids == ids[..|ids| - 1] + [ids[|ids| - 1]];
    }
  }

  /** A connection ends: its tunnels are closed upstream; its one-shot routes stay. */
  function Drop(t: Table, from: Handle): Table {
    t.(routes := Without(t.routes, Closing(t, from)), tunnels := t.tunnels - {from})
  }

  // ----- What every table keeps -----

  /** Routes bear ids handed out before, and a tunnel client's id has that client's route. */
  ghost predicate Sound(t: Table) {
    && t.nextId >= FIRST_ID && (forall id | id in t.routes :: FIRST_ID <= id < t.nextId)
    && (forall h | h in t.tunnels :: t.tunnels[h] in t.routes && t.routes[t.tunnels[h]] == Route(h, None, true))
  }

  /** A tunnel that goes through this connection: its own client's, or one carried over the conduit. */
  predicate Through(routes: map<nat, Route>, from: Handle, id: nat) {
    id in routes && routes[id].persistent && routes[id].to == from
  }

  ghost predicate Distinct(ids: seq<nat>) { forall i, j | 0 <= i < j < |ids| :: ids[i] != ids[j] }

  lemma {:induction false} DeadDistinct(t: Table, from: Handle, id: nat)
    ensures Distinct(Dead(t, from, id))
    decreases t.nextId - id
  {
    if id < t.nextId {
      DeadDistinct(t, from, id + 1);
      DeadIds(t, from, id + 1);
      var rest := Dead(t, from, id + 1);
      assert forall i | 0 <= i < |rest| :: rest[i] in rest;
      hide Hanging;
    }
  }

  lemma ClosingDistinct(t: Table, from: Handle)
    ensures Distinct(Closing(t, from))
  {
    DeadDistinct(t, from, FIRST_ID);
    DeadIds(t, from, FIRST_ID);
    var rest := Dead(t, from, FIRST_ID);
    assert forall i | 0 <= i < |rest| :: rest[i] in rest;
  }

  /** The ids to close are those of all the tunnels through the connection. */
  lemma ClosingThrough(t: Table, from: Handle)
    requires Sound(t)
    ensures forall id :: id in Closing(t, from) <==> Through(t.routes, from, id)
  {
    DeadIds(t, from, FIRST_ID);
  }

  lemma LineSound(t: Table, from: Handle, line: seq<Byte>)
    requires Sound(t)
    ensures Sound(HandleLine(t, from, line).table)
  {
    hide ParseRoute, StartsWith;
  }

  lemma ReplySound(t: Table, payload: seq<Byte>)
    requires Sound(t)
    ensures Sound(HandleReply(t, payload).table)
  {
    hide ParseRoute;
  }

  lemma DropSound(t: Table, from: Handle)
    requires Sound(t)
    ensures Sound(Drop(t, from))
    ensures forall id :: id in Drop(t, from).routes <==> id in t.routes && !Through(t.routes, from, id)
    ensures forall id | id in Drop(t, from).routes :: Drop(t, from).routes[id] == t.routes[id]
  {
    ClosingThrough(t, from);
    WithoutKeys(t.routes, Closing(t, from));
    hide Closing, Without;
  }

  lemma {:induction false} CloseFramesAre(ids: seq<nat>)
    ensures |CloseFrames(ids)| == |ids| && forall i | 0 <= i < |ids| :: CloseFrames(ids)[i] == Frame(ids[i], TUN_CLOSE)
  {
    if ids != [] { CloseFramesAre(ids[..|ids| - 1]); }
  }

  /** A close for each of the ids. */
  lemma {:induction false} ClosesEach(ids: seq<nat>)
    requires Distinct(ids)
    ensures forall id :: Frame(id, TUN_CLOSE) in CloseFrames(ids) <==> id in ids
    ensures Once(CloseFrames(ids))
  {
    CloseFramesAre(ids);
    var up := CloseFrames(ids);
    hide CloseFrames;
    forall id | id in ids
      ensures Frame(id, TUN_CLOSE) in up
    {
      var i :| 0 <= i < |ids| && ids[i] == id;
      assert up[i] == Frame(id, TUN_CLOSE);
    }
  }

  /** Closing frames, no two for one id. */
  ghost predicate Once(up: seq<Frame>) {
    && (forall f | f in up :: f.inner == TUN_CLOSE)
    && forall i, j | 0 <= i < j < |up| :: up[i] != up[j]
  }

  /** What a lost connection closes, and what it leaves. */
  lemma GoneFacts(t: Table, from: Handle)
    requires Sound(t)
    ensures var up, routes := CloseFrames(Closing(t, from)), Drop(t, from).routes;
            && Sound(Drop(t, from)) && Once(up)
            && (forall id :: Frame(id, TUN_CLOSE) in up <==> Through(t.routes, from, id))
            && (forall id :: id in routes <==> id in t.routes && !Through(t.routes, from, id))
            && (forall id | id in routes :: routes[id] == t.routes[id])
  {
    ClosingThrough(t, from);
    ClosingDistinct(t, from);
    DropSound(t, from);
    ClosesEach(Closing(t, from));
    hide Closing, CloseFrames, Without, Drop, Sound;
  }

  // ----- The mux -----

  class Mux {
    var routes: map<nat, Route>
    var nextId: nat
    var tunnels: map<Handle, nat>

    ghost function View(): Table
      reads this
    {
      Table(routes, nextId, tunnels)
    }

    ghost predicate Valid()
      reads this
    {
      Sound(View())
    }

    constructor ()
      ensures Valid() && View() == Fresh()
    {
      routes, nextId, tunnels := map[], FIRST_ID, map[];
    }

    /** A request line from a client or a conduit: the frame to send up. */
    method Line(from: Handle, line: seq<Byte>) returns (up: seq<Byte>)
      requires Valid()
      modifies this
      ensures Valid()
      ensures var r := HandleLine(old(View()), from, line); View() == r.table && up == BuildRoute(r.frame)
    {
      LineSound(View(), from, line);
      var id := nextId;
      if StartsWith(line, TUN) {
        nextId := nextId + 1;
        routes := routes[id := Route(from, None, true)];
        tunnels := tunnels[from := id];
        return BuildRoute(Frame(id, line));
      }
      if from in tunnels { return BuildRoute(Frame(tunnels[from], line)); }
      var framed := ParseRouteBytes(line);
      match framed
      case Some(f) =>
        var known := FindRoute(from, f.id);
        if known.None? {
          nextId := nextId + 1;
          routes := routes[id := Route(from, Some(f.id), StartsWith(f.inner, TUN))];
        } else {
          id := known.value;
          if StartsWith(f.inner, TUN_CLOSE) { routes := routes - {id}; }
        }
        return BuildRoute(Frame(id, f.inner));
      case None =>
        nextId := nextId + 1;
        routes := routes[id := Route(from, None, false)];
        return BuildRoute(Frame(id, line));
    }

    method FindRoute(from: Handle, inner: nat) returns (found: Option<nat>)
      ensures found == Lookup(View(), from, inner, FIRST_ID)
    {
      var id := FIRST_ID;
      while id < nextId
        invariant id >= FIRST_ID && Lookup(View(), from, inner, FIRST_ID) == Lookup(View(), from, inner, id)
      {
        if id in routes && routes[id].persistent && routes[id].to == from && routes[id].inner == Some(inner) {
          return Some(id);
        }
        id := id + 1;
      }
      return None;
    }

    /** A reply frame from above: what is written to which connection. */
    method Reply(payload: seq<Byte>) returns (written: Option<(Handle, seq<Byte>)>)
      requires Valid()
      modifies this
      ensures Valid()
      ensures var r := HandleReply(old(View()), payload); View() == r.table && written == Written(r.write)
    {
      ReplySound(View(), payload);
      var parsed := ParseRouteBytes(payload);
      if parsed.None? || parsed.value.id !in routes { return None; }
      var id, resp := parsed.value.id, parsed.value.inner;
      var route := routes[id];
      written := None;
      if route.inner.None? {
        if |resp| > 0 { written := Some((route.to, resp)); }
      } else {
        written := Some((route.to, Envelope(BuildRoute(Frame(route.inner.value, resp)))));
      }
      if !route.persistent { routes := routes - {id}; }
    }

    /** The ids to close when a connection ends. */
    method Doomed(from: Handle) returns (dead: seq<nat>)
      ensures dead == Closing(View(), from)
    {
      dead := if from in tunnels then [tunnels[from]] else [];
      var id := FIRST_ID;
      while id < nextId
        invariant id >= FIRST_ID && dead + Dead(View(), from, id) == Closing(View(), from)
      {
        if id in routes && routes[id].persistent && routes[id].to == from
           && !(from in tunnels && tunnels[from] == id) {
          assert dead + ([id] + Dead(View(), from, id + 1)) == (dead + [id]) + Dead(View(), from, id + 1);
          dead := dead + [id];
        }
        id := id + 1;
      }
      assert dead + [] == dead;
    }

    /** Close them one by one. */
    method CloseAll(dead: seq<nat>) returns (up: seq<Frame>)
      modifies `routes
      ensures up == CloseFrames(dead) && routes == Without(old(routes), dead)
    {
      up := [];
      for i := 0 to |dead|
        invariant up == CloseFrames(dead[..i]) && routes == Without(old(routes), dead[..i])
      {
        assert dead[..i + 1][..i] == dead[..i];
        up := up + [Frame(dead[i], TUN_CLOSE)];
        routes := routes - {dead[i]};
      }
      assert dead[..|dead|] == dead;
    }

    /**
     A connection has ended: every tunnel through it is closed upstream, once, and loses its route; every
     other route is left as it is, one-shot routes to that connection included.
     */
    method Gone(from: Handle) returns (up: seq<Frame>)
      requires Valid()
      modifies this
      ensures Valid() && View() == Drop(old(View()), from) && up == CloseFrames(Closing(old(View()), from))
      ensures forall id :: Frame(id, TUN_CLOSE) in up <==> Through(old(routes), from, id)
      ensures Once(up)
      ensures forall id :: id in routes <==> id in old(routes) && !Through(old(routes), from, id)
      ensures forall id | id in routes :: routes[id] == old(routes)[id]
      ensures nextId == old(nextId) && tunnels == old(tunnels) - {from}
    {
      hide Closing, Without, CloseFrames, Sound;
      GoneFacts(View(), from);
      var dead := Doomed(from);
      up := CloseAll(dead);
      tunnels := tunnels - {from};
    }
  }
}
