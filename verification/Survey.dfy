/**
 Surveys and source-routed pushes over a tree of muxes: a survey's replies collect the conduit ids on
 their way up, and a push spends them on its way down.
 */
module Survey {
  import opened Bytes
  import opened Text
  import opened Apc
  import opened ApcLaws

  const SURVEY: seq<Byte> := [83, 85, 82, 86, 69, 89, 58] // "SURVEY:"
  const SURVEYR: seq<Byte> := [83, 85, 82, 86, 69, 89, 82] // "SURVEYR"
  const PUSH: seq<Byte> := [80, 85, 83, 72, 58] // "PUSH:"

  /** A node's address: the conduit ids from the top to it. */
  type Path = seq<nat>

  // ----- Text -----

  /** At most `n` fields; the last keeps any further separators. */
  function SplitN(s: seq<Byte>, sep: Byte, n: nat): (r: seq<seq<Byte>>)
    ensures r != []
    decreases n
  {
    var i := Find(s, sep);
    if n <= 1 || i == |s| then [s] else [s[..i]] + SplitN(s[i + 1..], sep, n - 1)
  }

  lemma SplitHead(head: seq<Byte>, sep: Byte, tail: seq<Byte>, n: nat)
    requires sep !in head && n > 1
    ensures SplitN(head + [sep] + tail, sep, n) == [head] + SplitN(tail, sep, n - 1)
  {
    FindAfter(head, sep, tail);
  }

  /** Three fields, the last of which may hold separators. */
  lemma SplitThree(a: seq<Byte>, b: seq<Byte>, c: seq<Byte>, sep: Byte)
    requires sep !in a && sep !in b
    ensures SplitN(a + [sep] + (b + [sep] + c), sep, 3) == [a, b, c]
  {
    hide SplitN;
    SplitHead(a, sep, b + [sep] + c, 3);
    SplitHead(b, sep, c, 2);
    SplitLast(c, sep);
  }

  lemma SplitLast(s: seq<Byte>, sep: Byte)
    ensures SplitN(s, sep, 1) == [s]
  {
  }

  lemma SplitFour(a: seq<Byte>, b: seq<Byte>, c: seq<Byte>, d: seq<Byte>, sep: Byte)
    requires sep !in a && sep !in b && sep !in c
    ensures SplitN(a + [sep] + (b + [sep] + (c + [sep] + d)), sep, 4) == [a, b, c, d]
  {
    hide SplitN;
    SplitHead(a, sep, b + [sep] + (c + [sep] + d), 4);
    SplitThree(b, c, d, sep);
  }

  /** `3,7`; empty for the top mux. */
  function RouteText(p: Path): seq<Byte> {
    if p == [] then [] else if |p| == 1 then Dec(p[0]) else Dec(p[0]) + [COMMA] + RouteText(p[1..])
  }

  lemma {:induction false} RouteTextBytes(p: Path)
    ensures forall b | b in RouteText(p) :: Digit(b) || b == COMMA
    ensures RouteText(p) == [] <==> p == []
  {
    if p != [] {
      DecBytes(p[0]);
      if |p| > 1 { RouteTextBytes(p[1..]); }
    }
  }

  lemma DecBytes(n: nat)
    ensures forall b | b in Dec(n) :: Digit(b)
  {
    assert Digits(Dec(n));
  }

  /** The wrapper's reading of a route: split at commas, empty fields skipped. */
  function ParsePath(s: seq<Byte>): Option<Path>
    decreases |s|
  {
    if s == [] then Some([])
    else
      var i := Find(s, COMMA);
      var rest := if i == |s| then Some([]) else ParsePath(s[i + 1..]);
      if rest == None then None
      else if i == 0 then rest
      else match ParseDec(s[..i])
        case None => None
        case Some(n) => Some([n] + rest.value)
  }

  /** Reading the field before the first comma. */
  lemma FirstField(n: nat, tail: seq<Byte>)
    ensures ParsePath(Dec(n)) == Some([n])
    ensures ParsePath(Dec(n) + [COMMA] + tail)
            == match ParsePath(tail) case None => None case Some(p) => Some([n] + p)
  {
    var head := Dec(n);
    NumOfDec(n);
    DigitsLack(head, COMMA);
    FindNone(head, COMMA);
    FindAfter(head, COMMA, tail);
    assert head[..|head|] == head && [n] + [] == [n];
    hide Dec, Num, Find, Digits;
  }

  lemma {:induction false} PathRoundTrip(p: Path)
    ensures ParsePath(RouteText(p)) == Some(p)
  {
    hide ParsePath, Dec;
    if p == [] {
      assert ParsePath([]) == Some([]) by { EmptyPath(); }
    } else {
      PathRoundTrip(p[1..]);
      FirstField(p[0], RouteText(p[1..]));
      assert p == [p[0]] + p[1..] && (|p| == 1 ==> p == [p[0]]);
    }
  }

  lemma EmptyPath()
    ensures ParsePath([]) == Some([])
  {
  }

  lemma NoColon(p: Path)
    ensures COLON !in RouteText(p)
  {
    RouteTextBytes(p);
  }

  // ----- Survey replies -----

  function SurveyReply(sid: seq<Byte>, route: seq<Byte>, identity: seq<Byte>): seq<Byte> {
    SURVEYR + [COLON] + (sid + [COLON] + (route + [COLON] + identity))
  }

  lemma NoColonIn()
    ensures COLON !in SURVEYR
  {
    assert forall i | 0 <= i < |SURVEYR| :: SURVEYR[i] != COLON;
  }

  lemma ReplyFields(sid: seq<Byte>, route: seq<Byte>, identity: seq<Byte>)
    requires COLON !in sid && COLON !in route
    ensures StartsWith(SurveyReply(sid, route, identity), SURVEYR + [COLON])
    ensures SplitN(SurveyReply(sid, route, identity), COLON, 4) == [SURVEYR, sid, route, identity]
  {
    NoColonIn();
    SplitFour(SURVEYR, sid, route, identity, COLON);
    PrefixOf(SURVEYR + [COLON], sid + [COLON] + (route + [COLON] + identity));
  }

  lemma PrefixOf(p: seq<Byte>, rest: seq<Byte>)
    ensures StartsWith(p + rest, p) && (p + rest)[|p|..] == rest
  {
  }

  /** What a mux makes of a line from conduit `cid`; `None` when it is not a survey reply. */
  function Prepend(cid: nat, line: seq<Byte>): Option<seq<Byte>> {
    var parts := SplitN(line, COLON, 4);
    if !StartsWith(line, SURVEYR + [COLON]) || |parts| != 4 then None
    else
      var route := if parts[2] == [] then Dec(cid) else Dec(cid) + [COMMA] + parts[2];
      Some(SurveyReply(parts[1], route, parts[3]))
  }

  lemma PrependPath(cid: nat, sid: seq<Byte>, p: Path, identity: seq<Byte>)
    requires COLON !in sid
    ensures Prepend(cid, SurveyReply(sid, RouteText(p), identity))
            == Some(SurveyReply(sid, RouteText([cid] + p), identity))
  {
    NoColon(p);
    RouteTextBytes(p);
    ReplyFields(sid, RouteText(p), identity);
    assert ([cid] + p)[1..] == p;
  }

  datatype Report = Report(path: Path, identity: seq<Byte>)

  /** The wrapper's reading of a reply line. */
  function ParseReply(line: seq<Byte>): Option<Report> {
    var parts := SplitN(line, COLON, 4);
    if !StartsWith(line, SURVEYR + [COLON]) || |parts| != 4 || ParseDec(parts[1]) == None then None
    else match ParsePath(parts[2])
      case None => None
      case Some(p) => Some(Report(p, parts[3]))
  }

  lemma ReplyRead(sid: nat, p: Path, identity: seq<Byte>)
    ensures ParseReply(SurveyReply(Dec(sid), RouteText(p), identity)) == Some(Report(p, identity))
  {
    DigitsLack(Dec(sid), COLON);
    NoColon(p);
    ReplyFields(Dec(sid), RouteText(p), identity);
    PathRoundTrip(p);
  }

  function BuildSurvey(sid: seq<Byte>): seq<Byte> { SURVEY + sid }

  // ----- Pushes -----

  function BuildPush(pid: seq<Byte>, route: seq<Byte>, cmd: seq<Byte>): seq<Byte> {
    PUSH + (pid + [COLON] + (route + [COLON] + cmd))
  }

  /** What a mux does with a push: act on it, or pass a shorter route on to one of its conduits. */
  datatype Hop = Ignore | Act(pid: seq<Byte>, cmd: seq<Byte>) | Forward(cid: nat, payload: seq<Byte>)

  /** The number an id spells; anything but digits counts as 0, which no conduit has. */
  function Id(s: seq<Byte>): nat { if ParseDec(s).Some? then ParseDec(s).value else 0 }

  function OnPush(payload: seq<Byte>): Hop {
    if !StartsWith(payload, PUSH) then Ignore
    else
      var parts := SplitN(payload[|PUSH|..], COLON, 3);
      if |parts| != 3 then Ignore
      else if parts[1] == [] then Act(parts[0], parts[2])
      else
        var rp := SplitN(parts[1], COMMA, 2);
        Forward(Id(rp[0]), BuildPush(parts[0], if |rp| > 1 then rp[1] else [], parts[2]))
  }

  /** The head of a route, and the rest of it. */
  lemma RouteHead(p: Path)
    requires p != []
    ensures var rp := SplitN(RouteText(p), COMMA, 2);
            Id(rp[0]) == p[0] && (if |rp| > 1 then rp[1] else []) == RouteText(p[1..])
  {
    var head := Dec(p[0]);
    NumOfDec(p[0]);
    DigitsLack(head, COMMA);
    if |p| == 1 {
      FindNone(head, COMMA);
      assert p[1..] == [];
    } else {
      hide SplitN;
      SplitHead(head, COMMA, RouteText(p[1..]), 2);
      SplitLast(RouteText(p[1..]), COMMA);
    }
  }

  lemma PushStep(pid: seq<Byte>, p: Path, cmd: seq<Byte>)
    requires COLON !in pid
    ensures OnPush(BuildPush(pid, RouteText(p), cmd))
            == if p == [] then Act(pid, cmd) else Forward(p[0], BuildPush(pid, RouteText(p[1..]), cmd))
  {
    hide SplitN, RouteText, Id;
    PrefixOf(PUSH, pid + [COLON] + (RouteText(p) + [COLON] + cmd));
    NoColon(p);
    RouteTextBytes(p);
    SplitThree(pid, RouteText(p), cmd, COLON);
    if p != [] { RouteHead(p); }
  }

  const PUSHR: seq<Byte> := [80, 85, 83, 72, 82, 58] // "PUSHR:"

  /** What the mux that acted on a push sends up; every mux on the way passes it on as it is. */
  function PushReply(pid: seq<Byte>, resp: seq<Byte>): seq<Byte> { PUSHR + (pid + [COLON] + resp) }

  datatype PushAnswer = PushAnswer(pid: nat, resp: seq<Byte>)

  /** The wrapper's reading of a push reply; one without a second colon raises an error in the source. */
  function ParsePushReply(line: seq<Byte>): Option<PushAnswer> {
    if !StartsWith(line, PUSHR) then None
    else
      var parts := SplitN(line[|PUSHR|..], COLON, 2);
      if |parts| != 2 then None
      else match ParseDec(parts[0])
        case None => None
        case Some(pid) => Some(PushAnswer(pid, parts[1]))
  }

  /** The wrapper reads back which push was answered, and the answer whole. */
  lemma PushReplyRead(pid: nat, resp: seq<Byte>)
    ensures ParsePushReply(PushReply(Dec(pid), resp)) == Some(PushAnswer(pid, resp))
  {
    PrefixOf(PUSHR, Dec(pid) + [COLON] + resp);
    DigitsLack(Dec(pid), COLON);
    NumOfDec(pid);
    hide SplitN, Num, Dec;
    SplitHead(Dec(pid), COLON, resp, 2);
    SplitLast(resp, COLON);
  }

  // ----- One mux's connections -----

  /** A connection; a conduit has an id of this mux's, any other connection the id 0. */
  datatype Client = Client(fd: nat, conduit: bool, cid: nat)

  predicate Wanted(want: Option<nat>, cid: nat) { want.None? || want == Some(cid) }

  /** Which conduits a frame is passed on to: all of them, or the one with the wanted id. */
  function Fan(clients: seq<Client>, want: Option<nat>, frame: seq<Byte>): seq<(nat, seq<Byte>)> {
    if clients == [] then []
    else
      var c := clients[|clients| - 1];
      Fan(clients[..|clients| - 1], want, frame)
      + if c.conduit && Wanted(want, c.cid) then [(c.fd, frame)] else []
  }

  ghost predicate DistinctIds(clients: seq<Client>, next: nat) {
    && (forall i | 0 <= i < |clients| :: if clients[i].conduit then 1 <= clients[i].cid < next else clients[i].cid == 0)
    && (forall i, j | 0 <= i < j < |clients| && clients[i].conduit :: clients[i].cid != clients[j].cid)
  }

  /** A wanted id reaches one conduit if any has it, and none otherwise. */
  lemma {:induction false} FanOne(clients: seq<Client>, next: nat, cid: nat, frame: seq<Byte>)
    requires DistinctIds(clients, next)
    ensures var out := Fan(clients, Some(cid), frame);
            && |out| <= 1
            && (out == [] <==> forall i | 0 <= i < |clients| :: !(clients[i].conduit && clients[i].cid == cid))
            && forall i | 0 <= i < |clients| && clients[i].conduit && clients[i].cid == cid ::
               out == [(clients[i].fd, frame)]
  {
    if clients != [] {
      var init := clients[..|clients| - 1];
      assert forall i | 0 <= i < |init| :: init[i] == clients[i];
      FanOne(init, next, cid, frame);
    }
  }

  /** The wanted conduits among the connections. */
  ghost predicate Reached(clients: seq<Client>, want: Option<nat>, fd: nat) {
    exists i :: 0 <= i < |clients| && clients[i].conduit && Wanted(want, clients[i].cid) && clients[i].fd == fd
  }

  /** A frame goes to every wanted conduit, once each, and to no other connection. */
  lemma {:induction false} FanReaches(clients: seq<Client>, want: Option<nat>, frame: seq<Byte>)
    ensures var out := Fan(clients, want, frame);
            && (forall fd: nat :: (fd, frame) in out <==> Reached(clients, want, fd))
            && (forall x | x in out :: x.1 == frame)
            && ((forall i, j | 0 <= i < j < |clients| :: clients[i].fd != clients[j].fd) ==>
                 forall i, j | 0 <= i < j < |out| :: out[i] != out[j])
  {
    if clients != [] {
      var init, c := clients[..|clients| - 1], clients[|clients| - 1];
      FanReaches(init, want, frame);
      hide Fan, Wanted;
    }
  }

  /** What goes up, what is passed on to which conduit, and the command carried out here. */
  datatype Handled = Handled(up: Option<seq<Byte>>, down: seq<(nat, seq<Byte>)>, ran: Option<seq<Byte>>)

  /** `act` is what this host answers to a command. */
  function HandleDown(identity: seq<Byte>, act: seq<Byte> -> seq<Byte>, clients: seq<Client>,
                      payload: seq<Byte>): Handled
  {
    if StartsWith(payload, SURVEY) then
      Handled(Some(SurveyReply(payload[|SURVEY|..], [], identity)), Fan(clients, None, payload), None)
    else match OnPush(payload)
      case Ignore => Handled(None, [], None)
      case Act(pid, cmd) => Handled(Some(PushReply(pid, act(cmd))), [], Some(cmd))
      case Forward(cid, rest) => Handled(None, Fan(clients, Some(cid), rest), None)
  }

  /** A line from connection `c` that is a survey's or a push's reply; `None` if it is another. */
  function HandleUp(c: Client, line: seq<Byte>): Option<seq<Byte>> {
    if StartsWith(line, SURVEYR + [COLON]) then Prepend(c.cid, line)
    else if StartsWith(line, PUSHR) then Some(line) else None
  }

  /** Of the lines that come up only replies pass this way, a push reply as it is, a survey reply as one. */
  lemma OnlyRepliesPass(c: Client, line: seq<Byte>)
    requires HandleUp(c, line).Some?
    ensures var up, survey := HandleUp(c, line).value, SURVEYR + [COLON];
            (StartsWith(line, survey) && StartsWith(up, survey)) || (StartsWith(line, PUSHR) && up == line)
  {
    hide SplitN;
    if StartsWith(line, SURVEYR + [COLON]) {
      var parts := SplitN(line, COLON, 4);
      var route := if parts[2] == [] then Dec(c.cid) else Dec(c.cid) + [COMMA] + parts[2];
      PrefixOf(SURVEYR + [COLON], parts[1] + [COLON] + (route + [COLON] + parts[3]));
    }
  }

  /** From any client, one that is no conduit included, a survey reply goes up with the client's id on its path. */
  lemma ReplyPasses(c: Client, sid: seq<Byte>, p: Path, identity: seq<Byte>)
    requires COLON !in sid
    ensures HandleUp(c, SurveyReply(sid, RouteText(p), identity))
            == Some(SurveyReply(sid, RouteText([c.cid] + p), identity))
  {
    PrependPath(c.cid, sid, p, identity);
    PrefixOf(SURVEYR + [COLON], sid + [COLON] + (RouteText(p) + [COLON] + identity));
    hide Prepend, RouteText;
  }

  // ----- The tree -----

  datatype Tree = Mux(identity: seq<Byte>, hops: Hops)

  datatype Hops = NoMore | More(cid: nat, sub: Tree, rest: Hops)

  function Cids(h: Hops): set<nat> {
    match h
    case NoMore => {}
    case More(cid, _, rest) => {cid} + Cids(rest)
  }

  /** No mux has two conduits with the same id. */
  predicate Unique(t: Tree) { UniqueHops(t.hops) }

  predicate UniqueHops(h: Hops) {
    match h
    case NoMore => true
    case More(cid, sub, rest) => cid !in Cids(rest) && Unique(sub) && UniqueHops(rest)
  }

  /** The mux at a path. */
  function At(t: Tree, p: Path): Option<Tree>
    decreases t
  {
    if p == [] then Some(t) else AtHops(t.hops, p)
  }

  function AtHops(h: Hops, p: Path): Option<Tree>
    requires p != []
    decreases h
  {
    match h
    case NoMore => None
    case More(cid, sub, rest) => if cid == p[0] then At(sub, p[1..]) else AtHops(rest, p)
  }

  // ----- A frame that enters the tree -----

  datatype Acted = Acted(path: Path, cmd: seq<Byte>)

  /** The lines that leave a mux upward, and the commands carried out by it and below it. */
  datatype Effect = Effect(up: seq<seq<Byte>>, acted: seq<Acted>)

  function Both(e: Effect, f: Effect): Effect { Effect(e.up + f.up, e.acted + f.acted) }

  /** The connections of a mux whose first conduit is `fd`. */
  function Conduits(h: Hops, fd: nat): seq<Client> {
    match h
    case NoMore => []
    case More(cid, _, rest) => [Client(fd, true, cid)] + Conduits(rest, fd + 1)
  }

  /** The frames passed on to one connection. */
  function Into(down: seq<(nat, seq<Byte>)>, fd: nat): seq<seq<Byte>> {
    if down == [] then []
    else
      var last := down[|down| - 1];
      Into(down[..|down| - 1], fd) + if last.0 == fd then [last.1] else []
  }

  /** What a mux sends up of the lines of one connection. */
  function Relayed(c: Client, lines: seq<seq<Byte>>): seq<seq<Byte>> {
    if lines == [] then []
    else (match HandleUp(c, lines[0]) case None => [] case Some(l) => [l]) + Relayed(c, lines[1..])
  }

  /** What each host answers to a command. */
  type Answers = (seq<Byte>, seq<Byte>) -> seq<Byte>

  /** `payload` comes to the mux at `here`, which handles it; and so do those it is passed on to. */
  function Enter(t: Tree, here: Path, acts: Answers, payload: seq<Byte>): Effect
    decreases t, 0, 0
  {
    var h := HandleDown(t.identity, cmd => acts(t.identity, cmd), Conduits(t.hops, 0), payload);
    var own := Effect(if h.up.Some? then [h.up.value] else [], if h.ran.Some? then [Acted(here, h.ran.value)] else []);
    Both(own, EnterBelow(t.hops, 0, here, acts, h.down))
  }

  function EnterBelow(h: Hops, fd: nat, here: Path, acts: Answers, down: seq<(nat, seq<Byte>)>): Effect
    decreases h, 0, 0
  {
    match h
    case NoMore => Effect([], [])
    case More(cid, sub, rest) =>
      var e := EnterAll(sub, here + [cid], acts, Into(down, fd));
      Both(Effect(Relayed(Client(fd, true, cid), e.up), e.acted), EnterBelow(rest, fd + 1, here, acts, down))
  }

  function EnterAll(t: Tree, here: Path, acts: Answers, frames: seq<seq<Byte>>): Effect
    decreases t, 1, |frames|
  {
    if frames == [] then Effect([], [])
    else Both(Enter(t, here, acts, frames[0]), EnterAll(t, here, acts, frames[1..]))
  }

  /** All replies to one survey that reach the wrapper. */
  function Replies(t: Tree, acts: Answers, sid: seq<Byte>): seq<seq<Byte>> {
    Enter(t, [], acts, BuildSurvey(sid)).up
  }

  // ----- What is passed on, and to whom -----

  lemma {:induction false} FanParts(a: seq<Client>, b: seq<Client>, want: Option<nat>, frame: seq<Byte>)
    ensures Fan(a + b, want, frame) == Fan(a, want, frame) + Fan(b, want, frame)
    decreases |b|
  {
    if b == [] {
      assert a + b == a;
    } else {
      FanParts(a, b[..|b| - 1], want, frame);
      assert (a + b)[..|a + b| - 1] == a + b[..|b| - 1];
    }
  }

  lemma {:induction false} IntoParts(a: seq<(nat, seq<Byte>)>, b: seq<(nat, seq<Byte>)>, fd: nat)
    ensures Into(a + b, fd) == Into(a, fd) + Into(b, fd)
    decreases |b|
  {
    if b == [] {
      assert a + b == a;
    } else {
      IntoParts(a, b[..|b| - 1], fd);
      assert (a + b)[..|a + b| - 1] == a + b[..|b| - 1];
    }
  }

  lemma {:induction false} IntoNone(down: seq<(nat, seq<Byte>)>, fd: nat)
    requires forall x | x in down :: x.0 != fd
    ensures Into(down, fd) == []
  {
    if down != [] { IntoNone(down[..|down| - 1], fd); }
  }

  /** What the first conduit is given. */
  function FanFirst(fd: nat, cid: nat, want: Option<nat>, frame: seq<Byte>): (r: seq<(nat, seq<Byte>)>)
    ensures r == Fan([Client(fd, true, cid)], want, frame)
    ensures forall x | x in r :: x.0 == fd
    ensures Into(r, fd) == if Wanted(want, cid) then [frame] else []
  {
    var c := Client(fd, true, cid);
    assert [c][..0] == [];
    if Wanted(want, cid) then [(fd, frame)] else []
  }

  lemma {:induction false} FanAbove(h: Hops, fd: nat, want: Option<nat>, frame: seq<Byte>)
    ensures forall x | x in Fan(Conduits(h, fd), want, frame) :: x.0 >= fd
    decreases h
  {
    match h
    case NoMore =>
    case More(cid, _, rest) =>
      var first := FanFirst(fd, cid, want, frame);
      FanAbove(rest, fd + 1, want, frame);
      FanParts([Client(fd, true, cid)], Conduits(rest, fd + 1), want, frame);
  }

  /** Each wanted conduit has the frame, once, and no other conduit has anything. */
  ghost predicate Routed(h: Hops, fd: nat, down: seq<(nat, seq<Byte>)>, want: Option<nat>, frame: seq<Byte>) {
    match h
    case NoMore => true
    case More(cid, _, rest) =>
      && Into(down, fd) == (if Wanted(want, cid) then [frame] else [])
      && Routed(rest, fd + 1, down, want, frame)
  }

  lemma IntoMiddle(before: seq<(nat, seq<Byte>)>, first: seq<(nat, seq<Byte>)>, others: seq<(nat, seq<Byte>)>, fd: nat)
    requires (forall x | x in before :: x.0 < fd) && (forall x | x in others :: x.0 > fd)
    ensures Into(before + first + others, fd) == Into(first, fd)
  {
    IntoNone(before, fd);
    IntoNone(others, fd);
    IntoParts(before + first, others, fd);
    IntoParts(before, first, fd);
  }

  lemma JoinThree<T>(a: seq<T>, b: seq<T>, c: seq<T>)
    ensures a + (b + c) == a + b + c
  {
  }

  /** The first conduit's share, and the others'. */
  lemma FanSplit(h: Hops, fd: nat, before: seq<(nat, seq<Byte>)>, want: Option<nat>, frame: seq<Byte>)
    returns (first: seq<(nat, seq<Byte>)>, others: seq<(nat, seq<Byte>)>)
    requires h.More?
    ensures (forall x | x in first :: x.0 == fd) && (forall x | x in others :: x.0 > fd)
    ensures Into(first, fd) == if Wanted(want, h.cid) then [frame] else []
    ensures others == Fan(Conduits(h.rest, fd + 1), want, frame)
    ensures before + Fan(Conduits(h, fd), want, frame) == before + first + others
  {
    hide Fan, Into, FanFirst;
    first := FanFirst(fd, h.cid, want, frame);
    others := Fan(Conduits(h.rest, fd + 1), want, frame);
    FanParts([Client(fd, true, h.cid)], Conduits(h.rest, fd + 1), want, frame);
    FanAbove(h.rest, fd + 1, want, frame);
    JoinThree(before, first, others);
  }

  lemma {:induction false} FanRouted(h: Hops, fd: nat, before: seq<(nat, seq<Byte>)>, want: Option<nat>,
                                     frame: seq<Byte>)
    requires forall x | x in before :: x.0 < fd
    ensures Routed(h, fd, before + Fan(Conduits(h, fd), want, frame), want, frame)
    decreases h
  {
    hide Fan, Into, Conduits;
    if h.More? {
      var first, others := FanSplit(h, fd, before, want, frame);
      IntoMiddle(before, first, others, fd);
      assert forall x | x in before + first :: x.0 < fd + 1;
      FanRouted(h.rest, fd + 1, before + first, want, frame);
    }
  }

  /** What a mux with these conduits passes on reaches those wanted. */
  lemma PassedOn(h: Hops, want: Option<nat>, frame: seq<Byte>)
    ensures Routed(h, 0, Fan(Conduits(h, 0), want, frame), want, frame)
  {
    FanRouted(h, 0, [], want, frame);
    assert [] + Fan(Conduits(h, 0), want, frame) == Fan(Conduits(h, 0), want, frame);
  }

  // ----- A survey reports every node, once, at its path -----

  /** The nodes of a tree by path. */
  function Nodes(t: Tree): seq<Report>
    decreases t
  {
    [Report([], t.identity)] + NodesBelow(t.hops)
  }

  function NodesBelow(h: Hops): seq<Report>
    decreases h
  {
    match h
    case NoMore => []
    case More(cid, sub, rest) => Below(cid, Nodes(sub)) + NodesBelow(rest)
  }

  function Below(cid: nat, rs: seq<Report>): seq<Report> {
    if rs == [] then [] else [Report([cid] + rs[0].path, rs[0].identity)] + Below(cid, rs[1..])
  }

  function Lines(sid: seq<Byte>, rs: seq<Report>): seq<seq<Byte>> {
    if rs == [] then [] else [SurveyReply(sid, RouteText(rs[0].path), rs[0].identity)] + Lines(sid, rs[1..])
  }

  lemma {:induction false} LinesAppend(sid: seq<Byte>, a: seq<Report>, b: seq<Report>)
    ensures Lines(sid, a + b) == Lines(sid, a) + Lines(sid, b)
  {
    if a == [] {
      assert a + b == b;
    } else {
      LinesAppend(sid, a[1..], b);
      assert (a + b)[1..] == a[1..] + b;
    }
  }

  lemma {:induction false} RelayReplies(c: Client, sid: seq<Byte>, rs: seq<Report>)
    requires COLON !in sid
    ensures Relayed(c, Lines(sid, rs)) == Lines(sid, Below(c.cid, rs))
  {
    if rs != [] {
      NoColon(rs[0].path);
      ReplyFields(sid, RouteText(rs[0].path), rs[0].identity);
      PrependPath(c.cid, sid, rs[0].path, rs[0].identity);
      RelayReplies(c, sid, rs[1..]);
      hide Prepend, SurveyReply;
      assert Lines(sid, rs)[1..] == Lines(sid, rs[1..]);
      assert Below(c.cid, rs)[1..] == Below(c.cid, rs[1..]);
    }
  }

  lemma EnterOne(t: Tree, here: Path, acts: Answers, frame: seq<Byte>)
    ensures EnterAll(t, here, acts, [frame]) == Enter(t, here, acts, frame)
    ensures EnterAll(t, here, acts, []) == Effect([], [])
  {
    assert [frame][1..] == [];
    var e := Enter(t, here, acts, frame);
    assert e.up + [] == e.up && e.acted + [] == e.acted;
  }

  /** One survey: the mux answers for itself and passes it on to all. */
  lemma SurveyHop(t: Tree, here: Path, acts: Answers, sid: seq<Byte>)
    ensures var down := Fan(Conduits(t.hops, 0), None, BuildSurvey(sid));
            Enter(t, here, acts, BuildSurvey(sid))
            == Both(Effect([SurveyReply(sid, [], t.identity)], []), EnterBelow(t.hops, 0, here, acts, down))
  {
    PrefixOf(SURVEY, sid);
    hide SurveyReply, Fan, OnPush;
  }

  /** The replies that reach the wrapper are the tree's nodes, each with its own path. */
  lemma {:induction false} SurveyReports(t: Tree, here: Path, acts: Answers, sid: seq<Byte>)
    requires COLON !in sid
    ensures Enter(t, here, acts, BuildSurvey(sid)) == Effect(Lines(sid, Nodes(t)), [])
    decreases t
  {
    SurveyHop(t, here, acts, sid);
    PassedOn(t.hops, None, BuildSurvey(sid));
    var down := Fan(Conduits(t.hops, 0), None, BuildSurvey(sid));
    SurveyReportsBelow(t.hops, 0, here, acts, down, sid);
    var own := [Report([], t.identity)];
    LinesAppend(sid, own, NodesBelow(t.hops));
    assert own[1..] == [];
    assert Lines(sid, own) == [SurveyReply(sid, [], t.identity)];
    hide Enter, EnterBelow, SurveyReply, Fan;
    assert Both(Effect(Lines(sid, own), []), Effect(Lines(sid, NodesBelow(t.hops)), []))
           == Effect(Lines(sid, Nodes(t)), []);
  }

  lemma {:induction false} SurveyReportsBelow(h: Hops, fd: nat, here: Path, acts: Answers,
                                              down: seq<(nat, seq<Byte>)>, sid: seq<Byte>)
    requires COLON !in sid && Routed(h, fd, down, None, BuildSurvey(sid))
    ensures EnterBelow(h, fd, here, acts, down) == Effect(Lines(sid, NodesBelow(h)), [])
    decreases h
  {
    hide Enter, EnterAll, BuildSurvey, Into;
    match h
    case NoMore =>
    case More(cid, sub, rest) =>
      EnterOne(sub, here + [cid], acts, BuildSurvey(sid));
      SurveyReports(sub, here + [cid], acts, sid);
      SurveyReportsBelow(rest, fd + 1, here, acts, down, sid);
      RelayReplies(Client(fd, true, cid), sid, Nodes(sub));
      LinesAppend(sid, Below(cid, Nodes(sub)), NodesBelow(rest));
  }

  ghost predicate DistinctPaths(rs: seq<Report>) {
    forall i, j | 0 <= i < j < |rs| :: rs[i].path != rs[j].path
  }

  lemma {:induction false} BelowAt(cid: nat, rs: seq<Report>)
    ensures |Below(cid, rs)| == |rs|
    ensures forall i | 0 <= i < |rs| :: Below(cid, rs)[i] == Report([cid] + rs[i].path, rs[i].identity)
  {
    if rs != [] { BelowAt(cid, rs[1..]); }
  }

  lemma {:induction false} PathsBelow(h: Hops)
    ensures forall r | r in NodesBelow(h) :: r.path != [] && r.path[0] in Cids(h)
    decreases h
  {
    match h
    case NoMore =>
    case More(cid, sub, rest) =>
      PathsBelow(rest);
      BelowAt(cid, Nodes(sub));
  }

  lemma OneMore(r: Report, rs: seq<Report>)
    requires DistinctPaths(rs) && forall x | x in rs :: x.path != r.path
    ensures DistinctPaths([r] + rs)
  {
    var all := [r] + rs;
    forall i, j | 0 <= i < j < |all|
      ensures all[i].path != all[j].path
    {
      assert all[j] == rs[j - 1] && rs[j - 1] in rs;
    }
  }

  lemma {:induction false} NodesDistinct(t: Tree)
    requires Unique(t)
    ensures DistinctPaths(Nodes(t))
    decreases t
  {
    NodesDistinctBelow(t.hops);
    PathsBelow(t.hops);
    hide Nodes, NodesBelow;
    OneMore(Report([], t.identity), NodesBelow(t.hops));
  }

  lemma {:induction false} NodesDistinctBelow(h: Hops)
    requires UniqueHops(h)
    ensures DistinctPaths(NodesBelow(h))
    decreases h
  {
    match h
    case NoMore =>
    case More(cid, sub, rest) =>
      NodesDistinct(sub);
      NodesDistinctBelow(rest);
      PathsBelow(rest);
      BelowAt(cid, Nodes(sub));
      Side(cid, Nodes(sub), NodesBelow(rest));
  }

  lemma Side(cid: nat, a: seq<Report>, b: seq<Report>)
    requires DistinctPaths(a) && DistinctPaths(b)
    requires forall r | r in b :: r.path != [] && r.path[0] != cid
    ensures DistinctPaths(Below(cid, a) + b)
  {
    BelowAt(cid, a);
    var all := Below(cid, a) + b;
    forall i, j | 0 <= i < j < |all|
      ensures all[i].path != all[j].path
    {
      if j < |a| {
        assert all[i].path[1..] == a[i].path && all[j].path[1..] == a[j].path;
      } else {
        assert all[j] == b[j - |a|] && b[j - |a|] in b;
        if i < |a| { assert all[i].path[0] == cid; }
      }
    }
  }

  /** A report in the list is the mux at that path, and every mux is in the list. */
  lemma {:induction false} NodesAt(t: Tree, p: Path)
    requires Unique(t)
    ensures At(t, p).Some? ==> Report(p, At(t, p).value.identity) in Nodes(t)
    ensures forall r | r in Nodes(t) && r.path == p :: At(t, p).Some? && At(t, p).value.identity == r.identity
    decreases t
  {
    PathsBelow(t.hops);
    if p != [] { NodesAtHops(t.hops, p); }
  }

  lemma {:induction false} NodesAtHops(h: Hops, p: Path)
    requires UniqueHops(h) && p != []
    ensures AtHops(h, p).Some? ==> Report(p, AtHops(h, p).value.identity) in NodesBelow(h)
    ensures forall r | r in NodesBelow(h) && r.path == p ::
            AtHops(h, p).Some? && AtHops(h, p).value.identity == r.identity
    decreases h
  {
    match h
    case NoMore =>
    case More(cid, sub, rest) =>
      NodesAt(sub, p[1..]);
      NodesAtHops(rest, p);
      PathsBelow(rest);
      BelowMember(cid, Nodes(sub), p);
  }

  lemma BelowMember(cid: nat, rs: seq<Report>, p: Path)
    requires p != []
    ensures forall identity :: Report(p, identity) in Below(cid, rs) <==> p[0] == cid && Report(p[1..], identity) in rs
  {
    BelowAt(cid, rs);
    var below := Below(cid, rs);
    forall identity
      ensures Report(p, identity) in below <==> p[0] == cid && Report(p[1..], identity) in rs
    {
      if Report(p, identity) in below {
        var i :| 0 <= i < |below| && below[i] == Report(p, identity);
        assert rs[i].path == p[1..];
      }
      if p[0] == cid && Report(p[1..], identity) in rs {
        var i :| 0 <= i < |rs| && rs[i] == Report(p[1..], identity);
        assert [cid] + p[1..] == p;
        assert below[i] == Report(p, identity);
      }
    }
  }

  // ----- A push acts at exactly the node it names -----

  /** What a push along `p` comes to: the mux there, if any, carries the command out, and its answer comes up. */
  function Done(at: Option<Tree>, p: Path, acts: Answers, pid: seq<Byte>, cmd: seq<Byte>): Effect {
    match at
    case None => Effect([], [])
    case Some(m) => Effect([PushReply(pid, acts(m.identity, cmd))], [Acted(p, cmd)])
  }

  lemma PushNotSurvey(pid: seq<Byte>, route: seq<Byte>, cmd: seq<Byte>)
    ensures !StartsWith(BuildPush(pid, route, cmd), SURVEY)
  {
    assert BuildPush(pid, route, cmd)[0] == PUSH[0] && SURVEY[0] != PUSH[0];
  }

  lemma PushHere(t: Tree, here: Path, acts: Answers, pid: seq<Byte>, cmd: seq<Byte>)
    requires COLON !in pid
    ensures Enter(t, here, acts, BuildPush(pid, [], cmd))
            == Both(Done(Some(t), here, acts, pid, cmd), EnterBelow(t.hops, 0, here, acts, []))
  {
    PushStep(pid, [], cmd);
    PushNotSurvey(pid, [], cmd);
    hide OnPush, BuildPush, PushReply, EnterBelow, StartsWith;
  }

  lemma PushOn(t: Tree, here: Path, acts: Answers, pid: seq<Byte>, p: Path, cmd: seq<Byte>)
    requires COLON !in pid && p != []
    ensures var down := Fan(Conduits(t.hops, 0), Some(p[0]), BuildPush(pid, RouteText(p[1..]), cmd));
            Enter(t, here, acts, BuildPush(pid, RouteText(p), cmd)) == EnterBelow(t.hops, 0, here, acts, down)
  {
    PushStep(pid, p, cmd);
    PushNotSurvey(pid, RouteText(p), cmd);
    hide OnPush, BuildPush, PushReply, EnterBelow, RouteText, Fan, StartsWith;
    var down := Fan(Conduits(t.hops, 0), Some(p[0]), BuildPush(pid, RouteText(p[1..]), cmd));
    var e := EnterBelow(t.hops, 0, here, acts, down);
    assert [] + e.up == e.up && [] + e.acted == e.acted;
  }

  /** Nothing is passed on, and nothing happens below. */
  lemma {:induction false} NothingBelow(h: Hops, fd: nat, here: Path, acts: Answers)
    ensures EnterBelow(h, fd, here, acts, []) == Effect([], [])
  {
    match h
    case NoMore =>
    case More(cid, sub, rest) =>
      EnterOne(sub, here + [cid], acts, []);
      NothingBelow(rest, fd + 1, here, acts);
  }

  lemma RelayAnswer(c: Client, pid: seq<Byte>, resp: seq<Byte>)
    ensures Relayed(c, [PushReply(pid, resp)]) == [PushReply(pid, resp)] && Relayed(c, []) == []
  {
    PrefixOf(PUSHR, pid + [COLON] + resp);
    var l := PushReply(pid, resp);
    assert l[0] == PUSHR[0] && (SURVEYR + [COLON])[0] != PUSHR[0];
    var none: seq<seq<Byte>> := [];
    assert [l][1..] == none;
    hide Prepend;
  }

  /**
   A push along a path: if a mux is there, it alone carries out the command, once, and its answer comes up
   unchanged; otherwise nothing happens.
   */
  lemma {:induction false} PushActs(t: Tree, here: Path, acts: Answers, pid: seq<Byte>, p: Path, cmd: seq<Byte>)
    requires Unique(t) && COLON !in pid
    ensures Enter(t, here, acts, BuildPush(pid, RouteText(p), cmd)) == Done(At(t, p), here + p, acts, pid, cmd)
    decreases t
  {
    hide Enter, EnterBelow, BuildPush, Fan;
    if p == [] {
      PushHere(t, here, acts, pid, cmd);
      NothingBelow(t.hops, 0, here, acts);
      assert here + [] == here;
      var e := Done(Some(t), here, acts, pid, cmd);
      assert Both(e, Effect([], [])) == e;
    } else {
      PushOn(t, here, acts, pid, p, cmd);
      var rest := BuildPush(pid, RouteText(p[1..]), cmd);
      PassedOn(t.hops, Some(p[0]), rest);
      PushActsBelow(t.hops, 0, here, acts, Fan(Conduits(t.hops, 0), Some(p[0]), rest), pid, p, cmd);
    }
  }

  lemma {:induction false} AtElsewhere(h: Hops, p: Path)
    requires p != [] && p[0] !in Cids(h)
    ensures AtHops(h, p) == None
    decreases h
  {
    match h
    case NoMore =>
    case More(_, _, rest) => AtElsewhere(rest, p);
  }

  lemma {:induction false} PushActsBelow(h: Hops, fd: nat, here: Path, acts: Answers, down: seq<(nat, seq<Byte>)>,
                                         pid: seq<Byte>, p: Path, cmd: seq<Byte>)
    requires UniqueHops(h) && COLON !in pid && p != []
    requires Routed(h, fd, down, Some(p[0]), BuildPush(pid, RouteText(p[1..]), cmd))
    ensures EnterBelow(h, fd, here, acts, down) == Done(AtHops(h, p), here + p, acts, pid, cmd)
    decreases h
  {
    hide Enter, EnterAll, BuildPush, Into, PushReply;
    match h
    case NoMore =>
    case More(cid, sub, rest) =>
      var c, frame := Client(fd, true, cid), BuildPush(pid, RouteText(p[1..]), cmd);
      EnterOne(sub, here + [cid], acts, frame);
      PushActsBelow(rest, fd + 1, here, acts, down, pid, p, cmd);
      if cid == p[0] {
        PushActs(sub, here + [cid], acts, pid, p[1..], cmd);
        AtElsewhere(rest, p);
        assert here + [cid] + p[1..] == here + p;
        if At(sub, p[1..]).Some? { RelayAnswer(c, pid, acts(At(sub, p[1..]).value.identity, cmd)); }
      }
  }

  /**
   Survey and push are inverse. In any tree with unique conduit ids, the replies to a survey are read
   by the wrapper as distinct paths, one for each mux; and a push along the path of any reply is carried
   out once, by the mux that sent that reply, and answered with that host's answer.
   */
  lemma PushFindsReporter(t: Tree, acts: Answers, sid: nat, pid: nat, cmd: seq<Byte>, i: nat)
    requires Unique(t) && i < |Replies(t, acts, Dec(sid))|
    ensures var r := ParseReply(Replies(t, acts, Dec(sid))[i]);
            && r.Some? && At(t, r.value.path).Some? && At(t, r.value.path).value.identity == r.value.identity
            && var e := Enter(t, [], acts, BuildPush(Dec(pid), RouteText(r.value.path), cmd));
               && e.acted == [Acted(r.value.path, cmd)]
               && e.up == [PushReply(Dec(pid), acts(r.value.identity, cmd))]
    ensures forall j | 0 <= j < |Replies(t, acts, Dec(sid))| && j != i ::
              && ParseReply(Replies(t, acts, Dec(sid))[j]).Some?
              && ParseReply(Replies(t, acts, Dec(sid))[j]).value.path
                 != ParseReply(Replies(t, acts, Dec(sid))[i]).value.path
  {
    var rs := Nodes(t);
    DigitsLack(Dec(sid), COLON);
    DigitsLack(Dec(pid), COLON);
    SurveyReports(t, [], acts, Dec(sid));
    LinesRead(sid, rs);
    NodesDistinct(t);
    var r := rs[i];
    assert r in rs;
    NodesAt(t, r.path);
    PushActs(t, [], acts, Dec(pid), r.path, cmd);
    assert [] + r.path == r.path;
    hide ParseReply, Nodes, Enter, BuildPush, PushReply, Lines, At, Unique;
  }

  lemma {:induction false} LinesRead(sid: nat, rs: seq<Report>)
    ensures |Lines(Dec(sid), rs)| == |rs|
    ensures forall i | 0 <= i < |rs| :: ParseReply(Lines(Dec(sid), rs)[i]) == Some(rs[i])
  {
    if rs != [] {
      LinesRead(sid, rs[1..]);
      ReplyRead(sid, rs[0].path, rs[0].identity);
      hide ParseReply;
    }
  }

  // ----- The wrapper's address book -----

  function Recorded(lines: seq<seq<Byte>>): map<Path, seq<Byte>> {
    if lines == [] then map[]
    else
      var book := Recorded(lines[..|lines| - 1]);
      match ParseReply(lines[|lines| - 1])
      case None => book
      case Some(r) => book[r.path := r.identity]
  }

  class Topology {
    var nodes: map<Path, seq<Byte>>
    ghost var heard: seq<seq<Byte>>

    ghost predicate Valid()
      reads this
    {
      nodes == Recorded(heard)
    }

    constructor ()
      ensures Valid() && heard == []
    {
      nodes, heard := map[], [];
    }

    /** Record the node that reported; a later report from the same path replaces it. */
    method Record(line: seq<Byte>)
      requires Valid()
      modifies this
      ensures Valid() && heard == old(heard) + [line]
      ensures nodes == match ParseReply(line)
                       case None => old(nodes)
                       case Some(r) => old(nodes)[r.path := r.identity]
    {
      var r := ParseReply(line);
      if r.Some? { nodes := nodes[r.value.path := r.value.identity]; }
      assert (heard + [line])[..|heard|] == heard;
      heard := heard + [line];
    }
  }

  /** A path's entry is what the last line that reported the path said. */
  lemma {:induction false} LatestReport(lines: seq<seq<Byte>>, i: nat)
    requires i < |lines| && ParseReply(lines[i]).Some?
    requires var p := ParseReply(lines[i]).value.path;
             forall j | i < j < |lines| && ParseReply(lines[j]).Some? :: ParseReply(lines[j]).value.path != p
    ensures var r := ParseReply(lines[i]).value;
            r.path in Recorded(lines) && Recorded(lines)[r.path] == r.identity
  {
    hide ParseReply;
    if i < |lines| - 1 { LatestReport(lines[..|lines| - 1], i); }
  }

  lemma {:induction false} RecordedPaths(lines: seq<seq<Byte>>)
    ensures forall p :: p in Recorded(lines) <==>
                          exists l :: l in lines && ParseReply(l).Some? && ParseReply(l).value.path == p
    ensures forall p | p in Recorded(lines) ::
              exists l :: l in lines && ParseReply(l) == Some(Report(p, Recorded(lines)[p]))
  {
    if lines != [] {
      hide ParseReply;
      var init, last := lines[..|lines| - 1], lines[|lines| - 1];
      RecordedPaths(init);
      assert lines == init + [last];
      assert last in lines;
    }
  }

  /**
   Whatever order a survey's replies arrive in, and however often, the address book becomes the tree:
   its paths are exactly the paths of the tree's muxes, each with that mux's identity.
   */
  lemma AddressBook(t: Tree, acts: Answers, sid: nat, lines: seq<seq<Byte>>)
    requires Unique(t) && forall l :: l in lines <==> l in Replies(t, acts, Dec(sid))
    ensures forall p :: p in Recorded(lines) <==> At(t, p).Some?
    ensures forall p | p in Recorded(lines) :: Recorded(lines)[p] == At(t, p).value.identity
  {
    var all := Nodes(t);
    DigitsLack(Dec(sid), COLON);
    SurveyReports(t, [], acts, Dec(sid));
    LinesRead(sid, all);
    RecordedPaths(lines);
    assert Replies(t, acts, Dec(sid)) == Lines(Dec(sid), all);
    hide ParseReply, Replies, Nodes, Lines, Recorded, At;
    forall l | l in lines
      ensures exists r :: r in all && ParseReply(l) == Some(r)
    {
      var i :| 0 <= i < |all| && l == Lines(Dec(sid), all)[i];
      assert all[i] in all;
    }
    forall p
      ensures p in Recorded(lines) <==> At(t, p).Some?
      ensures p in Recorded(lines) ==> Recorded(lines)[p] == At(t, p).value.identity
    {
      NodesAt(t, p);
      if At(t, p).Some? {
        var i :| 0 <= i < |all| && all[i] == Report(p, At(t, p).value.identity);
        assert Lines(Dec(sid), all)[i] in lines;
      }
    }
  }

  // ----- A mux -----

  /** Each frame in its envelope. */
  function Sealed(down: seq<(nat, seq<Byte>)>): seq<(nat, seq<Byte>)> {
    if down == [] then []
    else
      var last := down[|down| - 1];
      Sealed(down[..|down| - 1]) + [(last.0, Envelope(last.1))]
  }

  lemma FanNext(clients: seq<Client>, i: nat, want: Option<nat>, frame: seq<Byte>)
    requires i < |clients|
    ensures var c, before := clients[i], Fan(clients[..i], want, frame);
            Fan(clients[..i + 1], want, frame)
            == if c.conduit && Wanted(want, c.cid) then before + [(c.fd, frame)] else before
  {
    assert clients[..i + 1][..i] == clients[..i];
  }

  lemma SealedMore(down: seq<(nat, seq<Byte>)>, fd: nat, frame: seq<Byte>)
    ensures Sealed(down + [(fd, frame)]) == Sealed(down) + [(fd, Envelope(frame))]
  {
    assert (down + [(fd, frame)])[..|down|] == down;
  }

  lemma {:induction false} SealedLength(down: seq<(nat, seq<Byte>)>)
    ensures |Sealed(down)| == |down|
  {
    if down != [] { SealedLength(down[..|down| - 1]); }
  }

  /** Each is written to its own conduit and heard there as that frame alone, if and only if it is safe. */
  lemma {:induction false} SealedHeard(down: seq<(nat, seq<Byte>)>, i: nat)
    requires i < |down|
    ensures |Sealed(down)| == |down| && Sealed(down)[i].0 == down[i].0
    ensures Feed(IDLE, Sealed(down)[i].1) == Fed(IDLE, Output([], [down[i].1])) <==> Safe(down[i].1)
  {
    hide Feed, Safe;
    SealedLength(down);
    SealedLength(down[..|down| - 1]);
    if i < |down| - 1 {
      SealedHeard(down[..|down| - 1], i);
    } else {
      EnvelopeRoundTrip(down[i].1);
    }
  }

  class Hub {
    const identity: seq<Byte>
    const act: seq<Byte> -> seq<Byte>
    var clients: seq<Client>
    var nextCid: nat

    ghost predicate Valid()
      reads this
    {
      nextCid >= 1 && DistinctIds(clients, nextCid)
    }

    constructor (identity: seq<Byte>, act: seq<Byte> -> seq<Byte>)
      ensures Valid() && clients == [] && this.identity == identity && this.act == act
    {
      this.identity, this.act := identity, act;
      clients, nextCid := [], 1;
    }

    method Connect(fd: nat)
      requires Valid()
      modifies `clients
      ensures Valid() && clients == old(clients) + [Client(fd, false, 0)]
    {
      clients := clients + [Client(fd, false, 0)];
    }

    /** A client declares that it owns a downward stream; it gets an id no conduit here ever had. */
    method Declare(i: nat)
      requires Valid() && i < |clients|
      modifies this
      ensures Valid() && clients == old(clients)[i := Client(old(clients[i].fd), true, old(nextCid))]
      ensures forall k | 0 <= k < |old(clients)| :: old(clients)[k].cid != old(nextCid)
    {
      clients := clients[i := clients[i].(conduit := true, cid := nextCid)];
      nextCid := nextCid + 1;
    }

    method Leave(i: nat)
      requires Valid() && i < |clients|
      modifies `clients
      ensures Valid() && clients == old(clients)[..i] + old(clients)[i + 1..]
    {
      clients := clients[..i] + clients[i + 1..];
    }

    /** A survey or a push, down from above: what goes up, the command run here, and what is written to the conduits. */
    method Down(payload: seq<Byte>) returns (up: Option<seq<Byte>>, ran: Option<seq<Byte>>, out: seq<(nat, seq<Byte>)>)
      requires Valid()
      ensures var h := HandleDown(identity, act, clients, payload); up == h.up && ran == h.ran && out == Sealed(h.down)
      ensures OnPush(payload).Forward? && !StartsWith(payload, SURVEY) ==> |out| <= 1
    {
      hide Fan, Sealed, SplitN, BuildPush, SurveyReply, PushReply, DistinctIds;
      SealedLength([]);
      up, ran, out := None, None, [];
      if StartsWith(payload, SURVEY) {
        out := WriteAll(None, payload);
        return Some(SurveyReply(payload[|SURVEY|..], [], identity)), None, out;
      }
      if StartsWith(payload, PUSH) {
        var parts := SplitN(payload[|PUSH|..], COLON, 3);
        if |parts| == 3 {
          if parts[1] == [] { return Some(PushReply(parts[0], act(parts[2]))), Some(parts[2]), []; }
          var rp := SplitN(parts[1], COMMA, 2);
          var fwd := BuildPush(parts[0], if |rp| > 1 then rp[1] else [], parts[2]);
          out := WriteAll(Some(Id(rp[0])), fwd);
          FanOne(clients, nextCid, Id(rp[0]), fwd);
          SealedLength(Fan(clients, Some(Id(rp[0])), fwd));
        }
      }
    }

    method WriteAll(want: Option<nat>, frame: seq<Byte>) returns (out: seq<(nat, seq<Byte>)>)
      ensures out == Sealed(Fan(clients, want, frame))
    {
      out := [];
      for i := 0 to |clients|
        invariant out == Sealed(Fan(clients[..i], want, frame))
      {
        var c := clients[i];
        FanNext(clients, i, want, frame);
        if c.conduit && Wanted(want, c.cid) {
          SealedMore(Fan(clients[..i], want, frame), c.fd, frame);
          out := out + [(c.fd, Envelope(frame))];
        }
      }
      assert clients[..|clients|] == clients;
    }

    /** A line from any client: a survey reply goes up with the client's id before its route, a push reply as it is. */
    method Up(i: nat, line: seq<Byte>) returns (up: Option<seq<Byte>>)
      requires i < |clients|
      ensures up == HandleUp(clients[i], line)
    {
      if StartsWith(line, SURVEYR + [COLON]) {
        var cid := clients[i].cid;
        var parts := SplitN(line, COLON, 4);
        if |parts| != 4 { return None; }
        var route := Dec(cid);
        if parts[2] != [] { route := Dec(cid) + [COMMA] + parts[2]; }
        return Some(SurveyReply(parts[1], route, parts[3]));
      }
      if StartsWith(line, PUSHR) { return Some(line); }
      return None;
    }
  }
}
