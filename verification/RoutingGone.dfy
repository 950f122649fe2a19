/**
 What a lost connection leaves behind: at its mux no tunnel goes through it any more, and every tunnel that
 did has been closed upstream; and no tunnel's route is ever dropped without a close.
 */
module RoutingGone {
  import opened Bytes
  import opened Routing
  import opened RoutingTree
  import opened RoutingOrder
  import opened RoutingReplies

  /** A close has gone up under this id. */
  ghost predicate ClosedAs(sent: seq<Entry>, id: nat) {
    exists e :: e in sent && e.frame.id == id && StartsWith(e.frame.inner, TUN_CLOSE)
  }

  /** Of every tunnel's route that is there no more, a close has gone up. */
  ghost predicate Dropped(s: Seat) {
    forall id | id in s.made && s.made[id].persistent && id !in s.table.routes :: ClosedAs(s.sent, id)
  }

  /** A tunnel's route for a conduit's frames. */
  predicate Carried(routes: map<nat, Route>, id: nat) {
    id in routes && routes[id].persistent && routes[id].inner.Some?
  }

  /** Of a carried tunnel's route that is there, none has. */
  ghost predicate Retired(s: Seat) {
    forall id | Carried(s.table.routes, id) :: !ClosedAs(s.sent, id)
  }

  ghost predicate Shed(s: Seat) { Sound(s.table) && Dropped(s) && Retired(s) }

  /** No tunnel goes through a connection that is gone. */
  ghost predicate Severed(s: Seat, n: Node, gone: set<(Node, Handle)>) {
    forall id | id in s.table.routes && s.table.routes[id].persistent :: (n, s.table.routes[id].to) !in gone
  }

  ghost predicate CutAt(w: World, n: Node)
    requires n in w.seats
  {
    Shed(w.seats[n]) && Severed(w.seats[n], n, w.gone)
  }

  ghost predicate Cut(w: World) { forall n {:trigger CutAt(w, n)} | n in w.seats :: CutAt(w, n) }

  // ----- One mux -----

  lemma ClosedStays(sent: seq<Entry>, sent': seq<Entry>, id: nat)
    requires ClosedAs(sent, id) && sent <= sent'
    ensures ClosedAs(sent', id)
  {
    var e :| e in sent && e.frame.id == id && StartsWith(e.frame.inner, TUN_CLOSE);
    assert e in sent';
  }

  lemma ClosedBefore(sent: seq<Entry>, sent': seq<Entry>, id: nat)
    requires ClosedAs(sent', id)
    requires forall e | e in sent' && e.frame.id == id && StartsWith(e.frame.inner, TUN_CLOSE) :: e in sent
    ensures ClosedAs(sent, id)
  {
  }

  /** Sending a frame up: a tunnel's route is dropped only with its close. */
  lemma EmitDropped(s: Seat, r: Relayed, talk: Talk, added: bool)
    requires Dropped(s)
    requires forall id | id in s.made && id in s.table.routes && id !in r.table.routes ::
               id == r.frame.id && StartsWith(r.frame.inner, TUN_CLOSE)
    ensures Dropped(Emit(s, r, talk, added))
  {
    hide StartsWith;
    var s', e := Emit(s, r, talk, added), Entry(r.frame, talk, added);
    assert s'.sent == s.sent + [e] && e in s'.sent;
    forall id | id in s'.made && s'.made[id].persistent && id !in s'.table.routes
      ensures ClosedAs(s'.sent, id)
    {
      assert id in s.made && s.made[id] == s'.made[id];
      if id !in s.table.routes { ClosedStays(s.sent, s'.sent, id); }
    }
  }

  lemma TidyIds(s: Seat, n: Node)
    requires Tidy(s, n)
    ensures forall e | e in s.sent :: e.frame.id < s.table.nextId
  {
    assert forall e | e in s.sent :: EntryTidy(s.owner, e);
  }

  /** And with its close it is. */
  lemma EmitRetired(s: Seat, r: Relayed, talk: Talk, added: bool)
    requires Retired(s) && forall e | e in s.sent :: e.frame.id < s.table.nextId
    requires forall id: nat | Carried(r.table.routes, id) ::
               && (Carried(s.table.routes, id) || id >= s.table.nextId)
               && !(id == r.frame.id && StartsWith(r.frame.inner, TUN_CLOSE))
    ensures Retired(Emit(s, r, talk, added))
  {
    hide StartsWith, Carried;
    var s', e := Emit(s, r, talk, added), Entry(r.frame, talk, added);
    assert s'.sent == s.sent + [e];
    forall id | Carried(s'.table.routes, id)
      ensures !ClosedAs(s'.sent, id)
    {
      if ClosedAs(s'.sent, id) { ClosedBefore(s.sent, s'.sent, id); }
    }
  }

  /** An opening line is no close. */
  lemma OpenIsNoClose(text: seq<Byte>)
    ensures StartsWith(text, TUN) ==> !StartsWith(text, TUN_CLOSE)
  {
    assert TUN[3] == 58 && TUN_CLOSE[3] == 45;
    assert |text| >= |TUN_CLOSE| ==> text[..|TUN_CLOSE|][3] == text[3] && text[..|TUN|][3] == text[3];
  }

  /** A new route goes to the connection the line came from, and no other is new. */
  ghost predicate OnlyTo(t: Table, t': Table, from: Handle) {
    forall id | id in t'.routes ::
      (id in t.routes && t'.routes[id] == t.routes[id]) || t'.routes[id].to == from
  }

  lemma OnlyToSevered(s: Seat, s': Seat, n: Node, gone: set<(Node, Handle)>, from: Handle)
    requires Severed(s, n, gone) && OnlyTo(s.table, s'.table, from) && (n, from) !in gone
    ensures Severed(s', n, gone)
  {
  }

  lemma SayCut(s: Seat, n: Node, gone: set<(Node, Handle)>, from: Handle, line: seq<Byte>)
    requires Shed(s) && Severed(s, n, gone) && Tidy(s, n) && (n, from) !in gone
    requires from in s.table.tunnels || ParseRoute(line) == None
    ensures var s' := Say(s, n, from, line); Shed(s') && Severed(s', n, gone)
  {
    hide ParseRoute, StartsWith, Dropped, Retired, Severed;
    var r := HandleLine(s.table, from, line);
    var talk := if r.frame.id in s.owner then s.owner[r.frame.id]
                else Talk(n, r.frame.id, from, StartsWith(line, TUN));
    TidyIds(s, n);
    hide Tidy;
    LineSound(s.table, from, line);
    EmitDropped(s, r, talk, false);
    EmitRetired(s, r, talk, false);
    OnlyToSevered(s, Say(s, n, from, line), n, gone, from);
  }

  lemma HearCut(s: Seat, n: Node, gone: set<(Node, Handle)>, from: Handle, e: Entry)
    requires Shed(s) && Severed(s, n, gone) && Tidy(s, n) && (n, from) !in gone && from !in s.table.tunnels
    ensures var s' := Hear(s, from, e); Shed(s') && Severed(s', n, gone)
  {
    LineSound(s.table, from, BuildRoute(e.frame));
    RelayLine(s.table, from, e.frame);
    TidyIds(s, n);
    OpenIsNoClose(e.frame.inner);
    hide Tidy, HandleLine, BuildRoute, Dropped, Retired, Severed, StartsWith, Sound;
    EmitDropped(s, Relay(s.table, from, e.frame), e.talk, e.added);
    EmitRetired(s, Relay(s.table, from, e.frame), e.talk, e.added);
    OnlyToSevered(s, Hear(s, from, e), n, gone, from);
  }

  lemma ReadCut(s: Seat, n: Node, gone: set<(Node, Handle)>)
    requires Shed(s) && Severed(s, n, gone) && Known(s) && s.read < |s.down|
    ensures Shed(Read(s)) && Severed(Read(s), n, gone)
  {
    ReadIs(s);
    ReplySound(s.table, BuildRoute(s.down[s.read].frame));
    hide Stamped, OnceSent, ClosedAs, Sound, HandleReply, BuildRoute;
  }

  lemma {:induction false} ClosersHave(owner: map<nat, Talk>, ids: seq<nat>, id: nat)
    requires id in ids && id in owner
    ensures Entry(Frame(id, TUN_CLOSE), owner[id], true) in Closers(owner, ids)
  {
    if id != ids[|ids| - 1] {
      assert id in ids[..|ids| - 1];
      ClosersHave(owner, ids[..|ids| - 1], id);
    }
  }

  lemma LeaveDropped(s: Seat, n: Node, from: Handle)
    requires Dropped(s) && Tidy(s, n) && Sound(s.table)
    ensures Dropped(Leave(s, from))
  {
    var ids, s' := Closing(s.table, from), Leave(s, from);
    ClosingOwned(s, n, from);
    ClosingThrough(s.table, from);
    DropSound(s.table, from);
    CloseIsNoOpen();
    hide Tidy, Closing, Drop, StartsWith;
    forall id | id in s'.made && s'.made[id].persistent && id !in s'.table.routes
      ensures ClosedAs(s'.sent, id)
    {
      if id in ids {
        ClosersHave(s.owner, ids, id);
        assert Entry(Frame(id, TUN_CLOSE), s.owner[id], true) in s'.sent;
      } else {
        ClosedStays(s.sent, s'.sent, id);
      }
    }
  }

  lemma LeaveRetired(s: Seat, from: Handle)
    requires Retired(s) && Sound(s.table)
    ensures Retired(Leave(s, from))
  {
    var ids, s' := Closing(s.table, from), Leave(s, from);
    ClosersTidy(s.owner, ids);
    ClosingThrough(s.table, from);
    DropSound(s.table, from);
    hide Closing, Drop, StartsWith, Closers;
    forall id | Carried(s'.table.routes, id)
      ensures !ClosedAs(s'.sent, id)
    {
      assert Carried(s.table.routes, id);
      if ClosedAs(s'.sent, id) { ClosedBefore(s.sent, s'.sent, id); }
    }
  }

  lemma LeaveCut(s: Seat, n: Node, gone: set<(Node, Handle)>, from: Handle)
    requires Shed(s) && Severed(s, n, gone) && Tidy(s, n)
    ensures var s' := Leave(s, from); Shed(s') && Severed(s', n, gone + {(n, from)})
  {
    LeaveDropped(s, n, from);
    LeaveRetired(s, from);
    DropSound(s.table, from);
    hide Tidy, Dropped, Retired, Drop, Closing, Closers;
  }

  // ----- The tree -----

  /** One mux changes, and perhaps loses one connection. */
  lemma PutCut(w: World, n: Node, s': Seat, gone': set<(Node, Handle)>)
    requires Cut(w) && n in w.seats && Shed(s') && Severed(s', n, gone')
    requires w.gone <= gone' && forall g | g in gone' && g !in w.gone :: g.0 == n
    ensures Cut(Put(w, n, s').(gone := gone'))
  {
    var w' := Put(w, n, s').(gone := gone');
    forall m | m in w'.seats
      ensures CutAt(w', m)
    {
      if m != n { assert CutAt(w, m); }
    }
  }

  lemma CutOf(w: World, n: Node)
    requires Cut(w) && n in w.seats
    ensures Shed(w.seats[n]) && Severed(w.seats[n], n, w.gone)
  {
    assert CutAt(w, n);
  }

  /** What comes down or is taken is no matter. */
  lemma SameCut(s: Seat, s': Seat, n: Node, gone: set<(Node, Handle)>)
    requires Shed(s) && Severed(s, n, gone) && s'.table == s.table && s'.made == s.made && s'.sent == s.sent
    ensures Shed(s') && Severed(s', n, gone)
  {
  }

  lemma SayingCut(w: World, n: Node, from: Handle, line: seq<Byte>)
    requires Cut(w) && Inv(w)
    ensures Cut(Saying(w, n, from, line))
  {
    hide Cut, Shed, Severed, Say, Put, Clean, ParseRoute, Inv, Tidy;
    if CanSay(w, n, from, line) {
      InOrder(w, n);
      CutOf(w, n);
      SayCut(w.seats[n], n, w.gone, from, line);
      PutCut(w, n, Say(w.seats[n], n, from, line), w.gone);
      PutGone(w, n, Say(w.seats[n], n, from, line));
    }
  }

  lemma PutGone(w: World, n: Node, s: Seat)
    ensures Put(w, n, s).(gone := w.gone) == Put(w, n, s)
  {
  }

  lemma LeavingCut(w: World, n: Node, from: Handle)
    requires Cut(w) && Inv(w)
    ensures Cut(Leaving(w, n, from))
  {
    hide Cut, Shed, Severed, Leave, Put, Inv, Tidy;
    if n in w.seats && (n, from) !in w.gone {
      CutOf(w, n);
      InOrder(w, n);
      LeaveCut(w.seats[n], n, w.gone, from);
      PutCut(w, n, Leave(w.seats[n], from), w.gone + {(n, from)});
    }
  }

  lemma ClimbingCut(w: World, c: Node)
    requires Cut(w) && Inv(w)
    ensures Cut(Climbing(w, c))
  {
    hide Cut, Shed, Severed, Hear, Inv, Tidy, SeatOk;
    if CanClimb(w, c) {
      var p := Parent(c);
      var s' := Hear(w.seats[p], Conduit(c), w.seats[c].sent[w.seats[c].taken]);
      NoTunnelClient(w, c);
      InOrder(w, p);
      CutOf(w, p);
      CutOf(w, c);
      HearCut(w.seats[p], p, w.gone, Conduit(c), w.seats[c].sent[w.seats[c].taken]);
      PutCut(w, p, s', w.gone);
      var w1 := Put(w, p, s');
      assert w1.(gone := w.gone) == w1 && p != c;
      CutOf(w1, c);
      SameCut(w1.seats[c], Take(w1.seats[c]), c, w1.gone);
      PutCut(w1, c, Take(w1.seats[c]), w1.gone);
      assert Put(w1, c, Take(w1.seats[c])).(gone := w1.gone) == Climb(w, c);
    }
  }

  /** A conduit is no local client. */
  lemma NoTunnelClient(w: World, c: Node)
    requires Inv(w) && c != TOP && c in w.seats && Parent(c) in w.seats
    ensures Conduit(c) !in w.seats[Parent(c)].table.tunnels
  {
    InOrder(w, Parent(c));
    hide Inv, Tidy;
    assert Parent(c) + [Conduit(c)] == c;
  }

  lemma DescendingCut(w: World, n: Node)
    requires Cut(w) && Inv(w) && Replies(w)
    ensures Cut(Descending(w, n))
  {
    hide Cut, Shed, Severed, Read, Inv, Replies, Known, HandleReply, BuildRoute, Tidy;
    if n in w.seats && w.seats[n].read < |w.seats[n].down| {
      CutOf(w, n);
      MuxKnown(w, n);
      ReadCut(w.seats[n], n, w.gone);
      PutCut(w, n, Read(w.seats[n]), w.gone);
      PutGone(w, n, Read(w.seats[n]));
      var a := w.seats[n].down[w.seats[n].read];
      DeliverCut(Put(w, n, Read(w.seats[n])), n, a, HandleReply(w.seats[n].table, BuildRoute(a.frame)).write);
    }
  }

  lemma DeliverCut(w: World, n: Node, a: Answer, write: Write)
    requires Cut(w)
    ensures Cut(Deliver(w, n, a, write))
  {
    hide Shed, Severed;
    match write
    case Silent =>
    case Raw(to, bytes) =>
      var w' := Deliver(w, n, a, write);
      forall m | m in w'.seats
        ensures CutAt(w', m)
      {
        assert CutAt(w, m);
      }
    case Framed(to, f) =>
      var c := n + [to];
      if c in w.seats {
        CutOf(w, c);
        hide Cut;
        var s' := Push(w.seats[c], f, a.cause, a.root);
        SameCut(w.seats[c], s', c, w.gone);
        PutCut(w, c, s', w.gone);
        PutGone(w, c, s');
      }
  }

  lemma TopCut(w: World, cause: nat, text: seq<Byte>)
    requires Cut(w)
    ensures Cut(Hearing(w)) && Cut(Answering(w, cause, text))
  {
    hide Cut, Shed, Severed, CanAnswer;
    if TOP in w.seats {
      var s := w.seats[TOP];
      CutOf(w, TOP);
      SameCut(s, Take(s), TOP, w.gone);
      PutCut(w, TOP, Take(s), w.gone);
      PutGone(w, TOP, Take(s));
      if CanAnswer(w, cause, text) {
        assert cause < |s.sent| by { CauseHeard(w, cause, text); }
        var s' := Reply(s, s.sent[cause].frame.id, cause, text);
        SameCut(s, s', TOP, w.gone);
        PutCut(w, TOP, s', w.gone);
        PutGone(w, TOP, s');
      }
    } else {
      assert !CanAnswer(w, cause, text) by { NoTop(w, cause, text); }
    }
  }

  lemma CauseHeard(w: World, cause: nat, text: seq<Byte>)
    requires CanAnswer(w, cause, text)
    ensures TOP in w.seats && cause < |w.seats[TOP].sent|
  {
  }

  lemma NoTop(w: World, cause: nat, text: seq<Byte>)
    requires TOP !in w.seats
    ensures !CanAnswer(w, cause, text)
  {
  }

  lemma StepCut(w: World, e: Event)
    requires Cut(w) && Inv(w) && Replies(w)
    ensures Cut(Step(w, e))
  {
    hide Cut, Inv, Replies, Saying, Climbing, Hearing, Answering, Descending, Leaving;
    match e
    case Says(n, from, line) => SayingCut(w, n, from, line);
    case Climbs(c) => ClimbingCut(w, c);
    case Hears => TopCut(w, 0, []);
    case Answers(cause, text) => TopCut(w, cause, text);
    case Descends(n) => DescendingCut(w, n);
    case Leaves(n, from) => LeavingCut(w, n, from);
  }

  lemma StartCut(nodes: set<Node>)
    ensures Cut(Start(nodes))
  {
  }

  lemma {:induction false} RunCut(nodes: set<Node>, events: seq<Event>)
    requires Tree(nodes)
    ensures Cut(Run(nodes, events))
    decreases |events|
  {
    hide Cut, Inv, Replies, Step, Start;
    if events == [] {
      StartCut(nodes);
    } else {
      var init := events[..|events| - 1];
      RunCut(nodes, init);
      RunReplies(nodes, init);
      StepCut(Run(nodes, init), events[|events| - 1]);
    }
  }

  lemma {:induction false} ClosedLog(log: seq<Entry>, e: Entry, k: Talk)
    requires e in log && e.talk == k && StartsWith(e.frame.inner, TUN_CLOSE)
    ensures Closed(log, k)
  {
    hide StartsWith;
    if e != log[|log| - 1] {
      assert e in log[..|log| - 1];
      ClosedLog(log[..|log| - 1], e, k);
    }
  }

  /**
   For every tree and run: once a connection of a mux is gone, no tunnel's route there leads to it, and every
   tunnel that ever went through it, the client's own or one carried over the conduit, has been closed upstream.
   */
  lemma LostIsClosed(nodes: set<Node>, events: seq<Event>, n: Node, h: Handle)
    requires Tree(nodes) && (n, h) in Run(nodes, events).gone && n in Run(nodes, events).seats
    ensures var s := Run(nodes, events).seats[n];
            && (forall id :: !Through(s.table.routes, h, id))
            && forall id | Through(s.made, h, id) ::
                 id in s.owner && ClosedAs(s.sent, id) && Closed(s.sent, s.owner[id])
  {
    var w := Run(nodes, events);
    RunCut(nodes, events);
    RunReplies(nodes, events);
    var s := w.seats[n];
    CutOf(w, n);
    MuxKnown(w, n);
    InOrder(w, n);
    hide Run, Inv, Replies, Cut;
    forall id | Through(s.made, h, id)
      ensures id in s.owner && ClosedAs(s.sent, id) && Closed(s.sent, s.owner[id])
    {
      assert ClosedAs(s.sent, id);
      var e :| e in s.sent && e.frame.id == id && StartsWith(e.frame.inner, TUN_CLOSE);
      assert EntryTidy(s.owner, e);
      ClosedLog(s.sent, e, s.owner[id]);
    }
  }

  /**
   In every run a tunnel's route is there, as it was made, until a close has gone up for it. A carried
   tunnel's route is there no longer than that.
   */
  lemma OpenUntilClosed(nodes: set<Node>, events: seq<Event>, n: Node, id: nat)
    requires Tree(nodes) && n in Run(nodes, events).seats
    requires var s := Run(nodes, events).seats[n]; id in s.made && s.made[id].persistent
    ensures var s := Run(nodes, events).seats[n];
            && (!ClosedAs(s.sent, id) ==> id in s.table.routes && s.table.routes[id] == s.made[id])
            && (s.made[id].inner.Some? ==> (id in s.table.routes <==> !ClosedAs(s.sent, id)))
  {
    RunCut(nodes, events);
    RunReplies(nodes, events);
    var w := Run(nodes, events);
    CutOf(w, n);
    MuxKnown(w, n);
    RouteMade(w.seats[n]);
    hide Run, Inv, Replies, Cut, Known, ClosedAs;
    if w.seats[n].made[id].inner.Some? && id in w.seats[n].table.routes { assert Carried(w.seats[n].table.routes, id); }
  }
}
