/**
 What order and which ids requests keep on their way up a tree of muxes: every mux passes on what a
 client said in the order it said it, and a tunnel keeps one id at every mux until it is closed.
 */
module RoutingOrder {
  import opened Bytes
  import opened Routing
  import opened RoutingTree

  // ----- Logs -----

  /** What was sent for `k`, leaving out what muxes added themselves. */
  function Texts(log: seq<Entry>, k: Talk): seq<seq<Byte>> {
    if log == [] then []
    else
      var e := log[|log| - 1];
      Texts(log[..|log| - 1], k) + if e.talk == k && !e.added then [e.frame.inner] else []
  }

  /** The id of the first frame for `k`. */
  function Lead(log: seq<Entry>, k: Talk): Option<nat> {
    if log == [] then None
    else
      var e, before := log[|log| - 1], Lead(log[..|log| - 1], k);
      if before.None? && e.talk == k then Some(e.frame.id) else before
  }

  /** A closing frame has been sent for `k`. */
  predicate Closed(log: seq<Entry>, k: Talk) {
    log != [] && (Closed(log[..|log| - 1], k)
                  || (log[|log| - 1].talk == k && StartsWith(log[|log| - 1].frame.inner, TUN_CLOSE)))
  }

  /** Up to and including the first closing frame, all frames for `k` bear one id. */
  predicate Steady(log: seq<Entry>, k: Talk) {
    log == []
    || (var e, before := log[|log| - 1], log[..|log| - 1];
        Steady(before, k) && (e.talk == k && !Closed(before, k) ==> Lead(log, k) == Some(e.frame.id)))
  }

  /** A frame that follows a closing one bears another id than the first. */
  predicate Parted(log: seq<Entry>, k: Talk) {
    log == []
    || (var e, before := log[|log| - 1], log[..|log| - 1];
        Parted(before, k) && (e.talk == k && Closed(before, k) ==> Lead(log, k) != Some(e.frame.id)))
  }

  /** A tunnel's first frame opens it; no other frame opens one. */
  predicate Proper(log: seq<Entry>, k: Talk) {
    log == []
    || (var e, before := log[|log| - 1], log[..|log| - 1];
        && Proper(before, k)
        && (e.talk == k ==> (StartsWith(e.frame.inner, TUN) <==> Lead(before, k) == None && k.tunnel)))
  }

  lemma Appended(log: seq<Entry>, e: Entry, k: Talk)
    ensures Texts(log + [e], k) == if e.talk == k && !e.added then Texts(log, k) + [e.frame.inner] else Texts(log, k)
    ensures Lead(log + [e], k) == if Lead(log, k).None? && e.talk == k then Some(e.frame.id) else Lead(log, k)
    ensures Closed(log + [e], k) <==> Closed(log, k) || (e.talk == k && StartsWith(e.frame.inner, TUN_CLOSE))
    ensures Steady(log + [e], k) <==>
              Steady(log, k) && (e.talk == k && !Closed(log, k) ==> Lead(log + [e], k) == Some(e.frame.id))
    ensures Parted(log + [e], k) <==>
              Parted(log, k) && (e.talk == k && Closed(log, k) ==> Lead(log + [e], k) != Some(e.frame.id))
    ensures Proper(log + [e], k) <==>
              Proper(log, k) && (e.talk == k ==> (StartsWith(e.frame.inner, TUN) <==> Lead(log, k) == None && k.tunnel))
  {
    assert (log + [e])[..|log|] == log;
  }

  /** What holds of a log held of each beginning of it. */
  lemma {:induction false} Beginning(log: seq<Entry>, m: nat, k: Talk)
    requires m <= |log|
    ensures Steady(log, k) ==> Steady(log[..m], k)
    ensures Proper(log, k) ==> Proper(log[..m], k)
    ensures Parted(log, k) ==> Parted(log[..m], k)
    ensures Lead(log[..m], k).Some? ==> Lead(log, k) == Lead(log[..m], k)
    ensures Texts(log[..m], k) <= Texts(log, k)
    decreases |log|
  {
    if m == |log| {
      assert log[..m] == log;
    } else {
      var init := log[..|log| - 1];
      Beginning(init, m, k);
      assert init[..m] == log[..m];
    }
  }

  lemma {:induction false} NoTexts(log: seq<Entry>, k: Talk)
    ensures Lead(log, k).None? ==> Texts(log, k) == []
  {
    if log != [] { NoTexts(log[..|log| - 1], k); }
  }

  lemma {:induction false} LeadIs(log: seq<Entry>, k: Talk)
    ensures Lead(log, k).Some? ==> exists e :: e in log && e.talk == k && e.frame.id == Lead(log, k).value
    ensures Lead(log, k).None? ==> forall e | e in log :: e.talk != k
  {
    if log != [] {
      var init, last := log[..|log| - 1], log[|log| - 1];
      LeadIs(init, k);
      assert log == init + [last];
      if Lead(init, k).Some? {
        var e :| e in init && e.talk == k && e.frame.id == Lead(init, k).value;
        assert e in log;
      } else if last.talk == k {
        assert last in log;
      }
    }
  }

  // ----- One mux -----

  /**
   Ids of its own clients are their talks' ids; every talk with an id has sent something; a tunnel
   route has the id its talk started with.
   */
  ghost predicate Named(s: Seat, n: Node) {
    && (forall id | id in s.owner && s.owner[id].node == n :: s.owner[id].id == id)
    && (forall id | id in s.owner :: Lead(s.sent, s.owner[id]).Some?)
    && (forall id | id in s.table.routes && s.table.routes[id].persistent ::
          id in s.owner && Lead(s.sent, s.owner[id]) == Some(id))
  }

  /** A one-shot request of its own is said once; a tunnel's log is steady, proper and, passing through, parted. */
  ghost predicate LogOk(log: seq<Entry>, routes: map<nat, Route>, n: Node, k: Talk) {
    && Proper(log, k)
    && (k.tunnel ==> Steady(log, k))
    && (k.node == n && !k.tunnel ==> |Texts(log, k)| <= 1)
    && (k.node != n && k.tunnel ==> Parted(log, k) && Shut(log, routes, k))
  }

  ghost predicate Orderly(s: Seat, n: Node) { Named(s, n) && forall k :: LogOk(s.sent, s.table.routes, n, k) }

  /** Once a tunnel passing through has been closed, its route is gone. */
  ghost predicate Shut(log: seq<Entry>, routes: map<nat, Route>, k: Talk) {
    Closed(log, k) && Lead(log, k).Some? ==> Lead(log, k).value !in routes
  }

  lemma LeadOwned(s: Seat, n: Node, k: Talk)
    requires Tidy(s, n) && Lead(s.sent, k).Some?
    ensures Lead(s.sent, k).value in s.owner && s.owner[Lead(s.sent, k).value] == k
  {
    LeadIs(s.sent, k);
    var e :| e in s.sent && e.talk == k && e.frame.id == Lead(s.sent, k).value;
    assert EntryTidy(s.owner, e);
  }

  lemma {:induction false} ClosedHasLead(log: seq<Entry>, k: Talk)
    ensures Closed(log, k) ==> Lead(log, k).Some?
  {
    if log != [] { ClosedHasLead(log[..|log| - 1], k); }
  }

  lemma OpenIsNoClose(text: seq<Byte>)
    ensures !(StartsWith(text, TUN) && StartsWith(text, TUN_CLOSE))
  {
    if |text| >= |TUN_CLOSE| { assert text[..|TUN|][3] == text[..|TUN_CLOSE|][3]; }
    assert TUN[3] == 58 && TUN_CLOSE[3] == 45;
  }

  /** A first frame, or one after the close, under a new id: each talk's log stays in order. */
  lemma MintLog(s: Seat, n: Node, e: Entry, s': Seat, k: Talk)
    requires Tidy(s, n) && LogOk(s.sent, s.table.routes, n, k)
    requires s'.sent == s.sent + [e] && e.frame.id == s.table.nextId
    requires forall id | id in s'.table.routes :: id in s.table.routes || id == s.table.nextId
    requires e.talk.node == n ==> Lead(s.sent, e.talk) == None
    requires StartsWith(e.frame.inner, TUN) <==> Lead(s.sent, e.talk) == None && e.talk.tunnel
    requires e.talk.tunnel && Lead(s.sent, e.talk).Some? ==> Closed(s.sent, e.talk)
    ensures LogOk(s'.sent, s'.table.routes, n, k) && (Lead(s.sent, k).Some? ==> Lead(s'.sent, k) == Lead(s.sent, k))
  {
    Appended(s.sent, e, k);
    NoTexts(s.sent, k);
    OpenIsNoClose(e.frame.inner);
    ClosedHasLead(s.sent, k);
    if Lead(s.sent, k).Some? { LeadOwned(s, n, k); }
    hide Texts, Lead, Closed, Steady, Proper, Parted;
  }

  /** A new id for a talk not heard of before, or heard of and closed. */
  lemma MintOrderly(s: Seat, n: Node, route: Route, text: seq<Byte>, talk: Talk, added: bool)
    requires Tidy(s, n) && Orderly(s, n)
    requires talk.node == n ==> talk.id == s.table.nextId && Lead(s.sent, talk) == None
    requires route.persistent ==> StartsWith(text, TUN)
    requires StartsWith(text, TUN) <==> Lead(s.sent, talk) == None && talk.tunnel
    requires talk.tunnel && Lead(s.sent, talk).Some? ==> Closed(s.sent, talk)
    ensures Orderly(Emit(s, Mint(s.table, route, text), talk, added), n)
  {
    var id := s.table.nextId;
    var e := Entry(Frame(id, text), talk, added);
    var s' := Emit(s, Mint(s.table, route, text), talk, added);
    assert id !in s.owner;
    hide Texts, Lead, Closed, StartsWith, LogOk, Named, Tidy;
    forall k: Talk
      ensures LogOk(s'.sent, s'.table.routes, n, k)
    {
      assert LogOk(s.sent, s.table.routes, n, k);
      MintLog(s, n, e, s', k);
    }
    MintNamed(s, n, e, s');
  }

  lemma MintNamed(s: Seat, n: Node, e: Entry, s': Seat)
    requires Tidy(s, n) && Orderly(s, n)
    requires e.frame.id == s.table.nextId && s'.sent == s.sent + [e] && s'.owner == s.owner[s.table.nextId := e.talk]
    requires forall i | i in s'.table.routes && i != s.table.nextId ::
               i in s.table.routes && s'.table.routes[i] == s.table.routes[i]
    requires s.table.nextId in s'.table.routes && s'.table.routes[s.table.nextId].persistent ==>
               StartsWith(e.frame.inner, TUN)
    requires StartsWith(e.frame.inner, TUN) ==> Lead(s.sent, e.talk) == None
    requires e.talk.node == n ==> e.talk.id == s.table.nextId
    ensures Named(s', n)
  {
    assert s.table.nextId !in s.owner && forall i | i in s.table.routes :: i in s.owner;
    hide Tidy, LogOk, StartsWith, Lead;
    forall id | id in s'.owner
      ensures Lead(s'.sent, s'.owner[id]) == if Lead(s.sent, s'.owner[id]).Some? then Lead(s.sent, s'.owner[id])
                                              else Some(s.table.nextId)
    {
      Appended(s.sent, e, s'.owner[id]);
    }
  }

  /** A frame under the id its talk started with, or after its close. */
  lemma ReuseOrderly(s: Seat, n: Node, id: nat, text: seq<Byte>, added: bool, routes: map<nat, Route>)
    requires Tidy(s, n) && Orderly(s, n) && id in s.owner
    requires routes == s.table.routes || routes == s.table.routes - {id}
    requires Lead(s.sent, s.owner[id]) == Some(id) && !StartsWith(text, TUN)
    requires s.owner[id].node == n ==> s.owner[id].tunnel
    requires s.owner[id].node != n && s.owner[id].tunnel ==>
               !Closed(s.sent, s.owner[id]) && (StartsWith(text, TUN_CLOSE) ==> id !in routes)
    ensures Orderly(Emit(s, Relayed(s.table.(routes := routes), Frame(id, text)), s.owner[id], added), n)
  {
    var talk := s.owner[id];
    var e := Entry(Frame(id, text), talk, added);
    var s' := Emit(s, Relayed(s.table.(routes := routes), Frame(id, text)), talk, added);
    forall k: Talk
      ensures LogOk(s'.sent, s'.table.routes, n, k) && (Lead(s.sent, k).Some? ==> Lead(s'.sent, k) == Lead(s.sent, k))
    {
      assert LogOk(s.sent, s.table.routes, n, k);
      Appended(s.sent, e, k);
    }
    hide Texts, Lead, Closed, Steady, Proper, Parted, LogOk;
  }

  lemma OwnLead(s: Seat, n: Node, id: nat)
    requires Tidy(s, n) && Orderly(s, n) && id in s.owner && s.owner[id].node == n
    ensures Lead(s.sent, s.owner[id]) == Some(id)
  {
    LeadOwned(s, n, s.owner[id]);
  }

  lemma NewTalk(s: Seat, n: Node, k: Talk)
    requires Tidy(s, n) && Orderly(s, n) && k.node == n && k.id == s.table.nextId
    ensures Lead(s.sent, k) == None
  {
    if Lead(s.sent, k).Some? { LeadOwned(s, n, k); }
  }

  /** What a client says is sent up word for word. */
  lemma SayOrderly(s: Seat, n: Node, from: Handle, line: seq<Byte>) returns (e: Entry)
    requires Tidy(s, n) && Orderly(s, n) && (from in s.table.tunnels || ParseRoute(line) == None)
    ensures var s' := Say(s, n, from, line);
            && Orderly(s', n) && s'.taken == s.taken
            && s'.sent == s.sent + [e] && e.talk.node == n && e.talk.client == from && !e.added && e.frame.inner == line
            && forall id | id in s.table.routes :: id in s'.table.routes && s'.table.routes[id] == s.table.routes[id]
  {
    var id, s' := s.table.nextId, Say(s, n, from, line);
    assert id !in s.table.routes;
    if StartsWith(line, TUN) {
      var talk := Talk(n, id, from, true);
      NewTalk(s, n, talk);
      MintOrderly(s, n, Route(from, None, true), line, talk, false);
      e := Entry(Frame(id, line), talk, false);
    } else if from in s.table.tunnels {
      var t := s.table.tunnels[from];
      assert TunnelTidy(s.owner, n, s.table.tunnels[from], from);
      OwnLead(s, n, t);
      ReuseOrderly(s, n, t, line, false, s.table.routes);
      assert s.table.(routes := s.table.routes) == s.table;
      e := Entry(Frame(t, line), s.owner[t], false);
    } else {
      var talk := Talk(n, id, from, false);
      NewTalk(s, n, talk);
      MintOrderly(s, n, Route(from, None, false), line, talk, false);
      e := Entry(Frame(id, line), talk, false);
    }
  }

  /** While a tunnel is open, its frames come by the route its first frame made. */
  ghost predicate Live(s: Seat, from: Handle, inner: nat, k: Talk) {
    k.tunnel && Lead(s.sent, k).Some? && !Closed(s.sent, k) ==>
      Reusable(s.table.routes, Lead(s.sent, k).value, from, inner)
  }

  /** What passing on a conduit's frame as `sent` leaves of the mux. */
  ghost predicate Passed(s: Seat, s': Seat, n: Node, from: Handle, e: Entry, sent: Entry) {
    && Orderly(s', n) && s'.taken == s.taken && s'.sent == s.sent + [sent]
    && sent.talk == e.talk && sent.added == e.added && sent.frame.inner == e.frame.inner
    && Live(s', from, e.frame.id, e.talk)
    && forall id | id in s.table.routes && id in s.owner && s.owner[id] != e.talk ::
         id in s'.table.routes && s'.table.routes[id] == s.table.routes[id]
  }

  lemma PassedNew(s: Seat, n: Node, from: Handle, e: Entry) returns (sent: Entry)
    requires Tidy(s, n) && Orderly(s, n) && e.talk.node != n
    requires Lookup(s.table, from, e.frame.id, FIRST_ID) == None
    requires StartsWith(e.frame.inner, TUN) <==> Lead(s.sent, e.talk) == None && e.talk.tunnel
    requires Live(s, from, e.frame.id, e.talk)
    ensures Passed(s, Emit(s, Relay(s.table, from, e.frame), e.talk, e.added), n, from, e, sent)
  {
    hide Texts, Lead, Closed, Steady, Proper, Parted, EntryTidy, TunnelTidy, OneRoute;
    var text, k, id := e.frame.inner, e.talk, s.table.nextId;
    MintOrderly(s, n, Route(from, Some(e.frame.id), StartsWith(text, TUN)), text, k, e.added);
    hide Orderly;
    sent := Entry(Frame(id, text), k, e.added);
    Appended(s.sent, sent, k);
  }

  lemma PassedKnown(s: Seat, n: Node, from: Handle, e: Entry, id: nat) returns (sent: Entry)
    requires Tidy(s, n) && Orderly(s, n) && e.talk.node != n
    requires Lookup(s.table, from, e.frame.id, FIRST_ID) == Some(id) && id in s.owner && s.owner[id] == e.talk
    requires StartsWith(e.frame.inner, TUN) <==> Lead(s.sent, e.talk) == None && e.talk.tunnel
    ensures Passed(s, Emit(s, Relay(s.table, from, e.frame), e.talk, e.added), n, from, e, sent)
  {
    hide Texts, Lead, Closed, Steady, Proper, Parted, EntryTidy, TunnelTidy, OneRoute;
    var text, k := e.frame.inner, e.talk;
    var routes := if StartsWith(text, TUN_CLOSE) then s.table.routes - {id} else s.table.routes;
    assert LogOk(s.sent, s.table.routes, n, k);
    ReuseOrderly(s, n, id, text, e.added, routes);
    assert s.table.(routes := s.table.routes) == s.table;
    sent := Entry(Frame(id, text), k, e.added);
    Appended(s.sent, sent, k);
  }

  /** Passing on a conduit's frame: the same text for the same talk, a tunnel's under its one id. */
  lemma HearOrderly(s: Seat, n: Node, from: Handle, e: Entry) returns (sent: Entry)
    requires Tidy(s, n) && Orderly(s, n) && from !in s.table.tunnels && e.talk.node != n
    requires forall id | Reusable(s.table.routes, id, from, e.frame.id) :: id in s.owner && s.owner[id] == e.talk
    requires StartsWith(e.frame.inner, TUN) <==> Lead(s.sent, e.talk) == None && e.talk.tunnel
    requires Live(s, from, e.frame.id, e.talk)
    ensures Passed(s, Hear(s, from, e), n, from, e, sent)
  {
    RelayLine(s.table, from, e.frame);
    hide Tidy, Orderly, Live, Passed, HandleLine, Emit, Relay;
    match Lookup(s.table, from, e.frame.id, FIRST_ID)
    case None => sent := PassedNew(s, n, from, e);
    case Some(id) => sent := PassedKnown(s, n, from, e, id);
  }

  // ----- Departures -----

  lemma {:induction false} ClosersLog(log: seq<Entry>, owner: map<nat, Talk>, ids: seq<nat>, k: Talk)
    requires forall id | id in ids :: id in owner && Lead(log, owner[id]) == Some(id)
    ensures var log' := log + Closers(owner, ids);
            && Lead(log', k) == Lead(log, k) && Texts(log', k) == Texts(log, k)
            && (Steady(log, k) ==> Steady(log', k)) && (Proper(log, k) ==> Proper(log', k))
            && (Closed(log', k) <==> Closed(log, k) || exists id :: id in ids && owner[id] == k)
  {
    if ids == [] {
      assert log + [] == log;
    } else {
      var init, id := ids[..|ids| - 1], ids[|ids| - 1];
      assert ids == init + [id] && id in ids;
      ClosersLog(log, owner, init, k);
      var e := Entry(Frame(id, TUN_CLOSE), owner[id], true);
      assert log + Closers(owner, ids) == (log + Closers(owner, init)) + [e];
      Appended(log + Closers(owner, init), e, k);
      CloseIsNoOpen();
      if Closed(log + Closers(owner, init), k) && !Closed(log, k) {
        var d :| d in init && owner[d] == k;
        assert d in ids;
      }
      if d :| d in ids && owner[d] == k {
        assert d in init || d == id;
      }
    }
  }

  /** At most one close is added for a talk, and only if it was open. */
  lemma {:induction false} ClosersParted(log: seq<Entry>, owner: map<nat, Talk>, ids: seq<nat>, k: Talk)
    requires forall id | id in ids :: id in owner && Lead(log, owner[id]) == Some(id)
    requires Parted(log, k) && Distinct(ids) && (Closed(log, k) ==> forall id | id in ids :: owner[id] != k)
    ensures Parted(log + Closers(owner, ids), k)
  {
    if ids == [] {
      assert log + [] == log;
    } else {
      var init, id := ids[..|ids| - 1], ids[|ids| - 1];
      assert ids == init + [id] && id in ids;
      assert forall i | 0 <= i < |init| :: init[i] == ids[i];
      ClosersParted(log, owner, init, k);
      ClosersLog(log, owner, init, k);
      var e := Entry(Frame(id, TUN_CLOSE), owner[id], true);
      assert log + Closers(owner, ids) == (log + Closers(owner, init)) + [e];
      Appended(log + Closers(owner, init), e, k);
      hide Texts, Lead, Closed, Steady, Proper, Parted, Closers;
    }
  }

  lemma CloseIsNoOpen()
    ensures !StartsWith(TUN_CLOSE, TUN) && StartsWith(TUN_CLOSE, TUN_CLOSE)
  {
    assert TUN_CLOSE[..4][3] == 45 && TUN[3] == 58;
    assert TUN_CLOSE[..|TUN_CLOSE|] == TUN_CLOSE;
  }

  lemma ClosingLeads(s: Seat, n: Node, from: Handle)
    requires Tidy(s, n) && Orderly(s, n)
    ensures forall id | id in Closing(s.table, from) :: id in s.owner && Lead(s.sent, s.owner[id]) == Some(id)
    ensures forall id | id in Closing(s.table, from) && s.owner[id].node != n && s.owner[id].tunnel ::
              !Closed(s.sent, s.owner[id])
  {
    ClosingOwned(s, n, from);
    DeadIds(s.table, from, FIRST_ID);
    if from in s.table.tunnels {
      assert TunnelTidy(s.owner, n, s.table.tunnels[from], from);
      OwnLead(s, n, s.table.tunnels[from]);
    }
    forall id | id in Closing(s.table, from) && s.owner[id].node != n && s.owner[id].tunnel
      ensures !Closed(s.sent, s.owner[id])
    {
      assert LogOk(s.sent, s.table.routes, n, s.owner[id]);
    }
  }

  lemma LeaveOrderly(s: Seat, n: Node, from: Handle)
    requires Tidy(s, n) && Orderly(s, n)
    ensures var s' := Leave(s, from); Orderly(s', n) && s'.taken == s.taken && s.sent <= s'.sent
    ensures forall k :: Alike(s, Leave(s, from), k)
  {
    var s', ids := Leave(s, from), Closing(s.table, from);
    ClosingLeads(s, n, from);
    ClosingDistinct(s.table, from);
    WithoutKeys(s.table.routes, ids);
    hide Closing, Without;
    forall k: Talk
      ensures LogOk(s'.sent, s'.table.routes, n, k)
      ensures Lead(s'.sent, k) == Lead(s.sent, k) && Texts(s'.sent, k) == Texts(s.sent, k)
      ensures Closed(s'.sent, k) <==> Closed(s.sent, k) || exists id :: id in ids && s.owner[id] == k
    {
      assert LogOk(s.sent, s.table.routes, n, k);
      ClosersLog(s.sent, s.owner, ids, k);
      if k.node != n && k.tunnel { ClosersParted(s.sent, s.owner, ids, k); }
    }
    hide LogOk;
    forall k: Talk
      ensures Alike(s, s', k)
    {
      if Lead(s.sent, k).Some? && !Closed(s'.sent, k) {
        LeadOwned(s, n, k);
      }
    }
  }

  // ----- One conduit -----

  /** For `k` the mux's log is unchanged but for a close, and while open its route stays. */
  ghost predicate Alike(s: Seat, s': Seat, k: Talk) {
    && Texts(s'.sent, k) == Texts(s.sent, k) && Lead(s'.sent, k) == Lead(s.sent, k)
    && (Closed(s.sent, k) ==> Closed(s'.sent, k))
    && (Lead(s.sent, k).Some? && !Closed(s'.sent, k) ==>
          forall h, i | Reusable(s.table.routes, Lead(s.sent, k).value, h, i) ::
            Reusable(s'.table.routes, Lead(s.sent, k).value, h, i))
  }

  /** What the parent `p` has sent for `k` is what it has taken from the conduit's mux `c`. */
  ghost predicate EdgeOk(p: Seat, h: Handle, c: Seat, k: Talk)
    requires c.taken <= |c.sent|
  {
    var took := c.sent[..c.taken];
    && Texts(p.sent, k) == Texts(took, k)
    && (Lead(p.sent, k).Some? <==> Lead(took, k).Some?)
    && (Closed(took, k) ==> Closed(p.sent, k))
    && (Lead(c.sent, k).Some? ==> Live(p, h, Lead(c.sent, k).value, k))
  }

  lemma EdgeStays(p: Seat, p': Seat, h: Handle, c: Seat, c': Seat, k: Talk)
    requires c.taken <= |c.sent| && EdgeOk(p, h, c, k) && Alike(p, p', k)
    requires c.sent <= c'.sent && c'.taken == c.taken
    ensures EdgeOk(p', h, c', k)
  {
    assert c'.sent[..c.taken] == c.sent[..c.taken];
    assert c'.sent[..|c.sent|] == c.sent;
    hide Texts, Lead, Closed, Reusable;
    Beginning(c'.sent, |c.sent|, k);
    if Lead(c'.sent, k).Some? && Lead(p.sent, k).Some? {
      Beginning(c.sent, c.taken, k);
    }
  }

  /** The conduit's next frame, taken by the parent and passed on. */
  lemma EdgeMoves(p: Seat, p': Seat, h: Handle, c: Seat, sent: Entry)
    requires c.taken < |c.sent| && EdgeOk(p, h, c, c.sent[c.taken].talk)
    requires p'.sent == p.sent + [sent]
    requires var e := c.sent[c.taken];
             && sent.talk == e.talk && sent.added == e.added && sent.frame.inner == e.frame.inner
             && (e.talk.tunnel && !Closed(p.sent, e.talk) ==>
                   Lead(c.sent, e.talk) == Some(e.frame.id) && Live(p', h, e.frame.id, e.talk))
    ensures EdgeOk(p', h, Take(c), c.sent[c.taken].talk)
  {
    var e, took := c.sent[c.taken], c.sent[..c.taken];
    assert c.sent[..c.taken + 1] == took + [e];
    hide Texts, Lead, Closed, Reusable, StartsWith;
    Appended(took, e, e.talk);
    Appended(p.sent, sent, e.talk);
  }

  /** What the frame a parent takes next is to the parent. */
  lemma NextFrame(p: Seat, h: Handle, c: Seat, n: Node)
    requires c.taken < |c.sent| && Orderly(c, n)
    requires var k := c.sent[c.taken].talk; EdgeOk(p, h, c, k)
    ensures var e := c.sent[c.taken];
            && (StartsWith(e.frame.inner, TUN) <==> Lead(p.sent, e.talk) == None && e.talk.tunnel)
            && (e.talk.tunnel && !Closed(p.sent, e.talk) ==> Lead(c.sent, e.talk) == Some(e.frame.id))
            && Live(p, h, e.frame.id, e.talk)
  {
    var e, took := c.sent[c.taken], c.sent[..c.taken];
    var k := e.talk;
    assert c.sent[..c.taken + 1] == took + [e] && LogOk(c.sent, c.table.routes, n, k);
    Beginning(c.sent, c.taken + 1, k);
    Appended(took, e, k);
  }

  // ----- The tree -----

  ghost predicate EdgeAt(w: World, c: Node, k: Talk) {
    && c in w.seats && c != TOP && Parent(c) in w.seats && w.seats[c].taken <= |w.seats[c].sent|
    && EdgeOk(w.seats[Parent(c)], Conduit(c), w.seats[c], k)
  }

  ghost predicate Ordered(w: World) {
    && (forall n {:trigger Orderly(w.seats[n], n)} | n in w.seats :: Orderly(w.seats[n], n))
    && (forall c, k: Talk | c in w.seats && c != TOP && c <= k.node :: EdgeAt(w, c, k))
    && (forall c {:trigger Parent(c)} | c in w.seats && c != TOP :: Parent(c) in w.seats)
  }

  lemma AlikeItself(s: Seat, s': Seat, k: Talk)
    requires s'.sent == s.sent && s'.table.routes == s.table.routes
    ensures Alike(s, s', k)
  {
  }

  /** One mux acted, adding only what is its own clients'. */
  lemma PutEdge(w: World, n: Node, s': Seat, c: Node, k: Talk)
    requires n in w.seats && EdgeAt(w, c, k) && c <= k.node
    requires var s := w.seats[n];
             && s.sent <= s'.sent && (n == TOP || s'.taken == s.taken) && (k.node != n ==> Alike(s, s', k))
    ensures EdgeAt(Put(w, n, s'), c, k)
  {
    hide EdgeOk, Alike;
    var p := w.seats[Parent(c)];
    if Parent(c) == n {
      EdgeStays(w.seats[n], s', Conduit(c), w.seats[c], w.seats[c], k);
    } else if c == n {
      AlikeItself(p, p, k);
      EdgeStays(p, p, Conduit(c), w.seats[n], s', k);
    }
  }

  lemma PutOrdered(w: World, n: Node, s': Seat)
    requires Ordered(w) && n in w.seats && Orderly(s', n)
    requires var s := w.seats[n];
             && s.sent <= s'.sent && (n == TOP || s'.taken == s.taken)
             && forall k: Talk | k.node != n :: Alike(s, s', k)
    ensures Ordered(Put(w, n, s'))
  {
    var w' := Put(w, n, s');
    hide Orderly, Alike, EdgeAt;
    forall c, k: Talk | c in w'.seats && c != TOP && c <= k.node
      ensures EdgeAt(w', c, k)
    {
      assert EdgeAt(w, c, k);
      PutEdge(w, n, s', c, k);
    }
  }

  lemma SayOrdered(w: World, n: Node, from: Handle, line: seq<Byte>)
    requires Inv(w) && Ordered(w) && CanSay(w, n, from, line)
    ensures Ordered(Put(w, n, Say(w.seats[n], n, from, line)))
  {
    var s, s' := w.seats[n], Say(w.seats[n], n, from, line);
    InOrder(w, n);
    hide Inv, SeatOk;
    var e := SayOrderly(s, n, from, line);
    hide Say, Orderly, Put, Tidy;
    forall k: Talk | k.node != n
      ensures Alike(s, s', k)
    {
      Appended(s.sent, e, k);
    }
    hide Alike;
    PutOrdered(w, n, s');
  }

  lemma LeaveOrdered(w: World, n: Node, from: Handle)
    requires Inv(w) && Ordered(w) && n in w.seats
    ensures Ordered(Put(w, n, Leave(w.seats[n], from)))
  {
    InOrder(w, n);
    hide Inv, SeatOk;
    LeaveOrderly(w.seats[n], n, from);
    hide Leave, Orderly, Put, Tidy, Alike;
    PutOrdered(w, n, Leave(w.seats[n], from));
  }

  /** A step that sends nothing up, and takes no tunnel's route away, changes nothing here. */
  lemma SilentOrdered(w: World, n: Node, s': Seat)
    requires Ordered(w) && n in w.seats
    requires var s := w.seats[n];
             && s'.sent == s.sent && s'.owner == s.owner && (n == TOP || s'.taken == s.taken)
             && (forall id | id in s'.table.routes :: id in s.table.routes && s'.table.routes[id] == s.table.routes[id])
             && (forall id | id in s.table.routes && s.table.routes[id].persistent :: id in s'.table.routes)
    ensures Ordered(Put(w, n, s'))
  {
    var s := w.seats[n];
    assert Orderly(s, n);
    forall k: Talk
      ensures LogOk(s'.sent, s'.table.routes, n, k)
    {
      assert LogOk(s.sent, s.table.routes, n, k);
    }
    hide Orderly, Put;
    PutOrdered(w, n, s');
  }

  /** Reading a reply takes away at most a one-shot's route. */
  lemma ReadRoutes(s: Seat)
    requires s.read < |s.down|
    ensures var s' := Read(s);
            && s'.sent == s.sent && s'.owner == s.owner && s'.taken == s.taken
            && (forall id | id in s'.table.routes :: id in s.table.routes && s'.table.routes[id] == s.table.routes[id])
            && (forall id | id in s.table.routes && s.table.routes[id].persistent :: id in s'.table.routes)
  {
    var f := s.down[s.read].frame;
    if f.id in s.table.routes { ReplyRead(s.table, f); } else { ReplyUnknown(s.table, f); }
    hide HandleReply;
  }

  lemma ReadOrdered(w: World, n: Node)
    requires Ordered(w) && n in w.seats && w.seats[n].read < |w.seats[n].down|
    ensures Ordered(Put(w, n, Read(w.seats[n])))
  {
    ReadRoutes(w.seats[n]);
    hide Ordered, Read, Put;
    SilentOrdered(w, n, Read(w.seats[n]));
  }

  lemma DescendOrdered(w: World, n: Node)
    requires Inv(w) && Ordered(w) && n in w.seats && w.seats[n].read < |w.seats[n].down|
    ensures Ordered(Descend(w, n))
  {
    var s := w.seats[n];
    var a := s.down[s.read];
    var w1 := Put(w, n, Read(s));
    ReadOrdered(w, n);
    var write := HandleReply(s.table, BuildRoute(a.frame)).write;
    hide HandleReply, BuildRoute, Read, Put, Inv, Ordered;
    DeliverOrdered(w1, n, a, write);
  }

  lemma DeliverOrdered(w: World, n: Node, a: Answer, write: Write)
    requires Ordered(w)
    ensures Ordered(Deliver(w, n, a, write))
  {
    hide Put, Ordered;
    match write
    case Silent =>
    case Raw(to, bytes) => SeatsOrdered(w, Deliver(w, n, a, write));
    case Framed(to, f) =>
      if n + [to] in w.seats { SilentOrdered(w, n + [to], Push(w.seats[n + [to]], f, a.cause, a.root)); }
  }

  lemma SeatsOrdered(w: World, w': World)
    requires Ordered(w) && w'.seats == w.seats
    ensures Ordered(w')
  {
    hide Orderly;
    forall c, k: Talk | c in w'.seats && c != TOP && c <= k.node
      ensures EdgeAt(w', c, k)
    {
      assert EdgeAt(w, c, k);
    }
  }

  /** What the parent makes of the conduit's next frame, and what it leaves alone. */
  lemma ClimbOrderly(w: World, c: Node) returns (sent: Entry)
    requires Inv(w) && Ordered(w) && CanClimb(w, c)
    ensures var p, e := w.seats[Parent(c)], w.seats[c].sent[w.seats[c].taken];
            var p' := Hear(p, Conduit(c), e);
            && Orderly(p', Parent(c)) && p'.taken == p.taken && p'.sent == p.sent + [sent] && c <= e.talk.node
            && EdgeOk(p', Conduit(c), Take(w.seats[c]), e.talk)
            && forall k: Talk | k != e.talk :: Alike(p, p', k)
  {
    var n, h, child, p := Parent(c), Conduit(c), w.seats[c], w.seats[Parent(c)];
    var e := child.sent[child.taken];
    HeardWell(w, c);
    InOrder(w, c);
    assert EntryTidy(child.owner, e);
    assert EdgeAt(w, c, e.talk);
    assert Orderly(child, c) && Orderly(p, n);
    hide Inv, Ordered, SeatOk, OneRoute;
    NextFrame(p, h, child, c);
    assert e.talk.node != n;
    sent := HearOrderly(p, n, h, e);
    var p' := Hear(p, h, e);
    hide Hear, Orderly;
    forall k: Talk | k != e.talk
      ensures Alike(p, p', k)
    {
      Appended(p.sent, sent, k);
      if Lead(p.sent, k).Some? { LeadOwned(p, n, k); }
    }
    hide Tidy, Alike;
    EdgeMoves(p, p', h, child, sent);
  }

  lemma ClimbEdge(w: World, c: Node, sent: Entry, x: Node, k: Talk)
    requires CanClimb(w, c) && EdgeAt(w, x, k) && x <= k.node
    requires var p, e := w.seats[Parent(c)], w.seats[c].sent[w.seats[c].taken];
             var p' := Hear(p, Conduit(c), e);
             && p'.taken == p.taken && p'.sent == p.sent + [sent] && c <= e.talk.node
             && EdgeOk(p', Conduit(c), Take(w.seats[c]), e.talk)
             && sent.talk == e.talk
             && (k != e.talk ==> Alike(p, p', k))
    ensures EdgeAt(Climb(w, c), x, k)
  {
    var w' := Climb(w, c);
    var p, child := w.seats[Parent(c)], w.seats[c];
    var e := child.sent[child.taken];
    var p' := Hear(p, Conduit(c), e);
    ClimbPlaces(w, c);
    hide Hear, Climb, EdgeOk, Alike;
    if x == c {
      if k != e.talk { EdgeSkips(p, p', Conduit(c), child, k); }
    } else if Parent(x) == Parent(c) {
      SiblingsApart(x, c, k.node, e.talk.node);
      EdgeStays(p, p', Conduit(x), w.seats[x], w.seats[x], k);
    } else if x == Parent(c) {
      AlikeItself(w.seats[Parent(x)], w.seats[Parent(x)], k);
      EdgeStays(w.seats[Parent(x)], w.seats[Parent(x)], Conduit(x), p, p', k);
    } else if Parent(x) == c {
      AlikeItself(child, Take(child), k);
      EdgeStays(child, Take(child), Conduit(x), w.seats[x], w.seats[x], k);
    }
  }

  /** Where a climb leaves every mux. */
  lemma ClimbPlaces(w: World, c: Node)
    requires CanClimb(w, c)
    ensures var w' := Climb(w, c);
            && w'.seats.Keys == w.seats.Keys && Parent(c) != c
            && w'.seats[Parent(c)] == Hear(w.seats[Parent(c)], Conduit(c), w.seats[c].sent[w.seats[c].taken])
            && w'.seats[c] == Take(w.seats[c])
            && forall m | m in w.seats && m != c && m != Parent(c) :: w'.seats[m] == w.seats[m]
  {
    hide Hear;
  }

  /** A frame for someone else passes. */
  lemma EdgeSkips(p: Seat, p': Seat, h: Handle, c: Seat, k: Talk)
    requires c.taken < |c.sent| && EdgeOk(p, h, c, k) && c.sent[c.taken].talk != k && Alike(p, p', k)
    ensures EdgeOk(p', h, Take(c), k)
  {
    EdgeStays(p, p', h, c, c, k);
    assert c.sent[..c.taken + 1] == c.sent[..c.taken] + [c.sent[c.taken]];
    Appended(c.sent[..c.taken], c.sent[c.taken], k);
  }

  /** What is below one conduit is not below another. */
  lemma SiblingsApart(x: Node, c: Node, a: Node, b: Node)
    requires x != TOP && c != TOP && x != c && Parent(x) == Parent(c) && x <= a && c <= b
    ensures a != b
  {
    assert |x| == |c| && x == a[..|x|] && c == b[..|c|];
  }

  lemma ClimbMuxes(w: World, c: Node, n: Node)
    requires Ordered(w) && CanClimb(w, c) && n in Climb(w, c).seats
    requires Orderly(Hear(w.seats[Parent(c)], Conduit(c), w.seats[c].sent[w.seats[c].taken]), Parent(c))
    ensures Orderly(Climb(w, c).seats[n], n)
  {
    ClimbPlaces(w, c);
    assert Orderly(w.seats[n], n);
    hide Hear, Climb, Ordered;
  }

  lemma ClimbOrdered(w: World, c: Node)
    requires Inv(w) && Ordered(w) && CanClimb(w, c)
    ensures Ordered(Climb(w, c))
  {
    var sent := ClimbOrderly(w, c);
    var w' := Climb(w, c);
    ClimbPlaces(w, c);
    hide Orderly, Alike, EdgeOk, Climb, Hear, EdgeAt, Inv;
    forall n | n in w'.seats
      ensures Orderly(w'.seats[n], n)
    {
      ClimbMuxes(w, c, n);
    }
    forall x, k: Talk | x in w'.seats && x != TOP && x <= k.node
      ensures EdgeAt(w', x, k)
    {
      assert EdgeAt(w, x, k);
      ClimbEdge(w, c, sent, x, k);
    }
  }

  // ----- Whole runs -----

  lemma StartOrdered(nodes: set<Node>)
    requires Tree(nodes)
    ensures Ordered(Start(nodes))
  {
    var w := Start(nodes);
    forall n | n in w.seats
      ensures Orderly(w.seats[n], n)
    {
      assert w.seats[n] == Seat(Fresh(), map[], map[], [], 0, [], 0);
    }
    forall c, k: Talk | c in w.seats && c != TOP && c <= k.node
      ensures EdgeAt(w, c, k)
    {
      assert w.seats[c] == w.seats[Parent(c)] == Seat(Fresh(), map[], map[], [], 0, [], 0);
    }
  }

  lemma ClientOrdered(w: World, n: Node, from: Handle, line: seq<Byte>)
    requires Inv(w) && Ordered(w)
    ensures Ordered(Saying(w, n, from, line)) && Ordered(Leaving(w, n, from))
  {
    hide Inv, Ordered, Put, Say, Leave;
    if CanSay(w, n, from, line) { SayOrdered(w, n, from, line); }
    if n in w.seats && (n, from) !in w.gone {
      LeaveOrdered(w, n, from);
      SeatsOrdered(Put(w, n, Leave(w.seats[n], from)), Leaving(w, n, from));
    }
  }

  lemma ConduitOrdered(w: World, n: Node)
    requires Inv(w) && Ordered(w)
    ensures Ordered(Climbing(w, n)) && Ordered(Descending(w, n))
  {
    hide Inv, Ordered, Climb, Descend;
    if CanClimb(w, n) { ClimbOrdered(w, n); }
    if n in w.seats && w.seats[n].read < |w.seats[n].down| { DescendOrdered(w, n); }
  }

  lemma StepOrdered(w: World, e: Event)
    requires Inv(w) && Ordered(w)
    ensures Ordered(Step(w, e))
  {
    assert TOP in w.seats;
    hide Inv, Ordered, Saying, Climbing, Hearing, Answering, Descending, Leaving;
    match e
    case Says(n, from, line) => ClientOrdered(w, n, from, line);
    case Climbs(c) => ConduitOrdered(w, c);
    case Hears => SilentTop(w, 0, []);
    case Answers(cause, text) => SilentTop(w, cause, text);
    case Descends(n) => ConduitOrdered(w, n);
    case Leaves(n, from) => ClientOrdered(w, n, from, []);
  }

  lemma SilentTop(w: World, cause: nat, text: seq<Byte>)
    requires Ordered(w) && TOP in w.seats
    ensures Ordered(Hearing(w)) && Ordered(Answering(w, cause, text))
  {
    var s := w.seats[TOP];
    hide Ordered, Put;
    SilentOrdered(w, TOP, Take(s));
    if cause < |s.sent| { SilentOrdered(w, TOP, Reply(s, s.sent[cause].frame.id, cause, text)); }
  }

  lemma {:induction false} RunOrdered(nodes: set<Node>, events: seq<Event>)
    requires Tree(nodes)
    ensures Ordered(Run(nodes, events)) && Inv(Run(nodes, events))
    decreases |events|
  {
    hide Inv, Ordered, Step, Start;
    RunInv(nodes, events);
    if events == [] {
      StartOrdered(nodes);
    } else {
      RunOrdered(nodes, events[..|events| - 1]);
      StepOrdered(Run(nodes, events[..|events| - 1]), events[|events| - 1]);
    }
  }
}
