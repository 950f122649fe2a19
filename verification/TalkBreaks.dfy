/**
 The converse of order within a talk: once a talk has a second id at the top whose way down is whole,
 some further answers reach its client with an earlier one missing.
 */
module TalkBreaks {
  import opened Bytes
  import ApcFrames
  import ApcLaws
  import opened Routing
  import opened RoutingTree
  import opened RoutingOrder
  import opened RoutingLaws
  import opened RoutingReplies
  import opened ReplyLaws
  import opened TalkLaws

  // ----- Reading what is there -----

  /** Only replies moved: what leads them is as it was, but for one-shots' routes. */
  ghost predicate SunkAt(s: Seat, s': Seat) {
    && s'.made == s.made && s'.sent == s.sent
    && (forall id | id in s.made && s.made[id].persistent && id in s.table.routes :: id in s'.table.routes)
    && (forall id | id in s'.table.routes :: id in s.table.routes)
  }

  /** ... and under `q`, which has no route at the top, nothing more came to the muxes below it. */
  ghost predicate Sunk(w: World, w': World, q: nat) {
    && w'.seats.Keys == w.seats.Keys && w'.gone == w.gone && TOP in w.seats
    && (forall x {:trigger SunkAt(w.seats[x], w'.seats[x])} | x in w.seats :: SunkAt(w.seats[x], w'.seats[x]))
    && (q !in w.seats[TOP].table.routes ==>
          forall x | x in w.seats && |x| == 1 :: Under(w'.seats[x].down, q) == Under(w.seats[x].down, q))
  }

  lemma SunkTwice(w: World, w1: World, w2: World, q: nat)
    requires Sunk(w, w1, q) && Sunk(w1, w2, q)
    ensures Sunk(w, w2, q)
  {
    forall x | x in w.seats
      ensures SunkAt(w.seats[x], w2.seats[x])
    {
      assert SunkAt(w.seats[x], w1.seats[x]) && SunkAt(w1.seats[x], w2.seats[x]);
    }
    assert SunkAt(w.seats[TOP], w1.seats[TOP]);
  }

  /** Reading at `x` touches it and one mux below. */
  ghost predicate Apart(w: World, w': World, x: Node) {
    && w'.seats.Keys == w.seats.Keys && x in w.seats && w'.seats[x].down == w.seats[x].down
    && forall y | y in w.seats && |y| <= |x| && y != x :: w'.seats[y] == w.seats[y]
  }

  lemma ReadSunk(s: Seat)
    requires Known(s) && s.read < |s.down|
    ensures SunkAt(s, Read(s))
  {
    ReadIs(s);
    RouteMade(s);
    hide Read, Known;
  }

  /** A reply that goes on from the top is not one under `q`. */
  lemma NotUnder(w: World, x: Node, a: Answer, q: nat)
    requires Replies(w) && x in w.seats && w.seats[x].read < |w.seats[x].down| && a == w.seats[x].down[w.seats[x].read]
    requires TOP in w.seats && q !in w.seats[TOP].table.routes && Passes(w, x, a) != [] && x == TOP
    ensures a.root != q
  {
    assert PlacedAt(w, x);
    assert Placed(w, x, a);
    hide Replies, PlacedAt, ApcLaws.Safe;
  }

  /** Whether the reply read goes on to a mux, and as what. */
  lemma WhereTo(w: World, x: Node, a: Answer) returns (c: Node, b: Answer)
    requires Replies(w) && x in w.seats && w.seats[x].read < |w.seats[x].down| && a == w.seats[x].down[w.seats[x].read]
    ensures var w1, w' := Put(w, x, Read(w.seats[x])), Descend(w, x);
            || w' == w1.(got := w'.got)
            || (&& c in w.seats && |c| == |x| + 1 && b.root == a.root && Passes(w, x, a) != []
                && w' == Put(w1, c, w.seats[c].(down := w.seats[c].down + [b])))
  {
    assert MuxOk(w, x);
    DescendIs(w, x, a);
    RouteMade(w.seats[x]);
    var routes := w.seats[x].table.routes;
    c, b := x, a;
    if a.frame.id in routes && routes[a.frame.id].inner.Some? {
      LinkBelow(w, x, a.frame.id);
      c := x + [routes[a.frame.id].to];
      b := Answer(Frame(routes[a.frame.id].inner.value, a.frame.inner), a.cause, a.root);
    }
    hide Replies, Descend, Read, Known, MuxOk;
  }

  /** One mux reads, one below it gets a reply. */
  lemma PushSunk(w: World, w': World, x: Node, s: Seat, c: Node, b: Answer, q: nat)
    requires x in w.seats && c in w.seats && TOP in w.seats && |c| == |x| + 1 && SunkAt(w.seats[x], s)
    requires s.down == w.seats[x].down
    requires w' == Put(Put(w, x, s), c, w.seats[c].(down := w.seats[c].down + [b]))
    requires x == TOP && q !in w.seats[TOP].table.routes ==> b.root != q
    ensures Sunk(w, w', q) && Apart(w, w', x) && w'.seats[x] == s
  {
    hide SunkAt, Under;
    if q !in w.seats[TOP].table.routes { PushUnder(w, w', x, s, c, b, q); }
    forall y | y in w.seats
      ensures SunkAt(w.seats[y], w'.seats[y])
    {
      if y != x { SunkSame(w.seats[y], w'.seats[y]); }
    }
  }

  lemma PushUnder(w: World, w': World, x: Node, s: Seat, c: Node, b: Answer, q: nat)
    requires x in w.seats && c in w.seats && |c| == |x| + 1 && s.down == w.seats[x].down
    requires w' == Put(Put(w, x, s), c, w.seats[c].(down := w.seats[c].down + [b]))
    requires x == TOP ==> b.root != q
    ensures forall y | y in w.seats && |y| == 1 :: Under(w'.seats[y].down, q) == Under(w.seats[y].down, q)
  {
    UnderNext(w.seats[c].down, b, q);
    hide Under;
  }

  lemma SunkSame(s: Seat, s': Seat)
    requires s' == s.(down := s'.down)
    ensures SunkAt(s, s')
  {
  }

  lemma DescendSunk(w: World, x: Node, q: nat)
    requires Inv(w) && Replies(w) && x in w.seats && w.seats[x].read < |w.seats[x].down|
    ensures var w' := Descend(w, x);
            Sunk(w, w', q) && Apart(w, w', x) && w'.seats[x].read == w.seats[x].read + 1
  {
    assert TOP in w.seats by { InvTop(w); }
    assert MuxOk(w, x);
    var s := Read(w.seats[x]);
    var a := w.seats[x].down[w.seats[x].read];
    ReadIs(w.seats[x]);
    ReadSunk(w.seats[x]);
    var c, b := WhereTo(w, x, a);
    hide Inv, Replies, Descend, Read, Known, Under, Passes, MuxOk, SunkAt;
    if x == TOP && q !in w.seats[TOP].table.routes && Passes(w, x, a) != [] { NotUnder(w, x, a, q); }
    if Descend(w, x) == Put(w, x, s).(got := Descend(w, x).got) {
      forall y | y in w.seats
        ensures SunkAt(w.seats[y], Descend(w, x).seats[y])
      {
        if y != x { SunkSame(w.seats[y], w.seats[y]); }
      }
    } else {
      PushSunk(w, Descend(w, x), x, s, c, b, q);
    }
  }

  /** No answer among them. */
  predicate Mute(events: seq<Event>) { forall e | e in events :: !e.Answers? }

  lemma {:induction false} MuteAnswers(nodes: set<Node>, events: seq<Event>, more: seq<Event>, k: Talk, q: nat)
    requires Mute(more)
    ensures AnsweredFor(nodes, events + more, k) == AnsweredFor(nodes, events, k)
    ensures AnsweredUnder(nodes, events + more, q) == AnsweredUnder(nodes, events, q)
    decreases |more|
  {
    if more == [] {
      assert events + more == events;
    } else {
      var init := more[..|more| - 1];
      MuteAnswers(nodes, events, init, k, q);
      assert (events + more)[..|events + more| - 1] == events + init;
      hide Run, CanAnswer;
      var texts, under := AnsweredFor(nodes, events + init, k), AnsweredUnder(nodes, events + init, q);
      assert texts + [] == texts && under + [] == under;
    }
  }

  lemma RunDescends(nodes: set<Node>, events: seq<Event>, x: Node)
    requires var w := Run(nodes, events); x in w.seats && w.seats[x].read < |w.seats[x].down|
    ensures Run(nodes, events + [Descends(x)]) == Descend(Run(nodes, events), x)
  {
    RunNext(nodes, events, Descends(x));
    hide Run, Descend;
  }

  lemma ApartTwice(w: World, w1: World, w2: World, x: Node)
    requires Apart(w, w1, x) && Apart(w1, w2, x)
    ensures Apart(w, w2, x)
  {
  }

  /** `x` reads all it was sent. */
  lemma {:induction false} DrainAt(nodes: set<Node>, events: seq<Event>, x: Node, q: nat) returns (more: seq<Event>)
    requires Tree(nodes) && x in Run(nodes, events).seats
    requires Run(nodes, events).seats[x].read <= |Run(nodes, events).seats[x].down|
    ensures Mute(more)
    ensures var w, w' := Run(nodes, events), Run(nodes, events + more);
            && Sunk(w, w', q) && Apart(w, w', x)
            && x in w'.seats && w'.seats[x].read == |w'.seats[x].down|
    decreases |Run(nodes, events).seats[x].down| - Run(nodes, events).seats[x].read
  {
    hide Run, Inv, Replies, Sunk, Descend, Tree;
    var w := Run(nodes, events);
    RunReplies(nodes, events);
    if w.seats[x].read == |w.seats[x].down| {
      more := [];
      assert events + more == events;
      SunkItself(w, q);
    } else {
      var next := events + [Descends(x)];
      DescendSunk(w, x, q);
      RunDescends(nodes, events, x);
      var rest := DrainAt(nodes, next, x, q);
      more := [Descends(x)] + rest;
      assert events + more == next + rest;
      SunkTwice(w, Run(nodes, next), Run(nodes, events + more), q);
      ApartTwice(w, Run(nodes, next), Run(nodes, events + more), x);
    }
  }

  lemma SunkItself(w: World, q: nat)
    requires Inv(w)
    ensures Sunk(w, w, q)
  {
    assert TOP in w.seats by { InvTop(w); }
    hide Inv;
  }

  /** The first `m` muxes on the way to `n` have read all they were sent. */
  ghost predicate ReadTo(w: World, n: Node, m: nat)
    requires m <= |n| + 1
  {
    forall i: nat | i < m :: n[..i] in w.seats && w.seats[n[..i]].read == |w.seats[n[..i]].down|
  }

  lemma ReadNext(w: World, w': World, n: Node, m: nat)
    requires m <= |n| && ReadTo(w, n, m) && Apart(w, w', n[..m])
    requires n[..m] in w'.seats && w'.seats[n[..m]].read == |w'.seats[n[..m]].down|
    ensures ReadTo(w', n, m + 1)
  {
    forall i: nat | i < m + 1
      ensures n[..i] in w'.seats && w'.seats[n[..i]].read == |w'.seats[n[..i]].down|
    {
      if i < m { assert |n[..i]| < |n[..m]|; }
    }
  }

  lemma ReadNone(w: World, n: Node)
    ensures ReadTo(w, n, 0)
  {
  }

  /** The muxes on the way to `n` are there. */
  ghost predicate Lined(w: World, n: Node) { forall m: nat | m <= |n| :: n[..m] in w.seats }

  lemma LinedAt(w: World, n: Node, m: nat)
    requires Lined(w, n) && m <= |n|
    ensures n[..m] in w.seats
  {
  }

  lemma SeatsSame(w: World, w': World, q: nat, n: Node)
    requires Sunk(w, w', q) && n in w.seats
    ensures n in w'.seats
  {
  }

  /** Every mux on the way to `n` in turn, from the top, reads all it was sent. */
  lemma {:induction false} DrainTo(nodes: set<Node>, events: seq<Event>, n: Node, m: nat, q: nat)
    returns (more: seq<Event>)
    requires Tree(nodes) && m <= |n| + 1 && Lined(Run(nodes, events), n)
    ensures Mute(more) && Sunk(Run(nodes, events), Run(nodes, events + more), q)
    ensures ReadTo(Run(nodes, events + more), n, m)
    decreases m
  {
    hide Run, Inv, Replies, Known, Sunk, Apart, ReadTo, Tree, Lined;
    var w := Run(nodes, events);
    RunReplies(nodes, events);
    if m == 0 {
      more := [];
      assert events + more == events;
      SunkItself(w, q);
      ReadNone(w, n);
    } else {
      var first := DrainTo(nodes, events, n, m - 1, q);
      var w1, x := Run(nodes, events + first), n[..m - 1];
      RunReplies(nodes, events + first);
      LinedAt(w, n, m - 1);
      SeatsSame(w, w1, q, x);
      MuxKnown(w1, x);
      var rest := DrainAt(nodes, events + first, x, q);
      more := first + rest;
      assert events + more == events + first + rest;
      SunkTwice(w, w1, Run(nodes, events + more), q);
      ReadNext(w1, Run(nodes, events + more), n, m - 1);
    }
  }

  /** The wrapper hears all that has come up. */
  lemma {:induction false} HearAll(nodes: set<Node>, events: seq<Event>) returns (more: seq<Event>)
    requires TOP in Run(nodes, events).seats
    requires Run(nodes, events).seats[TOP].taken <= |Run(nodes, events).seats[TOP].sent|
    ensures Mute(more)
    ensures var w := Run(nodes, events);
            Run(nodes, events + more) == Put(w, TOP, w.seats[TOP].(taken := |w.seats[TOP].sent|))
    decreases |Run(nodes, events).seats[TOP].sent| - Run(nodes, events).seats[TOP].taken
  {
    var w := Run(nodes, events);
    if w.seats[TOP].taken == |w.seats[TOP].sent| {
      more := [];
      assert events + more == events;
      assert w.seats[TOP := w.seats[TOP]] == w.seats;
    } else {
      RunNext(nodes, events, Hears);
      hide Run;
      var rest := HearAll(nodes, events + [Hears]);
      more := [Hears] + rest;
      assert events + more == events + [Hears] + rest;
    }
  }

  // ----- Texts -----

  /** A length that no text has. */
  function Longer(texts: seq<seq<Byte>>): nat {
    if texts == [] then 1 else Longer(texts[1..]) + |texts[0]|
  }

  lemma {:induction false} LongerThan(texts: seq<seq<Byte>>)
    ensures forall t | t in texts :: |t| < Longer(texts)
    ensures Longer(texts) >= 1
  {
    if texts != [] { LongerThan(texts[1..]); }
  }

  function Letters(n: nat): seq<Byte> { seq(n, _ => 97) }

  lemma LettersSafe(n: nat)
    ensures ApcLaws.Safe(Letters(n)) && |Letters(n)| == n
  {
    assert forall b | b in Letters(n) :: b == 97;
    ApcFrames.QuietIsSafe(Letters(n));
  }

  lemma {:induction false} NonEmptyIn(texts: seq<seq<Byte>>, t: seq<Byte>)
    ensures t in NonEmpty(texts) <==> t in texts && t != []
  {
    if texts != [] {
      NonEmptyIn(texts[..|texts| - 1], t);
      assert t in texts <==> t in texts[..|texts| - 1] || t == texts[|texts| - 1];
    }
  }

  /** What is handed for a talk, reply by reply. */
  lemma {:induction false} GotHas(got: seq<Got>, k: Talk, t: seq<Byte>)
    ensures t in GotTexts(got, k)
            <==> exists g :: g in got && g.node == k.node && g.client == k.client && g.id == k.id && g.text == t
  {
    if got != [] {
      GotHas(got[..|got| - 1], k, t);
      assert forall g :: g in got <==> g in got[..|got| - 1] || g == got[|got| - 1];
    }
  }

  lemma {:induction false} HandedHas(got: seq<Got>, n: Node, q: nat, t: seq<Byte>)
    ensures t in Handed(got, n, q) <==> exists g :: g in got && g.node == n && g.root == q && g.text == t
  {
    if got != [] {
      HandedHas(got[..|got| - 1], n, q, t);
      assert forall g :: g in got <==> g in got[..|got| - 1] || g == got[|got| - 1];
    }
  }

  /** With the later of two new texts and without the earlier, a list is no beginning of the whole. */
  lemma NoPrefix(got: seq<seq<Byte>>, before: seq<seq<Byte>>, early: seq<Byte>, late: seq<Byte>)
    requires late in got && early !in got && late !in before && late != early
    ensures !(got <= before + [early, late])
  {
    var i :| 0 <= i < |got| && got[i] == late;
    assert |before| < |got| ==> got[|before|] in got;
  }

  // ----- Where an answer can be -----

  /** What is answered under an id of `k` is answered to `k`. */
  lemma {:induction false} UnderIsFor(nodes: set<Node>, events: seq<Event>, all: World, k: Talk, q: nat, t: seq<Byte>)
    requires Tree(nodes) && Inv(all) && Replies(all) && TopOwns(all, q, k)
    requires TOP in Run(nodes, events).seats && Run(nodes, events).seats[TOP].sent <= all.seats[TOP].sent
    requires t in AnsweredUnder(nodes, events, q)
    ensures t in AnsweredFor(nodes, events, k)
    decreases |events|
  {
    var init, e := events[..|events| - 1], events[|events| - 1];
    var w := Run(nodes, init);
    RunInv(nodes, init);
    hide Inv, Step, CanAnswer, Replies, TopOwns;
    assert TOP in w.seats by { InvTop(w); }
    TopSent(w, e);
    if t in AnsweredUnder(nodes, init, q) {
      UnderIsFor(nodes, init, all, k, q, t);
    } else {
      OwnTalk(w, all, k, q, e.cause, e.text);
    }
  }

  lemma OwnTalk(w: World, all: World, k: Talk, q: nat, cause: nat, text: seq<Byte>)
    requires Inv(all) && Replies(all) && TopOwns(all, q, k) && TOP in w.seats && CanAnswer(w, cause, text)
    requires w.seats[TOP].sent <= all.seats[TOP].sent && w.seats[TOP].sent[cause].frame.id == q
    ensures w.seats[TOP].sent[cause].talk == k
  {
    HeardOwner(all, cause);
    hide Inv, Replies, ApcLaws.Safe;
    assert all.seats[TOP].sent[cause] == w.seats[TOP].sent[cause];
  }

  /** What came to a mux came to the first on the way to it. */
  lemma {:induction false} BelowFirst(w: World, n: Node, q: nat, t: seq<Byte>)
    requires Replies(w) && Trail(w, n, q).Some? && n != TOP && n in w.seats && t in Under(w.seats[n].down, q)
    ensures n[..1] in w.seats && t in Under(w.seats[n[..1]].down, q)
    decreases |n|
  {
    var p := Parent(n);
    if p == TOP {
      assert n[..1] == n;
    } else {
      var r := w.seats[p].made[Trail(w, p, q).value];
      FlowingIn(w, p, q);
      assert p + [Conduit(n)] == n;
      DownStep(w, p, n, q, r);
      BelowFirst(w, p, q, t);
      assert p[..1] == n[..1];
    }
  }

  lemma HandedBelow(w: World, n: Node, q: nat, t: seq<Byte>)
    requires Replies(w) && t in Handed(w.got, n, q)
    ensures Trail(w, n, q).Some? && n in w.seats && t in Under(w.seats[n].down, q)
  {
    HandedLocally(w, n, q);
    FlowingIn(w, n, q);
    var r, texts := w.seats[n].made[Trail(w, n, q).value], Under(w.seats[n].down, q);
    HandedStep(w, n, q, r);
    NonEmptyIn(if r.persistent then texts else First(texts), t);
    hide Replies, Trail, Under, Handed, NonEmpty, FlowAt;
  }

  // ----- Two more answers -----

  lemma AnswerOne(nodes: set<Node>, events: seq<Event>, i: nat, text: seq<Byte>, k: Talk, r: nat)
    requires CanAnswer(Run(nodes, events), i, text) && Run(nodes, events).seats[TOP].sent[i].talk == k
    ensures var w, more := Run(nodes, events), events + [Answers(i, text)];
            var q := w.seats[TOP].sent[i].frame.id;
            && Run(nodes, more) == Put(w, TOP, Reply(w.seats[TOP], q, i, text))
            && AnsweredFor(nodes, more, k) == AnsweredFor(nodes, events, k) + [text]
            && AnsweredUnder(nodes, more, r) == AnsweredUnder(nodes, events, r) + if q == r then [text] else []
  {
    RunNext(nodes, events, Answers(i, text));
    assert (events + [Answers(i, text)])[..|events|] == events;
    hide Run, ApcLaws.Safe;
  }

  lemma AnswerTwo(nodes: set<Node>, events: seq<Event>, i: nat, j: nat, early: seq<Byte>, late: seq<Byte>, k: Talk,
                  r: nat)
    requires CanAnswer(Run(nodes, events), i, early) && Run(nodes, events).seats[TOP].sent[i].talk == k
    requires CanAnswer(Run(nodes, events), j, late) && Run(nodes, events).seats[TOP].sent[j].talk == k
    ensures var w, more := Run(nodes, events), events + [Answers(i, early)] + [Answers(j, late)];
            var q1, q2 := w.seats[TOP].sent[i].frame.id, w.seats[TOP].sent[j].frame.id;
            && Run(nodes, more) == Put(w, TOP, Reply(Reply(w.seats[TOP], q1, i, early), q2, j, late))
            && AnsweredFor(nodes, more, k) == AnsweredFor(nodes, events, k) + [early] + [late]
            && AnsweredUnder(nodes, more, r)
               == AnsweredUnder(nodes, events, r) + (if q1 == r then [early] else []) + (if q2 == r then [late] else [])
  {
    AnswerOne(nodes, events, i, early, k, r);
    hide Run, ApcLaws.Safe, AnsweredFor, AnsweredUnder;
    AnswerOne(nodes, events + [Answers(i, early)], j, late, k, r);
  }

  /** The seat at the top may hear and be answered: what leads replies is as it was. */
  lemma TopSunk(w: World, s: Seat, q: nat)
    requires TOP in w.seats && SunkAt(w.seats[TOP], s)
    ensures Sunk(w, Put(w, TOP, s), q)
  {
    forall x | x in w.seats
      ensures SunkAt(w.seats[x], Put(w, TOP, s).seats[x])
    {
      if x != TOP { SunkSame(w.seats[x], w.seats[x]); }
    }
    hide SunkAt, Under;
  }

  lemma WholeSunk(w: World, w': World, q: nat, n: Node, q2: nat)
    requires Sunk(w, w', q) && Whole(w, n, q2)
    ensures Whole(w', n, q2)
  {
    forall m: nat {:trigger n[..m]} | m < |n|
      ensures Trail(w', n[..m], q2) == Trail(w, n[..m], q2)
    {
      SunkTrail(w, w', q, n[..m], q2);
    }
    hide Trail;
    forall m: nat {:trigger n[..m]} | m < |n|
      ensures n[..m] in w.seats && n[..m] in w'.seats && SunkAt(w.seats[n[..m]], w'.seats[n[..m]])
    {
      assert n[..m] in w.seats;
    }
  }

  lemma SunkTrail(w: World, w': World, q: nat, n: Node, q2: nat)
    requires Sunk(w, w', q)
    ensures Trail(w', n, q2) == Trail(w, n, q2)
  {
    forall x | x in w.seats
      ensures w'.seats[x].made == w.seats[x].made
    {
      assert SunkAt(w.seats[x], w'.seats[x]);
    }
    hide Sunk, SunkAt;
    TrailSame(w, w', n, q2);
  }

  // ----- The converse -----

  /** A talk with a second id at the top: its first id has lost its route there. */
  lemma Split(w: World, k: Talk, j: nat) returns (i: nat)
    requires Inv(w) && Replies(w) && Ordered(w) && TOP in w.seats && j < |w.seats[TOP].sent|
    requires w.seats[TOP].sent[j].talk == k && Lead(w.seats[TOP].sent, k) != Some(w.seats[TOP].sent[j].frame.id)
    ensures var log := w.seats[TOP].sent;
            && i < |log| && log[i].talk == k && log[i].frame.id != log[j].frame.id
            && log[i].frame.id !in w.seats[TOP].table.routes && k.node != TOP
  {
    var s, log := w.seats[TOP], w.seats[TOP].sent;
    LeadIs(log, k);
    assert log[j] in log;
    var e :| e in log && e.talk == k && Lead(log, k) == Some(e.frame.id);
    i :| 0 <= i < |log| && log[i] == e;
    HeardOwner(w, i);
    HeardOwner(w, j);
    assert Orderly(s, TOP);
    MuxFacts(w, TOP);
    assert LogOk(log, s.table.routes, TOP, k);
    hide Inv, Replies, Ordered, Lead, Closed, Tidy, TopOwns, Steady;
    if !k.tunnel { OneShotId(w, k, log[i].frame.id, log[j].frame.id); }
    if k.node == TOP { OwnSole(s, k); }
    if k.tunnel && !Closed(log, k) { OpenSole(log, k); }
  }

  /** Nothing answered under `q1`, whose route at the top is gone, gets any further. */
  lemma Stuck(w: World, w': World, k: Talk, q1: nat, early: seq<Byte>)
    requires Replies(w) && Replies(w') && Sunk(w, w', q1) && q1 !in w.seats[TOP].table.routes && k.node != TOP
    requires early !in Under(w.seats[TOP].down, q1)
    ensures early !in Handed(w'.got, k.node, q1)
  {
    if early in Handed(w'.got, k.node, q1) {
      HandedBelow(w', k.node, q1, early);
      BelowFirst(w', k.node, q1, early);
      StuckFirst(w, w', k.node, q1, early);
    }
  }

  lemma StuckFirst(w: World, w': World, n: Node, q1: nat, early: seq<Byte>)
    requires Replies(w) && Sunk(w, w', q1) && q1 !in w.seats[TOP].table.routes && n != TOP
    requires Trail(w', n, q1).Some? && n[..1] in w'.seats && early !in Under(w.seats[TOP].down, q1)
    ensures early !in Under(w'.seats[n[..1]].down, q1)
  {
    var c := n[..1];
    assert |c| == 1 && c in w.seats;
    TrailUpTo(w', n, q1);
    SunkTrail(w, w', q1, c, q1);
    DownPrefix(w, c, q1);
    hide Replies, Sunk, Trail, Under;
  }

  lemma {:induction false} TrailUpTo(w: World, n: Node, q: nat)
    requires Trail(w, n, q).Some? && n != TOP
    ensures Trail(w, n[..1], q).Some?
    decreases |n|
  {
    if |n| == 1 {
      assert n[..1] == n;
    } else {
      TrailUpTo(w, Parent(n), q);
      assert Parent(n)[..1] == n[..1];
    }
  }

  /** Of the answers under `r`, those two are new. */
  ghost predicate UnderTwice(nodes: set<Node>, events: seq<Event>, after: seq<Event>, q1: nat, q2: nat,
                             early: seq<Byte>, late: seq<Byte>, r: nat)
  {
    AnsweredUnder(nodes, after, r)
    == AnsweredUnder(nodes, events, r) + (if q1 == r then [early] else []) + (if q2 == r then [late] else [])
  }

  /** `early` was answered under `q1` and then `late` under `q2`, both ids of `k`, and nothing else. */
  ghost predicate Twice(nodes: set<Node>, events: seq<Event>, after: seq<Event>, k: Talk, q1: nat, q2: nat,
                        early: seq<Byte>, late: seq<Byte>)
  {
    && AnsweredFor(nodes, after, k) == AnsweredFor(nodes, events, k) + [early] + [late]
    && forall r :: UnderTwice(nodes, events, after, q1, q2, early, late, r)
  }

  lemma TwiceMute(nodes: set<Node>, events: seq<Event>, after: seq<Event>, more: seq<Event>, k: Talk, q1: nat, q2: nat,
                  early: seq<Byte>, late: seq<Byte>)
    requires Twice(nodes, events, after, k, q1, q2, early, late) && Mute(more)
    ensures Twice(nodes, events, after + more, k, q1, q2, early, late)
  {
    hide AnsweredFor, AnsweredUnder, Mute;
    MuteAnswers(nodes, after, more, k, q1);
    forall r
      ensures UnderTwice(nodes, events, after + more, q1, q2, early, late, r)
    {
      assert UnderTwice(nodes, events, after, q1, q2, early, late, r);
      MuteAnswers(nodes, after, more, k, r);
    }
  }

  /** The wrapper hears everything and answers twice. */
  lemma HeardAnswered(nodes: set<Node>, events: seq<Event>, k: Talk, i: nat, j: nat, early: seq<Byte>, late: seq<Byte>)
    returns (more: seq<Event>)
    requires Tree(nodes) && TOP in Run(nodes, events).seats && ApcLaws.Safe(early) && ApcLaws.Safe(late)
    requires var log := Run(nodes, events).seats[TOP].sent;
             i < |log| && j < |log| && log[i].talk == k && log[j].talk == k
    ensures var w, w' := Run(nodes, events), Run(nodes, events + more);
            var q1, q2 := w.seats[TOP].sent[i].frame.id, w.seats[TOP].sent[j].frame.id;
            Sunk(w, w', q1) && Twice(nodes, events, events + more, k, q1, q2, early, late)
  {
    var w := Run(nodes, events);
    var q1, q2 := w.seats[TOP].sent[i].frame.id, w.seats[TOP].sent[j].frame.id;
    RunReplies(nodes, events);
    MuxFacts(w, TOP);
    assert w.seats[TOP].taken <= |w.seats[TOP].sent|;
    hide Run, Inv, Replies, Tidy, AnsweredFor, AnsweredUnder, ApcLaws.Safe, Sunk, Mute, Tree;
    var hears := HearAll(nodes, events);
    var heard := events + hears;
    var both := heard + [Answers(i, early)] + [Answers(j, late)];
    more := hears + [Answers(i, early)] + [Answers(j, late)];
    assert events + more == both;
    AnswerTwo(nodes, heard, i, j, early, late, k, q1);
    assert Run(nodes, both) == Put(w, TOP, Run(nodes, both).seats[TOP]);
    TopSunk(w, Run(nodes, both).seats[TOP], q1);
    MuteAnswers(nodes, events, hears, k, q1);
    forall r
      ensures UnderTwice(nodes, events, both, q1, q2, early, late, r)
    {
      MuteAnswers(nodes, events, hears, k, r);
      AnswerTwo(nodes, heard, i, j, early, late, k, r);
    }
  }

  /** ... and then the muxes on the way read all they are sent. */
  lemma Continued(nodes: set<Node>, events: seq<Event>, k: Talk, i: nat, j: nat, early: seq<Byte>, late: seq<Byte>)
    returns (more: seq<Event>)
    requires Tree(nodes) && TOP in Run(nodes, events).seats && ApcLaws.Safe(early) && ApcLaws.Safe(late)
    requires var log := Run(nodes, events).seats[TOP].sent;
             i < |log| && j < |log| && log[i].talk == k && log[j].talk == k
    ensures var w, w' := Run(nodes, events), Run(nodes, events + more);
            var q1, q2 := w.seats[TOP].sent[i].frame.id, w.seats[TOP].sent[j].frame.id;
            && Sunk(w, w', q1) && AllRead(w', k.node)
            && Twice(nodes, events, events + more, k, q1, q2, early, late)
  {
    hide Run, Inv, Replies, ApcLaws.Safe, Sunk, AllRead, ReadTo, Mute, Tree, Twice, Lined;
    var w := Run(nodes, events);
    var q1, q2 := w.seats[TOP].sent[i].frame.id, w.seats[TOP].sent[j].frame.id;
    RunReplies(nodes, events);
    var first := HeardAnswered(nodes, events, k, i, j, early, late);
    var both := events + first;
    HomeSeats(w, Run(nodes, both), k, i, q1);
    var rest := DrainTo(nodes, both, k.node, |k.node| + 1, q1);
    more := first + rest;
    assert events + more == both + rest;
    SunkTwice(w, Run(nodes, both), Run(nodes, both + rest), q1);
    ReadAll(Run(nodes, both + rest), k.node);
    TwiceMute(nodes, events, both, rest, k, q1, q2, early, late);
  }

  lemma ReadAll(w: World, n: Node)
    requires ReadTo(w, n, |n| + 1)
    ensures AllRead(w, n)
  {
  }

  /** The muxes on the way to a talk are in the tree. */
  lemma HomeSeats(w: World, w': World, k: Talk, i: nat, q: nat)
    requires Inv(w) && Replies(w) && Sunk(w, w', q) && TOP in w.seats && i < |w.seats[TOP].sent|
    requires w.seats[TOP].sent[i].talk == k
    ensures Lined(w', k.node)
  {
    HeardOwner(w, i);
    forall m: nat | m <= |k.node|
      ensures k.node[..m] in w'.seats
    {
      TrailTo(w, k, w.seats[TOP].sent[i].frame.id, m);
    }
    hide Inv, Replies, Trail;
  }

  /** The later answer is handed to the client. */
  lemma LateArrives(nodes: set<Node>, events: seq<Event>, k: Talk, q: nat, late: seq<Byte>)
    requires Tree(nodes) && TopOwns(Run(nodes, events), q, k) && late != []
    requires var w := Run(nodes, events); AllRead(w, k.node) && Whole(w, k.node, q) && (k.node, k.client) !in w.gone
    requires late in Owed(Run(nodes, events), q, AnsweredUnder(nodes, events, q))
    ensures late in GotTexts(Run(nodes, events).got, k)
  {
    var w := Run(nodes, events);
    RunReplies(nodes, events);
    TrailHome(w, k, q);
    RepliesArrive(nodes, events, k.node, q);
    NonEmptyIn(Owed(w, q, AnsweredUnder(nodes, events, q)), late);
    HandedHas(w.got, k.node, q, late);
    GotHas(w.got, k, late);
    var g :| g in w.got && g.node == k.node && g.root == q && g.text == late;
    assert GotPlaced(w, g);
    hide Inv, Replies, Run, AllRead, Whole, Owed, AnsweredUnder, TopOwns, Trail;
  }

  /** The earlier answer is not. */
  lemma EarlyNever(nodes: set<Node>, events: seq<Event>, more: seq<Event>, k: Talk, q1: nat, q2: nat,
                   early: seq<Byte>, late: seq<Byte>)
    requires Tree(nodes) && TopOwns(Run(nodes, events + more), q1, k) && k.node != TOP
    requires var w, w' := Run(nodes, events), Run(nodes, events + more);
             Sunk(w, w', q1) && q1 !in w.seats[TOP].table.routes
    requires Twice(nodes, events, events + more, k, q1, q2, early, late)
    requires early !in AnsweredFor(nodes, events, k) && early != late
    ensures early !in GotTexts(Run(nodes, events + more).got, k)
  {
    var w, w' := Run(nodes, events), Run(nodes, events + more);
    RunReplies(nodes, events);
    RunReplies(nodes, events + more);
    GotHas(w'.got, k, early);
    AnsweredDown(nodes, events, q1);
    TopSame(w, w', q1);
    hide Run, Inv, Replies, AnsweredFor, AnsweredUnder, TopOwns, Sunk, Under, NonEmpty, Owed, Handed, GotTexts;
    if early in GotTexts(w'.got, k) {
      var g :| g in w'.got && g.node == k.node && g.client == k.client && g.id == k.id && g.text == early;
      GotOwn(w', k, q1, g);
      HandedHas(w'.got, k.node, g.root, early);
      if g.root == q1 {
        if early in Under(w.seats[TOP].down, q1) { UnderIsFor(nodes, events, w', k, q1, early); }
        Stuck(w, w', k, q1, early);
      } else {
        RepliesInOrder(nodes, events + more, k.node, g.root);
        OwedIn(w', g.root, AnsweredUnder(nodes, events + more, g.root), early);
        assert UnderTwice(nodes, events, events + more, q1, q2, early, late, g.root);
        assert early in AnsweredUnder(nodes, events, g.root);
        UnderIsFor(nodes, events, w', k, g.root, early);
      }
    }
  }

  lemma OwedIn(w: World, q: nat, texts: seq<seq<Byte>>, t: seq<Byte>)
    requires t in NonEmpty(Owed(w, q, texts))
    ensures t in texts
  {
    NonEmptyIn(Owed(w, q, texts), t);
  }

  lemma TopSame(w: World, w': World, q: nat)
    requires Sunk(w, w', q)
    ensures TOP in w'.seats && w'.seats[TOP].sent == w.seats[TOP].sent && w'.seats[TOP].made == w.seats[TOP].made
  {
    assert SunkAt(w.seats[TOP], w'.seats[TOP]);
  }

  /** What the client of `k` was handed for it came under an id of `k`. */
  lemma GotOwn(w: World, k: Talk, q: nat, g: Got)
    requires Inv(w) && Replies(w) && TopOwns(w, q, k) && g in w.got && g.node == k.node && g.id == k.id
    ensures TopOwns(w, g.root, k)
  {
    TrailHome(w, k, q);
    SameOwner(w, k, q);
    assert GotPlaced(w, g);
    TrailOwner(w, g.node, g.root);
    hide Inv, Replies, Trail;
  }

  /** Two safe texts, neither of them there yet. */
  lemma FreshPair(before: seq<seq<Byte>>) returns (early: seq<Byte>, late: seq<Byte>)
    ensures ApcLaws.Safe(early) && ApcLaws.Safe(late) && early != late && early != [] && late != []
    ensures early !in before && late !in before
  {
    LongerThan(before);
    early, late := Letters(Longer(before)), Letters(Longer(before) + 1);
    LettersSafe(Longer(before));
    LettersSafe(Longer(before) + 1);
    hide ApcLaws.Safe, Letters, Longer;
  }

  lemma Broken(got: seq<seq<Byte>>, before: seq<seq<Byte>>, early: seq<Byte>, late: seq<Byte>)
    requires late in got && early !in got && late !in before && early != late && early != [] && late != []
    ensures !(got <= NonEmpty(before + [early] + [late]))
  {
    NonEmptyNext(before + [early], late);
    NonEmptyNext(before, early);
    NonEmptyIn(before, late);
    hide NonEmpty;
    assert NonEmpty(before) + [early] + [late] == NonEmpty(before) + [early, late];
    NoPrefix(got, NonEmpty(before), early, late);
  }

  lemma TwiceOwed(nodes: set<Node>, events: seq<Event>, after: seq<Event>, k: Talk, q1: nat, q2: nat,
                  early: seq<Byte>, late: seq<Byte>)
    requires Twice(nodes, events, after, k, q1, q2, early, late) && q1 != q2
    ensures AnsweredFor(nodes, after, k) == AnsweredFor(nodes, events, k) + [early] + [late]
    ensures AnsweredUnder(nodes, after, q2) == AnsweredUnder(nodes, events, q2) + [late]
  {
    hide AnsweredFor, AnsweredUnder;
    assert UnderTwice(nodes, events, after, q1, q2, early, late, q2);
    assert AnsweredUnder(nodes, events, q2) + [] == AnsweredUnder(nodes, events, q2);
  }

  lemma LateOwed(w: World, q: nat, texts: seq<seq<Byte>>, late: seq<Byte>)
    requires TOP in w.seats && q in w.seats[TOP].made && (w.seats[TOP].made[q].persistent || texts == [])
    ensures late in Owed(w, q, texts + [late])
  {
    assert (texts + [late])[|texts|] == late;
  }

  lemma GoneSame(w: World, w': World, q: nat)
    requires Sunk(w, w', q)
    ensures w'.gone == w.gone
  {
  }

  /**
   The converse. A talk with a second id at the top, whose way down from there is whole, and under which
   nothing was answered yet if it is no tunnel's: after some further answers, its client has been handed a
   later one and not an earlier one.
   */
  lemma OrderBreaks(nodes: set<Node>, events: seq<Event>, k: Talk, j: nat) returns (more: seq<Event>)
    requires Tree(nodes) && TOP in Run(nodes, events).seats
    requires var w := Run(nodes, events);
             var log := w.seats[TOP].sent;
             && j < |log| && log[j].talk == k && Lead(log, k) != Some(log[j].frame.id)
             && var q := log[j].frame.id;
                && Whole(w, k.node, q) && (k.node, k.client) !in w.gone && q in w.seats[TOP].made
                && (w.seats[TOP].made[q].persistent || AnsweredUnder(nodes, events, q) == [])
    ensures !(GotTexts(Run(nodes, events + more).got, k) <= NonEmpty(AnsweredFor(nodes, events + more, k)))
  {
    var w := Run(nodes, events);
    RunReplies(nodes, events);
    RunOrdered(nodes, events);
    var i := Split(w, k, j);
    var q1, q := w.seats[TOP].sent[i].frame.id, w.seats[TOP].sent[j].frame.id;
    var early, late := FreshPair(AnsweredFor(nodes, events, k));
    more := Continued(nodes, events, k, i, j, early, late);
    hide Run, Inv, Replies, Ordered, AnsweredFor, AnsweredUnder, TopOwns, AllRead, Whole, Lead, Tree, ApcLaws.Safe,
         Sunk, Twice;
    var w' := Run(nodes, events + more);
    RunReplies(nodes, events + more);
    TopSame(w, w', q1);
    HeardOwner(w', i);
    HeardOwner(w', j);
    WholeSunk(w, w', q1, k.node, q);
    TwiceOwed(nodes, events, events + more, k, q1, q, early, late);
    LateOwed(w', q, AnsweredUnder(nodes, events, q), late);
    GoneSame(w, w', q1);
    LateArrives(nodes, events + more, k, q, late);
    EarlyNever(nodes, events, more, k, q1, q, early, late);
    Broken(GotTexts(w'.got, k), AnsweredFor(nodes, events, k), early, late);
  }
}
