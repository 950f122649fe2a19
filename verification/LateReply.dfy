/**
 A run in which a tunnel's client is handed a later answer but not an earlier one: it closes its tunnel
 twice, the earlier answer is still on its way when the first close has removed the route, and the
 second close goes up under a new id, which the wrapper answers too.
 */
module LateReply {
  import opened Bytes
  import ApcFrames
  import ApcLaws
  import opened Routing
  import opened RoutingTree
  import opened RoutingOrder
  import opened RoutingLaws
  import opened RoutingReplies
  import opened ReplyLaws

  const EARLY: seq<Byte> := [97]
  const LATE: seq<Byte> := [98]
  const MUXES: set<Node> := {TOP, DEEP}

  const SAID: seq<Event> := [Says(DEEP, 3, OPENING)] + [Says(DEEP, 3, TUN_CLOSE)] + [Says(DEEP, 3, TUN_CLOSE)]
  const UP: seq<Event> := SAID + [Climbs(DEEP)] + [Climbs(DEEP)] + [Climbs(DEEP)]
  const ONCE: seq<Event> := UP + [Hears] + [Answers(0, EARLY)]
  const HEARD: seq<Event> := ONCE + [Hears] + [Hears] + [Answers(2, LATE)]
  const LATE_RUN: seq<Event> := HEARD + [Descends(TOP)] + [Descends(TOP)] + [Descends(DEEP)]

  const AGAIN: Entry := Entry(Frame(2, TUN_CLOSE), SPLIT, false)
  const OPEN_ROUTE: Route := Route(5, Some(1), true)
  const LAST_ROUTE: Route := Route(5, Some(1), false)

  /** The deep mux with `sent`, `taken` of it relayed. */
  function Below(sent: seq<Entry>, taken: nat): Seat { Deep(map[1 := Route(3, None, true)], map[3 := 1], sent, taken) }

  /** The mux at the top once all three frames have come up. */
  function Above(routes: map<nat, Route>, taken: nat, down: seq<Answer>, read: nat): Seat {
    Seat(Table(routes, 3, map[]), map[1 := SPLIT, 2 := SPLIT], map[1 := OPEN_ROUTE, 2 := LAST_ROUTE],
         [OPENED, CLOSED, AGAIN], taken, down, read)
  }

  const FIRST_ANSWER: Answer := Answer(Frame(1, EARLY), 0, 1)
  const LAST_ANSWER: Answer := Answer(Frame(2, LATE), 2, 2)
  const GOT_LATE: Got := Got(DEEP, 3, 1, LATE, 2, 2)

  function TwoGot(top: Seat, deep: Seat, got: seq<Got>): World { World(map[TOP := top, DEEP := deep], {}, got) }

  // ----- Up -----

  lemma Closes(sent: seq<Entry>)
    ensures Say(Below(sent, 0), DEEP, 3, TUN_CLOSE) == Below(sent + [CLOSED], 0)
  {
    OpeningText();
    hide ParseRoute;
  }

  lemma SaidUp()
    ensures Run(MUXES, SAID) == Two(IDLE_SEAT, Below([OPENED, CLOSED, CLOSED], 0), {})
  {
    OpeningText();
    OpeningClean();
    assert ParseRoute(OPENING) == None by { assert OPENING[0] == 84; }
    SplitSays();
    Closes([OPENED]);
    Closes([OPENED, CLOSED]);
    hide Run, Step, Two, Say, ParseRoute, StartsWith, Clean;
    assert [OPENED] + [CLOSED] == [OPENED, CLOSED] && [OPENED, CLOSED] + [CLOSED] == [OPENED, CLOSED, CLOSED];
    TwoStart();
    TwoSays(IDLE_SEAT, OPENING);
    RunNext(MUXES, [], Says(DEEP, 3, OPENING));
    assert [] + [Says(DEEP, 3, OPENING)] == [Says(DEEP, 3, OPENING)];
    TwoSays(Below([OPENED], 0), TUN_CLOSE);
    RunNext(MUXES, [Says(DEEP, 3, OPENING)], Says(DEEP, 3, TUN_CLOSE));
    TwoSays(Below([OPENED, CLOSED], 0), TUN_CLOSE);
    RunNext(MUXES, [Says(DEEP, 3, OPENING)] + [Says(DEEP, 3, TUN_CLOSE)], Says(DEEP, 3, TUN_CLOSE));
  }

  const TOP_OPEN: Seat :=
    Seat(Table(map[1 := OPEN_ROUTE], 2, map[]), map[1 := SPLIT], map[1 := OPEN_ROUTE], [OPENED], 0, [], 0)
  const TOP_CLOSED: Seat :=
    Seat(Table(map[], 2, map[]), map[1 := SPLIT], map[1 := OPEN_ROUTE], [OPENED, CLOSED], 0, [], 0)

  lemma HearsOpen()
    ensures Hear(IDLE_SEAT, 5, OPENED) == TOP_OPEN
  {
    OpeningText();
    RelayLine(Fresh(), 5, OPENED.frame);
    assert Lookup(Fresh(), 5, 1, 1) == None;
    hide HandleLine;
  }

  lemma HearsClose()
    ensures Hear(TOP_OPEN, 5, CLOSED) == TOP_CLOSED
  {
    OpeningText();
    RelayLine(TOP_OPEN.table, 5, CLOSED.frame);
    assert Lookup(TOP_OPEN.table, 5, 1, 1) == Some(1);
    assert map[1 := OPEN_ROUTE] - {1} == map[];
    hide HandleLine;
  }

  lemma HearsAgain()
    ensures Hear(TOP_CLOSED, 5, CLOSED) == Above(map[2 := LAST_ROUTE], 0, [], 0)
  {
    OpeningText();
    RelayLine(TOP_CLOSED.table, 5, CLOSED.frame);
    assert Lookup(TOP_CLOSED.table, 5, 1, 2) == None;
    assert Lookup(TOP_CLOSED.table, 5, 1, 1) == None;
    assert map[1 := SPLIT][2 := SPLIT] == map[1 := SPLIT, 2 := SPLIT];
    assert map[1 := OPEN_ROUTE][2 := LAST_ROUTE] == map[1 := OPEN_ROUTE, 2 := LAST_ROUTE];
    hide HandleLine;
  }

  lemma AllUp()
    ensures Run(MUXES, UP) == TwoGot(Above(map[2 := LAST_ROUTE], 0, [], 0), Below([OPENED, CLOSED, CLOSED], 3), [])
  {
    SaidUp();
    HearsOpen();
    HearsClose();
    HearsAgain();
    hide Run, Step, Hear;
    var d := Below([OPENED, CLOSED, CLOSED], 0);
    TwoClimbs(IDLE_SEAT, d, {});
    RunNext(MUXES, SAID, Climbs(DEEP));
    TwoClimbs(TOP_OPEN, Take(d), {});
    RunNext(MUXES, SAID + [Climbs(DEEP)], Climbs(DEEP));
    TwoClimbs(TOP_CLOSED, Take(Take(d)), {});
    RunNext(MUXES, SAID + [Climbs(DEEP)] + [Climbs(DEEP)], Climbs(DEEP));
  }

  // ----- At the wrapper -----

  lemma Keeps(top: Seat, deep: Seat, got: seq<Got>)
    ensures var w := TwoGot(top, deep, got);
            TOP in w.seats && DEEP in w.seats && w.seats[TOP] == top && w.seats[DEEP] == deep && DEEP != TOP
    ensures forall top': Seat :: Put(TwoGot(top, deep, got), TOP, top') == TwoGot(top', deep, got)
    ensures forall deep': Seat :: Put(TwoGot(top, deep, got), DEEP, deep') == TwoGot(top, deep', got)
  {
    assert |DEEP| == 1 && |TOP| == 0;
  }

  lemma TwoHears(top: Seat, deep: Seat)
    requires top.taken < |top.sent|
    ensures Step(TwoGot(top, deep, []), Hears) == TwoGot(Take(top), deep, [])
  {
    Keeps(top, deep, []);
    hide Put, TwoGot;
  }

  lemma TwoAnswers(top: Seat, deep: Seat, cause: nat, text: seq<Byte>)
    requires cause < top.taken && cause < |top.sent| && ApcLaws.Safe(text)
    ensures CanAnswer(TwoGot(top, deep, []), cause, text)
    ensures Step(TwoGot(top, deep, []), Answers(cause, text))
            == TwoGot(Reply(top, top.sent[cause].frame.id, cause, text), deep, [])
  {
    Keeps(top, deep, []);
    hide Put, TwoGot, Reply, ApcLaws.Safe;
  }

  lemma AnswersSafe()
    ensures ApcLaws.Safe(EARLY) && ApcLaws.Safe(LATE)
  {
    ApcFrames.QuietIsSafe(EARLY);
    ApcFrames.QuietIsSafe(LATE);
  }

  lemma AnsweredNext(events: seq<Event>, e: Event)
    ensures AnsweredFor(MUXES, events + [e], SPLIT)
            == AnsweredFor(MUXES, events, SPLIT)
               + var w := Run(MUXES, events);
                 if e.Answers? && CanAnswer(w, e.cause, e.text) && w.seats[TOP].sent[e.cause].talk == SPLIT
                 then [e.text] else []
  {
    assert (events + [e])[..|events|] == events;
  }

  lemma Unanswered(events: seq<Event>, e: Event)
    requires !e.Answers?
    ensures AnsweredFor(MUXES, events + [e], SPLIT) == AnsweredFor(MUXES, events, SPLIT)
  {
    AnsweredNext(events, e);
    assert AnsweredFor(MUXES, events, SPLIT) + [] == AnsweredFor(MUXES, events, SPLIT);
  }

  lemma NoneYet()
    ensures AnsweredFor(MUXES, UP, SPLIT) == []
  {
    var e1, e2 := [Says(DEEP, 3, OPENING)], [Says(DEEP, 3, OPENING)] + [Says(DEEP, 3, TUN_CLOSE)];
    Unanswered([], Says(DEEP, 3, OPENING));
    assert [] + e1 == e1;
    Unanswered(e1, Says(DEEP, 3, TUN_CLOSE));
    Unanswered(e2, Says(DEEP, 3, TUN_CLOSE));
    Unanswered(SAID, Climbs(DEEP));
    Unanswered(SAID + [Climbs(DEEP)], Climbs(DEEP));
    Unanswered(SAID + [Climbs(DEEP)] + [Climbs(DEEP)], Climbs(DEEP));
    assert AnsweredFor(MUXES, [], SPLIT) == [];
  }

  lemma OneAnswered()
    ensures Run(MUXES, ONCE)
            == TwoGot(Above(map[2 := LAST_ROUTE], 1, [FIRST_ANSWER], 0), Below([OPENED, CLOSED, CLOSED], 3), [])
    ensures AnsweredFor(MUXES, ONCE, SPLIT) == [EARLY]
  {
    AllUp();
    NoneYet();
    AnswersSafe();
    var t, d := Above(map[2 := LAST_ROUTE], 0, [], 0), Below([OPENED, CLOSED, CLOSED], 3);
    Keeps(Take(t), d, []);
    hide Run, Step, TwoGot, AnsweredFor, Put, CanAnswer;
    TwoHears(t, d);
    RunNext(MUXES, UP, Hears);
    Unanswered(UP, Hears);
    TwoAnswers(Take(t), d, 0, EARLY);
    RunNext(MUXES, UP + [Hears], Answers(0, EARLY));
    AnsweredNext(UP + [Hears], Answers(0, EARLY));
    assert Reply(Take(t), 1, 0, EARLY) == Above(map[2 := LAST_ROUTE], 1, [FIRST_ANSWER], 0);
  }

  lemma BothAnswered()
    ensures Run(MUXES, HEARD)
            == TwoGot(Above(map[2 := LAST_ROUTE], 3, [FIRST_ANSWER, LAST_ANSWER], 0),
              Below([OPENED, CLOSED, CLOSED], 3), [])
    ensures AnsweredFor(MUXES, HEARD, SPLIT) == [EARLY, LATE]
  {
    OneAnswered();
    AnswersSafe();
    var t, d := Above(map[2 := LAST_ROUTE], 1, [FIRST_ANSWER], 0), Below([OPENED, CLOSED, CLOSED], 3);
    var t3 := Above(map[2 := LAST_ROUTE], 3, [FIRST_ANSWER], 0);
    Keeps(t3, d, []);
    hide Run, Step, TwoGot, AnsweredFor, Put, CanAnswer;
    TwoHears(t, d);
    RunNext(MUXES, ONCE, Hears);
    Unanswered(ONCE, Hears);
    TwoHears(Take(t), d);
    RunNext(MUXES, ONCE + [Hears], Hears);
    Unanswered(ONCE + [Hears], Hears);
    assert Take(Take(t)) == t3;
    var heard := ONCE + [Hears] + [Hears];
    TwoAnswers(t3, d, 2, LATE);
    RunNext(MUXES, heard, Answers(2, LATE));
    AnsweredNext(heard, Answers(2, LATE));
    assert Reply(t3, 2, 2, LATE) == Above(map[2 := LAST_ROUTE], 3, [FIRST_ANSWER, LAST_ANSWER], 0);
    assert [EARLY] + [LATE] == [EARLY, LATE];
  }

  // ----- Down -----

  lemma TwoLost(top: Seat, deep: Seat)
    requires top.read < |top.down| && top.down[top.read].frame.id !in top.table.routes
    ensures Step(TwoGot(top, deep, []), Descends(TOP)) == TwoGot(top.(read := top.read + 1), deep, [])
  {
    Keeps(top, deep, []);
    ReplyUnknown(top.table, top.down[top.read].frame);
    hide Put, TwoGot, HandleReply, BuildRoute;
  }

  lemma TwoFramed(top: Seat, deep: Seat)
    requires top.read < |top.down| && top.down[top.read].frame.id in top.table.routes
    requires top.table.routes[top.down[top.read].frame.id] == LAST_ROUTE
    ensures var a := top.down[top.read];
            Step(TwoGot(top, deep, []), Descends(TOP))
            == TwoGot(top.(read := top.read + 1, table := top.table.(routes := top.table.routes - {a.frame.id})),
                      Push(deep, Frame(1, a.frame.inner), a.cause, a.root), [])
  {
    var a := top.down[top.read];
    Keeps(top, deep, []);
    ReplyRead(top.table, a.frame);
    assert TOP + [5] == DEEP;
    hide TwoGot, HandleReply, BuildRoute, Push, Put;
    Keeps(Read(top), deep, []);
  }

  lemma TwoRaw(top: Seat, deep: Seat)
    requires deep.read < |deep.down| && deep.down[deep.read].frame.id in deep.table.routes
    requires deep.table.routes[deep.down[deep.read].frame.id] == Route(3, None, true)
             && deep.down[deep.read].frame.inner != []
    ensures var a := deep.down[deep.read];
            Step(TwoGot(top, deep, []), Descends(DEEP))
            == TwoGot(top, deep.(read := deep.read + 1), [Got(DEEP, 3, a.frame.id, a.frame.inner, a.cause, a.root)])
  {
    var a := deep.down[deep.read];
    Keeps(top, deep, []);
    ReplyRead(deep.table, a.frame);
    hide HandleReply, BuildRoute;
    var g := Got(DEEP, 3, a.frame.id, a.frame.inner, a.cause, a.root);
    assert [] + [g] == [g];
  }

  lemma AllDone()
    ensures Run(MUXES, LATE_RUN).got == [GOT_LATE] && AnsweredFor(MUXES, LATE_RUN, SPLIT) == [EARLY, LATE]
  {
    BothAnswered();
    var t, d := Above(map[2 := LAST_ROUTE], 3, [FIRST_ANSWER, LAST_ANSWER], 0), Below([OPENED, CLOSED, CLOSED], 3);
    hide Run, Step, AnsweredFor;
    TwoLost(t, d);
    RunNext(MUXES, HEARD, Descends(TOP));
    Unanswered(HEARD, Descends(TOP));
    var t1 := Above(map[2 := LAST_ROUTE], 3, [FIRST_ANSWER, LAST_ANSWER], 1);
    TwoFramed(t1, d);
    RunNext(MUXES, HEARD + [Descends(TOP)], Descends(TOP));
    Unanswered(HEARD + [Descends(TOP)], Descends(TOP));
    var d1 := Push(d, Frame(1, LATE), 2, 2);
    TwoRaw(t1.(read := 2, table := t1.table.(routes := t1.table.routes - {2})), d1);
    RunNext(MUXES, HEARD + [Descends(TOP)] + [Descends(TOP)], Descends(DEEP));
    Unanswered(HEARD + [Descends(TOP)] + [Descends(TOP)], Descends(DEEP));
  }

  /** The client is handed the later answer and not the earlier one. */
  lemma LaterOnly()
    ensures GotTexts(Run(MUXES, LATE_RUN).got, SPLIT) == [LATE]
    ensures NonEmpty(AnsweredFor(MUXES, LATE_RUN, SPLIT)) == [EARLY, LATE]
  {
    AllDone();
    hide Run, AnsweredFor;
    assert [GOT_LATE][..0] == [];
    NonEmptyNext([EARLY], LATE);
    NonEmptyNext([], EARLY);
    assert [] + [EARLY] == [EARLY] && [EARLY] + [LATE] == [EARLY, LATE];
    assert GotTexts([], SPLIT) == [];
    NothingNonEmpty();
  }
}
