/** What the settlements of an ended run may claim, and what a stop part way leaves
    (adapter/ibkr/relay.py: settle_ended_run, resolve_run_ended). */
module EndedRunTheorems {
  import opened Wrappers
  import opened Handover
  import opened EndedRun
  import opened HandoverRuns
  import opened EndedRunLegal
  import opened EndedRunReruns
  import opened HandoverTheorems
  import opened HandoverTorn

  // ----- Soundness of settle_ended_run -----

  /** In every run, an order settle_ended_run settles may be at IBKR only if a pass handed it over while the last
      decision on it, for that very input, said it was never sent; HandoverTorn states when a pass can. */
  lemma SettledUnlessOverruled(e: Engine, w: World, evs: seq<Event>, log: EndedLog, c: Cid)
    requires e.OneRelease() && Initial(w) && Sound(e, evs) && LogSound(e, log)
    requires var w' := RunOf(e, w, evs); c in Still(w', log, log.releases)
    ensures var w' := RunOf(e, w, evs);
            MayBeAtIbkr(w', c) ==> c in w'.overruled
  {
    InitialInv(e, w);
    RunKeeps(e, w, evs);
    var w' := RunOf(e, w, evs);
    assert OrderInv(e, w', c);
    StillSettleable(e, w', log, c);
  }

  // ----- A run in which it settles an order that was sent -----

  const TheInput: InputId := Plain(0)
  const TheOrder: Cid := 7
  const TheEngine: Engine := Engine(map[TheInput := [TheOrder]], map[TheInput := 1])
  const TheLog: EndedLog := EndedLog(0, 0, [Release(TheInput, TheOrder)], {}, {})
  const Empty: World :=
    World(None, None, map[], [], None, None, [], [], [], [], {}, 0, {}, multiset{}, map[], {}, {}, multiset{})

  function Answers(check: CheckResult): Env {
    Env({}, (c: Cid) => check, (c: Cid) => Returned, 1, Replied)
  }

  /** The relay refuses the order, the owner settles it never sent, and a stop cuts the command between its
      decision and its mark; the cause gone, the relay then sends the order. */
  function TornRun(): seq<Event> {
    [Event(Produces(Entry(TheInput, Other, None, true)), 1), Event(DrainOnce(0, Answers(Refused)), 4),
     Event(OwnerResolves(TheOrder, DecidedNeverSent, 1), 2), Event(DrainOnce(0, Answers(Accepted)), 20)]
  }

  function Queued0(): World {
    Empty.(outbox := [Entry(TheInput, Other, None, true)], queued := multiset{TheInput})
  }

  function Refused1(): World {
    RefusedAs(false)
  }

  function RefusedAs(unsendable: bool): World {
    Queued0().(waiting := Some(TheInput), runOf := Some(RunRecord(TheInput, 0)), committed := {TheInput},
               refusal := Some(Refusal(TheInput, TheOrder, unsendable)))
  }

  function Torn2(): World {
    Refused1().(decisions := [Decision(TheOrder, DecidedNeverSent, Some(TheInput), Some(0), None, true)])
  }

  function Sent3(): World {
    Torn2().(waiting := None, runOf := None, refusal := None, outbox := [], sent := {TheOrder},
             sends := multiset{TheOrder}, last := map[TheOrder := Returned], overruled := {TheOrder},
                 closed := {TheInput})
  }

  lemma TornStep1()
    ensures Step(TheEngine, Empty, TornRun()[0]) == Queued0()
  {
    var acts := [Queue(Entry(TheInput, Other, None, true))];
    assert Acts(TheEngine, Empty, TornRun()[0].op) == acts;
    assert acts[..1] == acts && acts[1..] == [];
    assert Exec(Empty, acts) == Apply(Empty, acts[0]);
  }

  lemma TornStep2()
    ensures Step(TheEngine, Queued0(), TornRun()[1]) == Refused1()
  {
    RefusedStep(false);
  }

  lemma RefusedStep(unsendable: bool)
    ensures Step(TheEngine, Queued0(), Event(DrainOnce(0, Answers(if unsendable then Unsendable else Refused)), 4)) ==
            RefusedAs(unsendable)
  {
    var w0 := Queued0();
    var env := Answers(if unsendable then Unsendable else Refused);
    assert RunEndedIds(w0) == {};
    var w1 := Apply(w0, RecordRun(TheInput, 0));
    var w2 := Apply(Apply(w1, Save(TheInput)), Ask(TheInput));
    ExecTwo(w1, Save(TheInput), Ask(TheInput));
    var r := RecordRefusal(Refusal(TheInput, TheOrder, unsendable));
    RefusedOrder(w2, unsendable);
    var acts := Acts(TheEngine, w0, DrainOnce(0, env));
    assert acts == [RecordRun(TheInput, 0)] + ([Save(TheInput), Ask(TheInput)] + [r]);
    assert acts[..4] == acts;
    RefusedActs(w0, w1, w2, r);
  }

  lemma RefusedOrder(w: World, unsendable: bool)
    requires w.marks == map[] && w.decisions == [] && w.sent == {} && Ids(w.outbox) == {TheInput}
    ensures var env := Answers(if unsendable then Unsendable else Refused);
            SettleOrders(TheEngine, w, w.marks, [TheOrder], TheInput, env)
            == Result([RecordRefusal(Refusal(TheInput, TheOrder, unsendable))], Stop(NotSendable))
  {
    assert LastRetired(w.decisions, TheOrder) == None;
    assert FinishRetirement(w, TheOrder, TheInput, false) == None;
  }

  lemma RefusedActs(w0: World, w1: World, w2: World, r: Act)
    requires w1 == Apply(w0, RecordRun(TheInput, 0)) && w2 == Exec(w1, [Save(TheInput), Ask(TheInput)])
    ensures Exec(w0, [RecordRun(TheInput, 0)] + ([Save(TheInput), Ask(TheInput)] + [r])) == Apply(w2, r)
  {
    ExecCons(w0, RecordRun(TheInput, 0), [Save(TheInput), Ask(TheInput)] + [r]);
    ExecConcat(w1, [Save(TheInput), Ask(TheInput)], [r]);
    assert [r][1..] == [];
  }

  lemma TornStep3()
    ensures Step(TheEngine, Refused1(), TornRun()[2]) == Torn2()
  {
    var w := Refused1();
    assert Apply(w, Crash) == w;
    var d := Decision(TheOrder, DecidedNeverSent, Some(TheInput), None, None, true);
    var acts := Acts(TheEngine, w, TornRun()[2].op);
    assert acts == [Crash] + [Decide(d), SetMark(TheOrder, NeverSent)];
    assert acts[..2] == [Crash, Decide(d)];
    ExecTwo(w, Crash, Decide(d));
  }

  lemma TornStep4()
    ensures Step(TheEngine, Torn2(), TornRun()[3]) == Sent3()
  {
    var w := Torn2();
    var env := Answers(Accepted);
    assert !EarlierRun(w);
    var w2 := Apply(Apply(w, Save(TheInput)), Ask(TheInput));
    ExecTwo(w, Save(TheInput), Ask(TheInput));
    assert w2 == w;
    assert LastDecision(w.decisions, TheOrder) == Some(w.decisions[0]);
    assert LastRetired(w.decisions, TheOrder) == None by { assert w.decisions[..0] == []; }
    assert FinishRetirement(w, TheOrder, TheInput, false) == None;
    var h := HandOverActs(TheOrder, TheInput, Returned).acts;
    assert SettleOrder(TheEngine, w, None, TheOrder, TheInput, env) == Result(h, GoOn);
    var w3 := HandedOver(w);
    LastTurn(w, w3, h, env);
  }

  lemma LastTurn(w: World, w3: World, h: seq<Act>, env: Env)
    requires w == Torn2() && env.reply.Replied? && Exec(w, [Save(TheInput), Ask(TheInput)]) == w && Exec(w, h) == w3
    requires SettleOrder(TheEngine, w, None, TheOrder, TheInput, env) == Result(h, GoOn) && |h| == 5
    requires w3 == w.(marks := map[TheOrder := Sent], sent := {TheOrder}, sends := multiset{TheOrder},
                      last := map[TheOrder := Returned], overruled := {TheOrder})
    ensures Step(TheEngine, w, Event(DrainOnce(0, env), 20)) == Sent3()
  {
    var last := [Strike({TheInput})] + ClearActs;
    assert SettleOrders(TheEngine, w3, w.marks, [], TheInput, env) == Result(last, GoOn);
    assert [TheOrder][1..] == [];
    assert SettleOrders(TheEngine, w, w.marks, [TheOrder], TheInput, env) == Result(h + last, GoOn);
    var acts := Acts(TheEngine, w, DrainOnce(0, env));
    assert acts == [Save(TheInput), Ask(TheInput)] + (h + last);
    assert acts[..|acts|] == acts;
    ExecConcat(w, [Save(TheInput), Ask(TheInput)], h + last);
    ExecConcat(w, h, last);
    LastClear(w3);
  }

  lemma LastClear(w: World)
    requires w == Torn2().(marks := map[TheOrder := Sent], sent := {TheOrder}, sends := multiset{TheOrder},
                           last := map[TheOrder := Returned], overruled := {TheOrder})
    ensures Exec(w, [Strike({TheInput})] + ClearActs) == Sent3()
  {
    ExecCons(w, Strike({TheInput}), ClearActs);
    assert w.outbox[1..] == [];
    var w1 := w.(outbox := []);
    assert Apply(w, Strike({TheInput})) == w1;
    ClearResult(w1);
  }

  lemma HandedOver(w: World) returns (w': World)
    requires w == Torn2()
    ensures w' == Exec(w, HandOverActs(TheOrder, TheInput, Returned).acts)
    ensures w' == w.(marks := map[TheOrder := Sent], sent := {TheOrder}, sends := multiset{TheOrder},
                     last := map[TheOrder := Returned], overruled := {TheOrder})
  {
    var w1 := w.(marks := map[TheOrder := HandingOver]);
    assert Apply(Apply(w, ForgetNotHandedOver), SetMark(TheOrder, HandingOver)) == w1;
    SentOver(w, w1);
    HandOverResult(w, w1, Apply(w1, Send(TheOrder, Returned, TheInput)), TheOrder, TheInput);
    w' := Exec(w, HandOverActs(TheOrder, TheInput, Returned).acts);
  }

  lemma SentOver(w: World, w1: World)
    requires w == Torn2() && w1 == w.(marks := map[TheOrder := HandingOver])
    ensures Apply(w1, Send(TheOrder, Returned, TheInput))
            == w1.(sends := multiset{TheOrder}, last := map[TheOrder := Returned], overruled := {TheOrder})
  {
    assert LastDecision(w1.decisions, TheOrder) == Some(w.decisions[0]);
  }

  lemma HandOverResult(w: World, w1: World, w2: World, c: Cid, x: InputId)
    requires w1 == Apply(Apply(w, ForgetNotHandedOver), SetMark(c, HandingOver))
             && w2 == Apply(w1, Send(c, Returned, x))
    ensures Exec(w, HandOverActs(c, x, Returned).acts) == w2.(marks := w2.marks[c := Sent], sent := w2.sent + {c})
  {
    var tail := [SetMark(c, Sent), NoteSent(c)];
    var rest := [Send(c, Returned, x)] + tail;
    assert HandOverActs(c, x, Returned).acts == [ForgetNotHandedOver, SetMark(c, HandingOver)] + rest;
    ExecConcat(w, [ForgetNotHandedOver, SetMark(c, HandingOver)], rest);
    ExecTwo(w, ForgetNotHandedOver, SetMark(c, HandingOver));
    ExecCons(w1, Send(c, Returned, x), tail);
    ExecTwo(w2, SetMark(c, Sent), NoteSent(c));
  }

  lemma TornRunResult()
    ensures RunOf(TheEngine, Empty, TornRun()) == Sent3()
  {
    TornStep1();
    TornStep2();
    TornStep3();
    TornStep4();
    var evs := TornRun();
    var e1, e2, e3 := evs[1..], evs[2..], evs[3..];
    assert e1[0] == evs[1] && e1[1..] == e2 && e2[0] == evs[2] && e2[1..] == e3 && e3[0] == evs[3] && e3[1..] == [];
    RunCons(TheEngine, Torn2(), e3);
    RunCons(TheEngine, Refused1(), e2);
    RunCons(TheEngine, Queued0(), e1);
    RunCons(TheEngine, Empty, evs);
  }

  lemma RunCons(e: Engine, w: World, evs: seq<Event>)
    requires evs != []
    ensures RunOf(e, w, evs) == RunOf(e, Step(e, w, evs[0]), evs[1..])
  {
  }

  /** A stop between the decision and the mark of resolve --never-sent lets the relay send the order, and
      settle_ended_run then settles it as never sent although the sender returned. */
  lemma TornSettlementMisleads()
    ensures Initial(Empty)
    ensures var w := RunOf(TheEngine, Empty, TornRun());
            TheOrder in Still(w, TheLog, TheLog.releases) && w.last == map[TheOrder := Returned]
  {
    TornRunResult();
    StillSettled();
  }

  /** That run meets every assumption of SettledUnlessOverruled. */
  lemma TornRunIsSound()
    ensures TheEngine.OneRelease() && LogSound(TheEngine, TheLog)
    ensures Sound(TheEngine, TornRun())
  {
    assert forall x :: TheEngine.Released(x) == if x == TheInput then [TheOrder] else [];
  }

  /** The world the cut command leaves is torn, as read from its files. */
  lemma TornRunIsTorn()
    ensures Torn(TheEngine, Torn2(), TheOrder)
  {
    TornIsTorn(Torn2().decisions[0]);
  }

  lemma TornIsTorn(d: Decision)
    requires d.cid == TheOrder && d.verdict.DecidedNeverSent? && d.input == Some(TheInput)
    ensures Torn(TheEngine, Refused1().(decisions := [d]), TheOrder)
  {
    var w := Refused1().(decisions := [d]);
    assert w.decisions[..0] == [];
    assert LastDecision(w.decisions, TheOrder) == Some(d);
    assert LastRetired(w.decisions, TheOrder) == None;
    assert TheEngine.Released(TheInput)[0] == TheOrder;
  }

  /** So is the world left by settle_ended_run cut after its decision: the second way to come to one. */
  lemma SettlementCutTears()
    ensures Torn(TheEngine, Step(TheEngine, Refused1(), Event(OwnerSettlesEndedRun(TheLog), 2)), TheOrder)
  {
    SettlementLeaves();
    TornIsTorn(TheDecision);
  }

  lemma SettlementLeaves()
    ensures Step(TheEngine, Refused1(), Event(OwnerSettlesEndedRun(TheLog), 2))
            == Refused1().(decisions := [TheDecision])
  {
    SettlementBegins();
    CutStep(TheEngine, Refused1(), OwnerSettlesEndedRun(TheLog), SettlementActs(), 2);
    ExecTwo(Refused1(), Crash, Decide(TheDecision));
  }

  const TheDecision: Decision := Decision(TheOrder, DecidedNeverSent, Some(TheInput), Some(0), Some(0), true)

  function SettlementActs(): seq<Act> {
    Acts(TheEngine, Refused1(), OwnerSettlesEndedRun(TheLog))
  }

  /** The command begins with its decision. */
  lemma SettlementBegins()
    ensures 2 < |SettlementActs()| && SettlementActs()[..2] == [Crash, Decide(TheDecision)]
  {
    var w := Refused1();
    assert Apply(w, Crash) == w;
    RefusedIsStill(w);
    assert DecideActs(w, TheLog, [TheOrder]) == [Decide(TheDecision)] by { assert [TheOrder][1..] == []; }
  }

  lemma RefusedIsStill(w: World)
    requires w == Refused1()
    ensures Still(w, TheLog, TheLog.releases) == [TheOrder]
  {
    assert Times(TheLog.releases, TheOrder) == 1 by { assert TheLog.releases[1..] == []; }
    assert Evidence(w, TheLog, TheInput, TheOrder) == Shown(RefusedBefore);
    assert TheLog.releases[1..] == [];
  }

  lemma StillSettled()
    ensures TheOrder in Still(Sent3(), TheLog, TheLog.releases)
  {
    var w := Sent3();
    assert LastDecision(w.decisions, TheOrder) == Some(w.decisions[0]);
    assert Times(TheLog.releases, TheOrder) == 1 by { assert TheLog.releases[1..] == []; }
    assert Evidence(w, TheLog, TheInput, TheOrder).Shown?;
    StillMember(w, TheLog, TheLog.releases, TheOrder);
    assert TheLog.releases[0] == Release(TheInput, TheOrder);
  }

  // ----- A run in which a retirement is queued twice -----

  /** The relay stops at an order IBKR can never accept; the owner's retirement is cut after it is queued; a fresh run
      starts; the settlement of the ended run's input is cut after its strike; the owner retires the order again. */
  function TwiceRun(): seq<Event> {
    [Event(Produces(Entry(TheInput, Other, None, true)), 1), Event(DrainOnce(0, Answers(Unsendable)), 4),
     Event(OwnerRetires(TheOrder), 2), Event(FreshRun, 2), Event(OwnerEndsRun(NoChain, false), 3),
     Event(OwnerRetires(TheOrder), 2)]
  }

  const TheEntry: Entry := RetireEntry(Retirement(TheOrder))

  function Retired2(): World {
    RefusedAs(true).(outbox := [Entry(TheInput, Other, None, true), TheEntry],
        queued := multiset{TheInput, Retirement(TheOrder)})
  }

  function Fresh3(): World {
    Retired2().(run := 1, committed := {})
  }

  function Struck4(): World {
    Fresh3().(outbox := [], ended := [EndedInput(TheInput, 0, [], [TheEntry], [])])
  }

  lemma OwnerQueues(w: World)
    requires w.waiting == Some(TheInput) && w.refusal == Some(Refusal(TheInput, TheOrder, true)) && TheOrder !in w.marks
    requires w.sent == {} && Retirement(TheOrder) !in Ids(w.outbox)
    ensures Step(TheEngine, w, Event(OwnerRetires(TheOrder), 2)) == Apply(w, Queue(TheEntry))
  {
    assert Apply(w, Crash) == w;
    var acts := Acts(TheEngine, w, OwnerRetires(TheOrder));
    assert acts[..2] == [Crash, Queue(TheEntry)];
    ExecTwo(w, Crash, Queue(TheEntry));
  }

  lemma TwiceStep2()
    ensures Step(TheEngine, RefusedAs(true), TwiceRun()[2]) == Retired2()
  {
    var w := RefusedAs(true);
    OwnerQueues(w);
    assert w.outbox + [TheEntry] == Retired2().outbox;
    assert w.queued + multiset{TheEntry.id} == Retired2().queued;
  }

  lemma TwiceStep4()
    ensures Step(TheEngine, Fresh3(), TwiceRun()[4]) == Struck4()
  {
    var w := Fresh3();
    assert Apply(w, Crash) == w;
    var s := EndedInput(TheInput, 0, [], [TheEntry], []);
    var ids := {TheInput} + Ids([TheEntry]) + Ids([]);
    TwiceActs(s, ids);
    CutStep(TheEngine, w, OwnerEndsRun(NoChain, false), [Crash] + ([RecordEnded(s)] + [Strike(ids)] + ClearActs), 3);
    SettledCut(w, s, ids);
    StruckIs(s, ids);
  }

  lemma StruckIs(s: EndedInput, ids: set<InputId>)
    requires s == EndedInput(TheInput, 0, [], [TheEntry], []) && ids == {TheInput} + Ids([TheEntry]) + Ids([])
    ensures Apply(Apply(Apply(Fresh3(), RecordEnded(s)), Strike(ids)), Crash) == Struck4()
  {
    StrikesBoth(Fresh3().outbox, ids);
  }

  lemma TwiceActs(s: EndedInput, ids: set<InputId>)
    requires s == EndedInput(TheInput, 0, [], [TheEntry], []) && ids == {TheInput} + Ids([TheEntry]) + Ids([])
    ensures Acts(TheEngine, Fresh3(), OwnerEndsRun(NoChain, false))
            == [Crash] + ([RecordEnded(s)] + [Strike(ids)] + ClearActs)
  {
    assert Apply(Fresh3(), Crash) == Fresh3();
    SettledActs(Fresh3(), s, ids);
    EndingCommand(Fresh3(), [RecordEnded(s)] + [Strike(ids)] + ClearActs);
  }

  lemma EndingCommand(w: World, acts: seq<Act>)
    requires Apply(w, Crash) == w && ResolveRunEnded(w, NoChain, false) == Some(acts)
    ensures Acts(TheEngine, w, OwnerEndsRun(NoChain, false)) == [Crash] + acts
  {
  }

  lemma CutStep(e: Engine, w: World, op: Op, acts: seq<Act>, n: nat)
    requires Acts(e, w, op) == acts && n < |acts|
    ensures Step(e, w, Event(op, n)) == Apply(Exec(w, acts[..n]), Crash)
  {
  }

  lemma SettledCut(w: World, s: EndedInput, ids: set<InputId>)
    requires Apply(w, Crash) == w
    ensures var acts := [Crash] + ([RecordEnded(s)] + [Strike(ids)] + ClearActs);
            3 < |acts| && Exec(w, acts[..3]) == Apply(Apply(w, RecordEnded(s)), Strike(ids))
  {
    var acts := [Crash] + ([RecordEnded(s)] + [Strike(ids)] + ClearActs);
    assert acts[..3] == [Crash] + [RecordEnded(s), Strike(ids)];
    ExecCons(w, Crash, [RecordEnded(s), Strike(ids)]);
    ExecTwo(w, RecordEnded(s), Strike(ids));
  }

  lemma SettledActs(w: World, s: EndedInput, ids: set<InputId>)
    requires w == Fresh3() && s == EndedInput(TheInput, 0, [], [TheEntry], [])
             && ids == {TheInput} + Ids([TheEntry]) + Ids([])
    ensures ResolveRunEnded(w, NoChain, false) == Some([RecordEnded(s)] + [Strike(ids)] + ClearActs)
  {
    assert EarlierRun(w) && RunEndedIds(w) == {};
    assert FoundFor(w, TheInput) == {};
    OnlyBehind(w.outbox);
    EndingAccepted(w, TheInput, [TheEntry]);
    EndingIs(w, [TheEntry], s, ids);
  }

  lemma OnlyBehind(outbox: seq<Entry>)
    requires outbox == [Entry(TheInput, Other, None, true), TheEntry]
    ensures MalformedOf(outbox) == [] && BehindOf(outbox, TheInput, {}, {}, {}) == [TheEntry]
  {
    assert outbox[1..] == [TheEntry] && [TheEntry][1..] == [];
    assert MalformedOf([TheEntry]) == [] && BehindOf([TheEntry], TheInput, {}, {}, {}) == [TheEntry];
  }

  lemma EndingAccepted(w: World, x: InputId, behind: seq<Entry>)
    requires EarlierRun(w) && w.waiting == Some(x) && w.runOf.Some? && w.runOf.value.input == x
    requires RunEndedIds(w) == {} && FoundFor(w, x) == {} && MalformedOf(w.outbox) == []
    requires BehindOf(w.outbox, x, {}, {}, {}) == behind
    ensures ResolveRunEnded(w, NoChain, false) == Some(EndingActs(w, NoChain, x, behind, []))
  {
    assert NoChain.current - FoundFor(w, x) == {};
  }

  lemma EndingIs(w: World, behind: seq<Entry>, s: EndedInput, ids: set<InputId>)
    requires w.runOf == Some(RunRecord(TheInput, 0)) && s == EndedInput(TheInput, 0, [], behind, [])
    requires TheInput !in RunEndedIds(w) && ids == {TheInput} + Ids(behind) + Ids([])
    ensures EndingActs(w, NoChain, TheInput, behind, []) == [RecordEnded(s)] + [Strike(ids)] + ClearActs
  {
    assert [] + [RecordEnded(s)] == [RecordEnded(s)];
  }

  lemma StrikesBoth(outbox: seq<Entry>, ids: set<InputId>)
    requires |outbox| == 2 && outbox[0].id in ids && outbox[1].id in ids
    ensures Without(outbox, ids) == []
  {
    assert outbox[1..] == [outbox[1]] && [outbox[1]][1..] == [];
    assert Without([outbox[1]], ids) == [];
  }

  /** In that run, which meets every assumption of the general theorem, the owner's retirement is queued twice. */
  lemma QueuedTwice()
    ensures Initial(Empty) && TheEngine.OneRelease() && Sound(TheEngine, TwiceRun())
    ensures RunOf(TheEngine, Empty, TwiceRun()).queued[Retirement(TheOrder)] == 2
  {
    TornRunIsSound();
    TwiceIsSound();
    TwiceRunResult();
    assert Struck4().queued[Retirement(TheOrder)] == 1;
  }

  lemma TwiceIsSound()
    ensures Sound(TheEngine, TwiceRun())
  {
    assert forall i :: 0 <= i < |TwiceRun()| ==> !TwiceRun()[i].op.OwnerSettlesEndedRun?;
  }

  lemma FirstSteps()
    ensures Step(TheEngine, Empty, TwiceRun()[0]) == Queued0()
    ensures Step(TheEngine, Queued0(), TwiceRun()[1]) == RefusedAs(true)
    ensures Step(TheEngine, RefusedAs(true), TwiceRun()[2]) == Retired2()
    ensures Step(TheEngine, Retired2(), TwiceRun()[3]) == Fresh3()
  {
    TornStep1();
    RefusedStep(true);
    TwiceStep2();
    FreshStep();
  }

  lemma FreshStep()
    ensures Step(TheEngine, Retired2(), TwiceRun()[3]) == Fresh3()
  {
    StartsFresh(TheEngine, Retired2());
  }

  lemma TwiceRunResult()
    ensures RunOf(TheEngine, Empty, TwiceRun()) == Apply(Struck4(), Queue(TheEntry))
  {
    var evs := TwiceRun();
    FirstSteps();
    assert Step(TheEngine, Fresh3(), evs[4]) == Struck4() by { TwiceStep4(); }
    assert Step(TheEngine, Struck4(), evs[5]) == Apply(Struck4(), Queue(TheEntry)) by { OwnerQueues(Struck4()); }
    RunOfSix(TheEngine, Empty, evs);
  }

  lemma RunOfSix(e: Engine, w: World, evs: seq<Event>)
    requires |evs| == 6
    ensures RunOf(e, w, evs)
            == Step(e, Step(e, Step(e, Step(e, Step(e, Step(e, w, evs[0]), evs[1]), evs[2]), evs[3]), evs[4]), evs[5])
  {
    var w1 := Step(e, w, evs[0]);
    var w2 := Step(e, w1, evs[1]);
    var w3 := Step(e, w2, evs[2]);
    var w4 := Step(e, w3, evs[3]);
    var w5 := Step(e, w4, evs[4]);
    var e1, e2, e3, e4, e5 := evs[1..], evs[2..], evs[3..], evs[4..], evs[5..];
    assert e1[1..] == e2 && e2[1..] == e3 && e3[1..] == e4 && e4[1..] == e5 && e5[1..] == [];
    RunCons(e, w5, e5);
    RunCons(e, w4, e4);
    RunCons(e, w3, e3);
    RunCons(e, w2, e2);
    RunCons(e, w1, e1);
    RunCons(e, w, evs);
  }

  // ----- A run-ended settlement whose rerun leaves an entry in the outbox -----

  /** The run up to the settlement: cut right before its strike there and run again, it leaves the retirement in the
      outbox, which it strikes when it is not cut. */
  lemma RerunLeavesEntry()
    ensures RunOf(TheEngine, Empty, TwiceRun()[..4]) == Fresh3()
    ensures StopsAtStrike(Fresh3(), NoChain, false, 1)
    ensures var w1 := Exec(Fresh3(), ResolveRunEnded(Fresh3(), NoChain, false).value[..1]);
            Again(w1, NoChain, false).outbox != Again(Fresh3(), NoChain, false).outbox
  {
    FreshIsReached();
    FreshStops();
    FreshLeaves();
    EndingConverges(Fresh3(), NoChain, false, 1, Exec(Fresh3(), ResolveRunEnded(Fresh3(), NoChain, false).value[..1]));
  }

  lemma FreshStops()
    ensures StopsAtStrike(Fresh3(), NoChain, false, 1) && DistinctIds(Fresh3().outbox)
  {
    var s, ids := EndedInput(TheInput, 0, [], [TheEntry], []), {TheInput} + Ids([TheEntry]) + Ids([]);
    SettledActs(Fresh3(), s, ids);
  }

  lemma FreshLeaves()
    ensures BehindIn(Fresh3(), NoChain, TheInput) == [TheEntry]
  {
    var w := Fresh3();
    assert RunEndedIds(w) == {} && NoChain.current - FoundFor(w, TheInput) == {};
    OnlyBehind(w.outbox);
  }

  lemma FreshIsReached()
    ensures RunOf(TheEngine, Empty, TwiceRun()[..4]) == Fresh3()
  {
    FirstSteps();
    RunOfFour(TheEngine, Empty, TwiceRun()[..4]);
  }

  lemma RunOfFour(e: Engine, w: World, evs: seq<Event>)
    requires |evs| == 4
    ensures RunOf(e, w, evs) == Step(e, Step(e, Step(e, Step(e, w, evs[0]), evs[1]), evs[2]), evs[3])
  {
    var w1 := Step(e, w, evs[0]);
    var w2 := Step(e, w1, evs[1]);
    var w3 := Step(e, w2, evs[2]);
    var e1, e2, e3 := evs[1..], evs[2..], evs[3..];
    assert e1[1..] == e2 && e2[1..] == e3 && e3[1..] == [];
    RunCons(e, w3, e3);
    RunCons(e, w2, e2);
    RunCons(e, w1, e1);
    RunCons(e, w, evs);
  }
}
