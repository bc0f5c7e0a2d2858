/** What holds in every run of the hand-over (adapter/ibkr/relay.py, adapter/ibkr/loop.py). */
module HandoverTheorems {
  import opened Wrappers
  import opened Handover
  import opened EndedRun
  import opened HandoverRuns
  import opened HandoverKeeps
  import opened HandoverLegal
  import opened EndedRunLegal

  lemma InitialInv(e: Engine, w: World)
    requires Initial(w)
    ensures Inv(e, w)
  {
    assert RunEndedIds(w) == {};
    forall c ensures OrderInv(e, w, c) {
      forall x ensures !SaysNeverSent(w, c, x) { LastDecisionIsOne(w.decisions, c); }
    }
  }

  lemma StepKeeps(e: Engine, w: World, ev: Event)
    requires e.OneRelease() && Inv(e, w) && OpSound(e, ev.op)
    ensures Inv(e, Step(e, w, ev))
  {
    var acts := Acts(e, w, ev.op);
    var k := Min(ev.cut, |acts|);
    ActsLegal(e, w, ev.op);
    LegalKeeps(e, w, acts, k);
    AllowedKeeps(e, Exec(w, acts[..k]), Crash);
  }

  /** The invariant holds after any operations, each cut anywhere. */
  lemma {:induction false} RunKeeps(e: Engine, w: World, evs: seq<Event>)
    requires e.OneRelease() && Inv(e, w) && Sound(e, evs)
    ensures Inv(e, RunOf(e, w, evs))
    decreases |evs|
  {
    if evs != [] {
      StepKeeps(e, w, evs[0]);
      RunKeeps(e, Step(e, w, evs[0]), evs[1..]);
    }
  }

  /** No order is handed to the sender more often than once and once for each resend the owner recorded;
      while its input awaits its reply, an unmarked order was never handed over, and one the owner
      allowed to be sent again has a send left. */
  lemma AtMostOncePerPermission(e: Engine, w: World, evs: seq<Event>, c: Cid)
    requires e.OneRelease() && Initial(w) && Sound(e, evs)
    ensures var w' := RunOf(e, w, evs);
            && w'.sends[c] <= 1 + Resends(w'.decisions, c)
            && (Releases(e, w', c) && c !in w'.marks ==> w'.sends[c] == 0)
            && (c in w'.marks && w'.marks[c].Resend? ==> w'.sends[c] <= Resends(w'.decisions, c))
  {
    InitialInv(e, w);
    RunKeeps(e, w, evs);
    assert OrderInv(e, RunOf(e, w, evs), c);
  }

  // ----- Retirements -----

  lemma StrikeStaysFrozen(e: Engine, w: World, ids: set<InputId>, c: Cid, x: InputId)
    requires Allowed(e, w, Strike(ids)) && w.waiting == Some(x) && c in e.Released(x)
    requires Begun(w, c, x) || HasSettledMark(w, c) || EarlierRun(w)
    ensures var w' := Apply(w, Strike(ids)); Begun(w', c, x) || HasSettledMark(w', c) || EarlierRun(w')
  {
    if Begun(w, c, x) && !HasRetired(w.decisions, c, x) {
      var en :| en in w.outbox && NamesRetirementOf(en.id, c);
      WithoutMember(w.outbox, ids, en);
    }
  }

  /** A retirement begun, or an order settled, stays so at every act while its input awaits. */
  lemma StaysFrozenAt(e: Engine, w: World, a: Act, c: Cid, x: InputId)
    requires e.OneRelease() && QueueInv(w) && RunInv(w) && Allowed(e, w, a) && Frozen(e, w, c)
    requires c in e.Released(x) && x !in Apply(w, a).closed
    ensures var w' := Apply(w, a);
            w'.waiting == Some(x) && (Begun(w', c, x) || HasSettledMark(w', c) || EarlierRun(w'))
  {
    var w' := Apply(w, a);
    assert w.waiting == Some(x);
    match a
    case Decide(d) => RetiredAppend(w.decisions, Tagged(w, d), c, x);
    case Queue(en) => MembersAppend(w.outbox, en);
    case Strike(ids) => StrikeStaysFrozen(e, w, ids, c, x);
    case SetMark(k, m) => assert HasSettledMark(w, c) ==> HasSettledMark(w', c);
    case StartFreshRun => assert EarlierRun(w');
    case _ =>
  }

  lemma FrozenKeeps(e: Engine, w: World, a: Act, c: Cid)
    requires e.OneRelease() && Inv(e, w) && Allowed(e, w, a) && Frozen(e, w, c)
    ensures Frozen(e, Apply(w, a), c) && Apply(w, a).sends[c] == w.sends[c]
  {
    forall x | c in e.Released(x) && x !in Apply(w, a).closed
      ensures var w' := Apply(w, a);
              w'.waiting == Some(x) && (Begun(w', c, x) || HasSettledMark(w', c) || EarlierRun(w'))
    {
      StaysFrozenAt(e, w, a, c, x);
    }
    assert OrderInv(e, w, c);
  }

  lemma FrozenAfter(e: Engine, w: World, a: Act, c: Cid)
    requires e.OneRelease() && Inv(e, w) && Allowed(e, w, a) && Frozen(e, w, c)
    ensures var w' := Apply(w, a); Inv(e, w') && Frozen(e, w', c) && w'.sends[c] == w.sends[c]
  {
    AllowedKeeps(e, w, a);
    FrozenKeeps(e, w, a, c);
  }

  lemma {:induction false} FrozenThrough(e: Engine, w: World, acts: seq<Act>, k: nat, c: Cid)
    requires e.OneRelease() && Inv(e, w) && Legal(e, w, acts) && k <= |acts| && Frozen(e, w, c)
    ensures Frozen(e, Exec(w, acts[..k]), c) && Exec(w, acts[..k]).sends[c] == w.sends[c]
    decreases k
  {
    if k == 0 {
      assert acts[..k] == [];
    } else {
      FrozenAfter(e, w, acts[0], c);
      assert acts[..k][0] == acts[0] && acts[..k][1..] == acts[1..][..k - 1];
      FrozenThrough(e, Apply(w, acts[0]), acts[1..], k - 1, c);
    }
  }

  lemma {:induction false} FrozenForever(e: Engine, w: World, evs: seq<Event>, c: Cid)
    requires e.OneRelease() && Inv(e, w) && Sound(e, evs) && Frozen(e, w, c)
    ensures Frozen(e, RunOf(e, w, evs), c) && RunOf(e, w, evs).sends[c] == w.sends[c]
    decreases |evs|
  {
    if evs != [] {
      var acts := Acts(e, w, evs[0].op);
      var k := Min(evs[0].cut, |acts|);
      ActsLegal(e, w, evs[0].op);
      FrozenThrough(e, w, acts, k, c);
      LegalKeeps(e, w, acts, k);
      FrozenKeeps(e, Exec(w, acts[..k]), Crash, c);
      StepKeeps(e, w, evs[0]);
      FrozenForever(e, Step(e, w, evs[0]), evs[1..], c);
    }
  }

  /** Once a retirement of an order is durable for the input awaiting its reply, queued or recorded, no
      later step ever hands the order to the sender. */
  lemma RetiredIsNeverSent(e: Engine, w: World, evs: seq<Event>, evs': seq<Event>, c: Cid)
    requires e.OneRelease() && Initial(w) && Sound(e, evs) && Sound(e, evs')
    requires var w' := RunOf(e, w, evs); Releases(e, w', c) && Begun(w', c, w'.waiting.value)
    ensures var w' := RunOf(e, w, evs); RunOf(e, w', evs').sends[c] == w'.sends[c]
  {
    InitialInv(e, w);
    RunKeeps(e, w, evs);
    var w' := RunOf(e, w, evs);
    assert Frozen(e, w', c);
    FrozenForever(e, w', evs', c);
  }

  /** An entry is queued twice under one ID only when it is a retirement an ended run's settlement already
      names, and never while the first is still queued. */
  lemma QueuedOnce(e: Engine, w: World, evs: seq<Event>, y: InputId)
    requires e.OneRelease() && Initial(w) && Sound(e, evs)
    ensures var w' := RunOf(e, w, evs);
            && (w'.queued[y] > 1 ==> !y.Plain? && y in RunEndedIds(w'))
            && DistinctIds(w'.outbox)
  {
    InitialInv(e, w);
    RunKeeps(e, w, evs);
  }

  /** Nothing a settlement of an ended run names is ever given to the engine now running. */
  lemma EndedIsNeverExchanged(e: Engine, w: World, evs: seq<Event>)
    requires e.OneRelease() && Initial(w) && Sound(e, evs)
    ensures var w' := RunOf(e, w, evs); RunEndedIds(w') !! w'.committed
  {
    InitialInv(e, w);
    RunKeeps(e, w, evs);
  }

  // ----- An order IBKR shows -----

  /** No act of the list changes c's mark. */
  predicate LeavesMark(acts: seq<Act>, c: Cid) {
    forall i :: 0 <= i < |acts| ==> !acts[i].RemoveMarks? && !(acts[i].SetMark? && acts[i].c == c)
  }

  lemma {:induction false} MarkLeft(w: World, acts: seq<Act>, k: nat, c: Cid)
    requires LeavesMark(acts, c) && k <= |acts|
    ensures MarkOf(Exec(w, acts[..k]).marks, c) == MarkOf(w.marks, c)
    decreases k
  {
    if k == 0 {
      assert acts[..k] == [];
    } else {
      assert acts[..k][0] == acts[0] && acts[..k][1..] == acts[1..][..k - 1];
      MarkLeft(Apply(w, acts[0]), acts[1..], k - 1, c);
    }
  }

  lemma AboutLeaves(acts: seq<Act>, k: Cid, c: Cid)
    requires k != c && forall a :: a in acts ==> About(a, k)
    ensures LeavesMark(acts, c)
  {
    forall i | 0 <= i < |acts| ensures !acts[i].RemoveMarks? && !(acts[i].SetMark? && acts[i].c == c) {
      assert acts[i] in acts;
    }
  }

  /** A pass stops at an order marked at the broker, and leaves the mark. */
  lemma {:induction false} OrdersStop(e: Engine, w: World, marks: map<Cid, Mark>, orders: seq<Cid>, x: InputId,
                                      env: Env, c: Cid)
    requires c in orders && c !in w.sent && MarkOf(marks, c) == Some(AtBroker) && MarkOf(w.marks, c) == Some(AtBroker)
    ensures SettleOrders(e, w, marks, orders, x, env).outcome.Stop?
    ensures LeavesMark(SettleOrders(e, w, marks, orders, x, env).acts, c)
    decreases |orders|
  {
    var k := orders[0];
    var r := SettleOrder(e, w, MarkOf(marks, k), k, x, env);
    OrderAbout(e, w, MarkOf(marks, k), k, x, env);
    if k != c {
      AboutLeaves(r.acts, k, c);
      if r.outcome.GoOn? {
        var w' := Exec(w, r.acts);
        AboutFrame(w, r.acts, k);
        SentOnly(w, r.acts, k);
        assert orders == [k] + orders[1..];
        OrdersStop(e, w', marks, orders[1..], x, env, c);
      }
    }
  }

  lemma {:induction false} SentOnly(w: World, acts: seq<Act>, k: Cid)
    requires forall a :: a in acts ==> About(a, k)
    ensures Exec(w, acts).sent <= w.sent + {k}
    decreases |acts|
  {
    if acts != [] {
      assert About(acts[0], k);
      SentOnly(Apply(w, acts[0]), acts[1..], k);
    }
  }

  /** An order marked at the broker stops every pass over its input, whatever IBKR shows now. */
  lemma EveryPassStops(e: Engine, w: World, i: nat, env: Env, c: Cid)
    requires e.OneRelease() && Inv(e, w) && Releases(e, w, c) && MarkOf(w.marks, c) == Some(AtBroker)
    ensures Drain(e, w, i, env).outcome.Stop?
    ensures LeavesMark(Drain(e, w, i, env).acts, c)
  {
    assert OrderInv(e, w, c);
    var x := w.waiting.value;
    if !EarlierRun(w) && env.reply.Replied? {
      var w' := Exec(w, [Save(x), Ask(x)]);
      ExecTwo(w, Save(x), Ask(x));
      OrdersStop(e, w', w'.marks, e.Released(x), x, env, c);
    }
  }

  lemma {:induction false} MarkActsLeave(w: World, still: seq<Cid>, c: Cid)
    requires c in w.marks
    ensures LeavesMark(MarkActs(w, still), c)
  {
    if still != [] { MarkActsLeave(w, still[1..], c); }
  }

  lemma {:induction false} DecideActsLeave(w: World, log: EndedLog, still: seq<Cid>, c: Cid)
    ensures LeavesMark(DecideActs(w, log, still), c)
  {
    if still != [] { DecideActsLeave(w, log, still[1..], c); }
  }

  lemma CommandLeaves(e: Engine, w: World, op: Op, c: Cid)
    requires MarkOf(w.marks, c) == Some(AtBroker) && !op.OwnerEndsRun?
    requires !(op.OwnerResolves? && op.c == c && op.v.DecidedSent?)
    ensures LeavesMark(Command(e, w, op), c)
  {
    match op
    case OwnerSettlesEndedRun(log) => SettlingLeaves(w, log, c);
    case OwnerResolves(k, v, today) => ResolvingLeaves(e, w, k, v, today, c);
    case OwnerRetires(k) => RetiringLeaves(w, k, c);
    case _ =>
  }

  lemma SettlingLeaves(w: World, log: EndedLog, c: Cid)
    requires c in w.marks
    ensures SettleEndedRun(w, log).Some? ==> LeavesMark(SettleEndedRun(w, log).value, c)
  {
    var still := Still(w, log, log.releases);
    DecideActsLeave(w, log, still, c);
    MarkActsLeave(w, still, c);
  }

  lemma ResolvingLeaves(e: Engine, w: World, k: Cid, v: Verdict, today: Day, c: Cid)
    requires MarkOf(w.marks, c) == Some(AtBroker) && !(k == c && v.DecidedSent?)
    ensures Resolve(e, w, k, v, today).Some? ==> LeavesMark(Resolve(e, w, k, v, today).value, c)
  {
  }

  lemma RetiringLeaves(w: World, k: Cid, c: Cid)
    requires MarkOf(w.marks, c) == Some(AtBroker)
    ensures OwnerRetire(w, k).Some? ==> LeavesMark(OwnerRetire(w, k).value, c)
  {
  }

  /** While its input awaits its reply, only the owner's --sent lifts an order's at-broker mark: any other
      operation, cut anywhere, leaves it (resolve --run-ended clears the input before the mark). */
  lemma OnlySentLifts(e: Engine, w: World, ev: Event, c: Cid)
    requires e.OneRelease() && Inv(e, w) && Releases(e, w, c) && MarkOf(w.marks, c) == Some(AtBroker)
    requires !(ev.op.OwnerResolves? && ev.op.c == c && ev.op.v.DecidedSent?)
    ensures Step(e, w, ev).waiting == w.waiting ==> MarkOf(Step(e, w, ev).marks, c) == Some(AtBroker)
  {
    if ev.op.OwnerEndsRun? {
      EndsRunClearsFirst(e, w, ev, c);
    } else {
      ActsLeave(e, w, ev.op, c);
      CutLeaves(e, w, ev, c);
    }
  }

  lemma CutLeaves(e: Engine, w: World, ev: Event, c: Cid)
    requires LeavesMark(Acts(e, w, ev.op), c)
    ensures MarkOf(Step(e, w, ev).marks, c) == MarkOf(w.marks, c)
  {
    var acts := Acts(e, w, ev.op);
    MarkLeft(w, acts, Min(ev.cut, |acts|), c);
  }

  lemma ActsLeave(e: Engine, w: World, op: Op, c: Cid)
    requires e.OneRelease() && Inv(e, w) && Releases(e, w, c) && MarkOf(w.marks, c) == Some(AtBroker)
             && !op.OwnerEndsRun?
    requires !(op.OwnerResolves? && op.c == c && op.v.DecidedSent?)
    ensures LeavesMark(Acts(e, w, op), c)
  {
    if op.DrainOnce? {
      EveryPassStops(e, w, op.i, op.env, c);
    } else {
      CommandLeaves(e, Apply(w, Crash), op, c);
    }
  }

  /** The acts before the input's removal leave every mark, and after it nothing awaits. */
  predicate ClearsInputFirst(acts: seq<Act>, n: nat) {
    && n < |acts| && acts[n].RemoveInput?
    && (forall i :: 0 <= i < n ==> !acts[i].RemoveMarks? && !acts[i].SetMark?)
    && (forall i :: n < i < |acts| ==> !acts[i].Save?)
  }

  lemma {:induction false} NothingAwaits(w: World, acts: seq<Act>, k: nat)
    requires w.waiting.None? && k <= |acts| && forall i :: 0 <= i < |acts| ==> !acts[i].Save?
    ensures Exec(w, acts[..k]).waiting.None?
    decreases k
  {
    if k == 0 {
      assert acts[..k] == [];
    } else {
      assert acts[..k][0] == acts[0] && acts[..k][1..] == acts[1..][..k - 1];
      NothingAwaits(Apply(w, acts[0]), acts[1..], k - 1);
    }
  }

  lemma {:induction false} ClearedFirst(w: World, acts: seq<Act>, n: nat, k: nat)
    requires ClearsInputFirst(acts, n) && k <= |acts|
    ensures Exec(w, acts[..k]).marks == w.marks || Exec(w, acts[..k]).waiting.None?
    decreases n
  {
    if k == 0 {
      assert acts[..k] == [];
    } else {
      assert acts[..k][0] == acts[0] && acts[..k][1..] == acts[1..][..k - 1];
      if n == 0 {
        NothingAwaits(Apply(w, acts[0]), acts[1..], k - 1);
      } else {
        ClearedFirst(Apply(w, acts[0]), acts[1..], n - 1, k - 1);
      }
    }
  }

  lemma EndingShape(w: World, chain: Chain, aside: bool)
    requires ResolveRunEnded(w, chain, aside).Some?
    ensures var acts := ResolveRunEnded(w, chain, aside).value; |acts| >= 5 && ClearsInputFirst(acts, |acts| - 5)
  {
  }

  lemma EndsRunClearsFirst(e: Engine, w: World, ev: Event, c: Cid)
    requires ev.op.OwnerEndsRun? && Releases(e, w, c) && MarkOf(w.marks, c) == Some(AtBroker)
    ensures Step(e, w, ev).waiting == w.waiting ==> MarkOf(Step(e, w, ev).marks, c) == Some(AtBroker)
  {
    var acts := Acts(e, w, ev.op);
    var k := Min(ev.cut, |acts|);
    var r := ResolveRunEnded(Apply(w, Crash), ev.op.chain, ev.op.setAsideMalformed);
    if r.Some? {
      EndingShape(Apply(w, Crash), ev.op.chain, ev.op.setAsideMalformed);
      var n := |r.value| - 5;
      assert acts == [Crash] + r.value;
      assert forall i :: 0 < i < |acts| ==> acts[i] == r.value[i - 1];
      ClearedFirst(w, acts, n + 1, k);
    } else {
      MarkLeft(w, acts, k, c);
    }
  }

  /** IBKR's word on c is recorded, marked, and no retirement of c is left for the engine. */
  predicate AtBrokerRecorded(w: World, c: Cid, x: InputId) {
    && MarkOf(w.marks, c) == Some(AtBroker)
    && (LastDecided(w, c, FoundAtBroker, Some(x)) || LastDecided(w, c, DecidedSent, Some(x)))
    && RetirementsOf(w.outbox, c) == {}
  }

  lemma AtBrokerActsFinish(w: World, c: Cid, x: InputId)
    ensures AtBrokerRecorded(Exec(w, AtBrokerActs(w, c, x)), c, x)
  {
    var owners := MarkOf(w.marks, c) == Some(AtBroker) && LastDecided(w, c, DecidedSent, Some(x));
    var d := Decision(c, FoundAtBroker, Some(x), None, None, true);
    var first := if owners || LastDecided(w, c, FoundAtBroker, Some(x)) then [] else [Decide(d)];
    var second := if MarkOf(w.marks, c) == Some(AtBroker) then [] else [SetMark(c, AtBroker)];
    var ids := RetirementsOf(w.outbox, c);
    LastDecisionAppend(w.decisions, Tagged(w, d), c);
    ExecConcat(w, first, second);
    ExecConcat(w, first + second, [Strike(ids)]);
    var w2 := Exec(w, first + second);
    assert [Strike(ids)][1..] == [];
    if first != [] { assert first[1..] == []; }
    if second != [] { assert second[1..] == []; }
    assert w2.outbox == w.outbox;
    forall en ensures en in Without(w.outbox, ids) <==> en in w.outbox && en.id !in ids {
      WithoutMember(w.outbox, ids, en);
    }
  }

  /** The records say that the relay found IBKR showing c, whichever of the writes a stop left out. */
  predicate ReadsAtBroker(w: World, c: Cid, x: InputId) {
    || MarkOf(w.marks, c) == Some(AtBroker)
    || ((c !in w.marks || w.marks[c].NeverSent?) && LastDecided(w, c, FoundAtBroker, Some(x)))
  }

  predicate OnlyMarksAtBroker(acts: seq<Act>, c: Cid) {
    forall i :: 0 <= i < |acts| ==>
      !acts[i].Decide? && !acts[i].RemoveMarks? && (acts[i].SetMark? ==> acts[i] == SetMark(c, AtBroker))
  }

  lemma CutReadsAtBroker(w: World, acts: seq<Act>, k: nat, c: Cid, x: InputId)
    requires 0 < k <= |acts| && (c !in w.marks || w.marks[c].NeverSent? || w.marks[c].AtBroker?)
    requires OnlyMarksAtBroker(acts[1..], c)
    requires acts[0] == Decide(Decision(c, FoundAtBroker, Some(x), None, None, true)) || acts[0] == SetMark(c, AtBroker)
             || (acts[0].Strike? && MarkOf(w.marks, c) == Some(AtBroker))
    ensures ReadsAtBroker(Exec(w, acts[..k]), c, x)
  {
    assert acts[..k][0] == acts[0] && acts[..k][1..] == acts[1..k];
    var w1 := Apply(w, acts[0]);
    if acts[0].Decide? {
      LastDecisionAppend(w.decisions, Tagged(w, acts[0].d), c);
    }
    forall i | 0 <= i < k - 1 ensures acts[1..k][i] == acts[1..][i] {}
    DecisionsKept(w1, acts[1..k]);
    MarksTo(w1, acts[1..k], c);
  }

  /** A stop after any of the three writes of IBKR's word leaves an order that reads as at the broker. */
  lemma AnyCutReadsAtBroker(w: World, c: Cid, x: InputId, k: nat)
    requires 0 < k <= |AtBrokerActs(w, c, x)| && (c !in w.marks || w.marks[c].NeverSent? || w.marks[c].AtBroker?)
    ensures ReadsAtBroker(Exec(w, AtBrokerActs(w, c, x)[..k]), c, x)
  {
    CutReadsAtBroker(w, AtBrokerActs(w, c, x), k, c, x);
  }

  /** The next pass to reach an order that reads as at the broker stops there, whatever IBKR shows by then,
      with the finding recorded, the mark made and no retirement of it left for the engine. */
  lemma RestartFinishesAtBroker(e: Engine, w: World, c: Cid, x: InputId, env: Env)
    requires c !in w.sent && ReadsAtBroker(w, c, x)
    ensures var r := SettleOrder(e, w, MarkOf(w.marks, c), c, x, env);
            r.outcome == Stop(AtTheBroker) && AtBrokerRecorded(Exec(w, r.acts), c, x)
  {
    assert SettleOrder(e, w, MarkOf(w.marks, c), c, x, env) == Result(AtBrokerActs(w, c, x), Stop(AtTheBroker));
    AtBrokerActsFinish(w, c, x);
  }

  /** The pass stops at an order before c. */
  ghost predicate StopsBefore(e: Engine, w: World, marks: map<Cid, Mark>, orders: seq<Cid>, x: InputId, env: Env,
                              c: Cid)
    decreases |orders|
  {
    && orders != [] && orders[0] != c
    && var r := SettleOrder(e, w, MarkOf(marks, orders[0]), orders[0], x, env);
       r.outcome.Stop? || StopsBefore(e, Exec(w, r.acts), marks, orders[1..], x, env, c)
  }

  lemma {:induction false} OrdersFinish(e: Engine, w: World, marks: map<Cid, Mark>, orders: seq<Cid>, x: InputId,
                                        env: Env, c: Cid)
    requires c in orders && c !in w.sent && ReadsAtBroker(w, c, x) && MarkOf(marks, c) == MarkOf(w.marks, c)
    ensures var r := SettleOrders(e, w, marks, orders, x, env);
            r.outcome.Stop? && (StopsBefore(e, w, marks, orders, x, env, c) || AtBrokerRecorded(Exec(w, r.acts), c, x))
    decreases |orders|
  {
    var k := orders[0];
    var r := SettleOrder(e, w, MarkOf(marks, k), k, x, env);
    if k == c {
      RestartFinishesAtBroker(e, w, c, x, env);
    } else if r.outcome.GoOn? {
      var w' := Exec(w, r.acts);
      OrderAbout(e, w, MarkOf(marks, k), k, x, env);
      OrderRecords(w, r.acts, k, c);
      assert orders == [k] + orders[1..];
      OrdersFinish(e, w', marks, orders[1..], x, env, c);
      ExecConcat(w, r.acts, SettleOrders(e, w', marks, orders[1..], x, env).acts);
    }
  }

  /** A relay restarted after a stop between the three writes: its first pass over the waiting input stops, at an order
      before c or at c with all three writes finished, whatever IBKR shows by then. */
  lemma RestartedPassFinishes(e: Engine, w: World, evs: seq<Event>, i: nat, env: Env, c: Cid)
    requires e.OneRelease() && Initial(w) && Sound(e, evs) && env.reply.Replied?
    requires var w' := RunOf(e, w, evs);
             Releases(e, w', c) && !EarlierRun(w') && w'.sent == {} && ReadsAtBroker(w', c, w'.waiting.value)
    ensures var w' := RunOf(e, w, evs);
            var x, r := w'.waiting.value, Drain(e, w', i, env);
            var asked := Exec(w', [Save(x), Ask(x)]);
            && r.outcome.Stop?
            && (StopsBefore(e, asked, asked.marks, e.Released(x), x, env, c)
                   || AtBrokerRecorded(Exec(w', r.acts), c, x))
  {
    var w' := RunOf(e, w, evs);
    var x := w'.waiting.value;
    var asked := Exec(w', [Save(x), Ask(x)]);
    ExecTwo(w', Save(x), Ask(x));
    OrdersFinish(e, asked, asked.marks, e.Released(x), x, env, c);
    ExecConcat(w', [Save(x), Ask(x)], SettleOrders(e, asked, asked.marks, e.Released(x), x, env).acts);
  }

  lemma {:induction false} DecisionsKept(w: World, acts: seq<Act>)
    requires forall i :: 0 <= i < |acts| ==> !acts[i].Decide?
    ensures Exec(w, acts).decisions == w.decisions
    decreases |acts|
  {
    if acts != [] { DecisionsKept(Apply(w, acts[0]), acts[1..]); }
  }

  /** Acts that mark only c, and only at the broker, leave its mark or make it so. */
  lemma {:induction false} MarksTo(w: World, acts: seq<Act>, c: Cid)
    requires forall i :: 0 <= i < |acts| ==>
             !acts[i].RemoveMarks? && (acts[i].SetMark? ==> acts[i] == SetMark(c, AtBroker))
    ensures MarkOf(Exec(w, acts).marks, c) in {MarkOf(w.marks, c), Some(AtBroker)}
    decreases |acts|
  {
    if acts != [] { MarksTo(Apply(w, acts[0]), acts[1..], c); }
  }
}
