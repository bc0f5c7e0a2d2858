/** When an entry is queued a second time under one ID (adapter/ibkr/relay.py, adapter/ibkr/loop.py). */
module HandoverQueued {
  import opened Wrappers
  import opened Handover
  import opened EndedRun
  import opened HandoverRuns
  import opened HandoverKeeps
  import opened HandoverLegal
  import opened EndedRunLegal
  import opened HandoverTheorems

  /** Some act of the list queues y although it was queued before. */
  ghost predicate QueuesAgain(w: World, acts: seq<Act>, y: InputId) {
    exists k :: 0 <= k < |acts| && acts[k].Queue? && acts[k].en.id == y && y in Exec(w, acts[..k]).queued
  }

  /** No act of the list queues an ID a second time. */
  ghost predicate QueuesFirst(w: World, acts: seq<Act>)
    decreases |acts|
  {
    acts != [] ==> (acts[0].Queue? ==> acts[0].en.id !in w.queued) && QueuesFirst(Apply(w, acts[0]), acts[1..])
  }

  lemma {:induction false} FirstIsNotAgain(w: World, acts: seq<Act>, y: InputId, k: nat)
    requires QueuesFirst(w, acts) && k < |acts| && acts[k].Queue? && acts[k].en.id == y
    ensures y !in Exec(w, acts[..k]).queued
    decreases k
  {
    if k == 0 {
      assert acts[..k] == [];
    } else {
      assert acts[..k][0] == acts[0] && acts[..k][1..] == acts[1..][..k - 1];
      FirstIsNotAgain(Apply(w, acts[0]), acts[1..], y, k - 1);
    }
  }

  lemma {:induction false} FirstConcat(w: World, a: seq<Act>, b: seq<Act>)
    requires QueuesFirst(w, a) && QueuesFirst(Exec(w, a), b)
    ensures QueuesFirst(w, a + b)
    decreases |a|
  {
    if a == [] {
      assert a + b == b;
    } else {
      assert (a + b)[1..] == a[1..] + b;
      FirstConcat(Apply(w, a[0]), a[1..], b);
    }
  }

  predicate NoQueue(acts: seq<Act>) {
    forall i :: 0 <= i < |acts| ==> !acts[i].Queue?
  }

  lemma {:induction false} NoQueueFirst(w: World, acts: seq<Act>)
    requires NoQueue(acts)
    ensures QueuesFirst(w, acts)
    decreases |acts|
  {
    if acts != [] { NoQueueFirst(Apply(w, acts[0]), acts[1..]); }
  }

  // ----- A pass queues only what was never queued -----

  lemma RetireFirst(w: World, c: Cid, id: InputId, x: InputId)
    requires !id.Plain? && (id in Ids(w.outbox) || id !in w.queued)
    ensures QueuesFirst(w, RetireActs(w, c, id, x))
  {
    var tail := [Decide(Decision(c, Retired, Some(x), None, None, true)), SetMark(c, NeverSent)];
    if id in Ids(w.outbox) {
      assert RetireActs(w, c, id, x) == tail;
      NoQueueFirst(w, tail);
    } else {
      assert RetireActs(w, c, id, x)[1..] == tail;
      NoQueueFirst(Apply(w, Queue(RetireEntry(id))), tail);
    }
  }

  lemma FinishFirst(e: Engine, w: World, c: Cid, x: InputId, shown: bool)
    requires e.OneRelease() && Inv(e, w) && AtInput(w, x) && c in e.Released(x) && c !in w.marks
    requires FinishRetirement(w, c, x, shown).Some?
    ensures QueuesFirst(w, FinishRetirement(w, c, x, shown).value.acts)
  {
    var acts := FinishRetirement(w, c, x, shown).value.acts;
    if NoQueue(acts) {
      NoQueueFirst(w, acts);
    } else {
      assert acts == RetireActs(w, c, RetirementFor(c, x), x);
      NoneQueued(e, w, c, x);
      RetireFirst(w, c, RetirementFor(c, x), x);
    }
  }

  lemma OrderFirst(e: Engine, w: World, c: Cid, x: InputId, env: Env)
    requires e.OneRelease() && Inv(e, w) && AtInput(w, x) && c in e.Released(x)
    ensures QueuesFirst(w, SettleOrder(e, w, MarkOf(w.marks, c), c, x, env).acts)
  {
    var acts := SettleOrder(e, w, MarkOf(w.marks, c), c, x, env).acts;
    if NoQueue(acts) {
      NoQueueFirst(w, acts);
    } else {
      assert OrderInv(e, w, c);
      QueueingOrder(e, w, c, x, env);
      UnmarkedFirst(e, w, c, x, c in env.broker, acts);
    }
  }

  lemma UnmarkedFirst(e: Engine, w: World, c: Cid, x: InputId, shown: bool, acts: seq<Act>)
    requires e.OneRelease() && Inv(e, w) && AtInput(w, x) && c in e.Released(x) && c !in w.marks
    requires var finished := FinishRetirement(w, c, x, shown);
             if finished.Some? then acts == finished.value.acts else acts == RetireActs(w, c, Retirement(c), x)
    ensures QueuesFirst(w, acts)
  {
    if FinishRetirement(w, c, x, shown).Some? {
      FinishFirst(e, w, c, x, shown);
    } else {
      NoneBegun(e, w, c, x, shown);
      RetireFirst(w, c, Retirement(c), x);
    }
  }

  /** Only an unmarked order's settlement queues: a retirement finished, or one of a session that is over. */
  lemma QueueingOrder(e: Engine, w: World, c: Cid, x: InputId, env: Env)
    requires RetireInv(e, w, c) && w.waiting == Some(x) && c in e.Released(x)
    requires !NoQueue(SettleOrder(e, w, MarkOf(w.marks, c), c, x, env).acts)
    ensures c !in w.marks
    ensures var finished := FinishRetirement(w, c, x, c in env.broker);
            var acts := SettleOrder(e, w, MarkOf(w.marks, c), c, x, env).acts;
            if finished.Some? then acts == finished.value.acts else acts == RetireActs(w, c, Retirement(c), x)
  {
  }

  lemma {:induction false} OrdersFirst(e: Engine, w: World, marks: map<Cid, Mark>, orders: seq<Cid>, x: InputId,
                                       env: Env)
    requires e.OneRelease() && Inv(e, w) && AtInput(w, x)
    requires forall i :: 0 <= i < |orders| ==>
             orders[i] in e.Released(x) && MarkOf(marks, orders[i]) == MarkOf(w.marks, orders[i])
    requires forall i, j :: 0 <= i < j < |orders| ==> orders[i] != orders[j]
    ensures QueuesFirst(w, SettleOrders(e, w, marks, orders, x, env).acts)
    decreases |orders|
  {
    if orders == [] {
      NoQueueFirst(w, [Strike({x})] + ClearActs);
    } else {
      var c := orders[0];
      var r := SettleOrder(e, w, MarkOf(marks, c), c, x, env);
      OrderFirst(e, w, c, x, env);
      if r.outcome.GoOn? {
        OrderLeaves(e, w, c, x, env);
        var w' := Exec(w, r.acts);
        assert MarkOf(marks, c) == MarkOf(w.marks, c);
        RestRead(e, w, w', marks, orders, x);
        OrdersFirst(e, w', marks, orders[1..], x, env);
        FirstConcat(w, r.acts, SettleOrders(e, w', marks, orders[1..], x, env).acts);
        OrdersGoOn(e, w, marks, orders, x, env);
      }
    }
  }

  lemma RestRead(e: Engine, w: World, w': World, marks: map<Cid, Mark>, orders: seq<Cid>, x: InputId)
    requires orders != [] && forall i :: 0 <= i < |orders| ==>
               orders[i] in e.Released(x) && MarkOf(marks, orders[i]) == MarkOf(w.marks, orders[i])
    requires forall i, j :: 0 <= i < j < |orders| ==> orders[i] != orders[j]
    requires forall k :: k != orders[0] ==> MarkOf(w'.marks, k) == MarkOf(w.marks, k)
    ensures forall i :: 0 <= i < |orders[1..]| ==>
              orders[1..][i] in e.Released(x) && MarkOf(marks, orders[1..][i]) == MarkOf(w'.marks, orders[1..][i])
    ensures forall i, j :: 0 <= i < j < |orders[1..]| ==> orders[1..][i] != orders[1..][j]
  {
  }

  /** What one order's acts leave for the next. */
  lemma OrderLeaves(e: Engine, w: World, c: Cid, x: InputId, env: Env)
    requires e.OneRelease() && Inv(e, w) && AtInput(w, x) && c in e.Released(x)
    ensures var w' := Exec(w, SettleOrder(e, w, MarkOf(w.marks, c), c, x, env).acts);
            Inv(e, w') && AtInput(w', x) && forall k :: k != c ==> MarkOf(w'.marks, k) == MarkOf(w.marks, k)
  {
    var r := SettleOrder(e, w, MarkOf(w.marks, c), c, x, env);
    OrderLegal(e, w, c, x, env);
    assert r.acts[..|r.acts|] == r.acts;
    LegalKeeps(e, w, r.acts, |r.acts|);
    OrderAbout(e, w, MarkOf(w.marks, c), c, x, env);
    AboutFrame(w, r.acts, c);
    assert RunEndedIds(Exec(w, r.acts)) == RunEndedIds(w);
  }

  lemma AskedKeeps(e: Engine, w: World, x: InputId)
    requires e.OneRelease() && Inv(e, w) && Allowed(e, w, Save(x))
    requires w.runOf == Some(RunRecord(x, w.run)) && x !in RunEndedIds(w)
    ensures var w2 := Exec(w, [Save(x), Ask(x)]); Inv(e, w2) && AtInput(w2, x)
  {
    var w1 := Apply(w, Save(x));
    AllowedKeeps(e, w, Save(x));
    assert RunEndedIds(w1) == RunEndedIds(w);
    var w2 := Apply(w1, Ask(x));
    AllowedKeeps(e, w1, Ask(x));
    assert RunEndedIds(w2) == RunEndedIds(w);
    ExecTwo(w, Save(x), Ask(x));
  }

  lemma PassFirst(e: Engine, w: World, x: InputId, env: Env)
    requires e.OneRelease() && Inv(e, w) && Allowed(e, w, Save(x))
    requires w.runOf == Some(RunRecord(x, w.run)) && x !in RunEndedIds(w)
    ensures QueuesFirst(w, Pass(e, w, x, env).acts)
  {
    if env.reply.Replied? {
      var w2 := Exec(w, [Save(x), Ask(x)]);
      AskedKeeps(e, w, x);
      OrdersFirst(e, w2, w2.marks, e.Released(x), x, env);
      NoQueueFirst(w, [Save(x), Ask(x)]);
      FirstConcat(w, [Save(x), Ask(x)], SettleOrders(e, w2, w2.marks, e.Released(x), x, env).acts);
    } else {
      NoQueueFirst(w, Pass(e, w, x, env).acts);
    }
  }

  lemma DrainFirst(e: Engine, w: World, i: nat, env: Env)
    requires e.OneRelease() && Inv(e, w)
    ensures QueuesFirst(w, Drain(e, w, i, env).acts)
  {
    if w.waiting.Some? {
      if !EarlierRun(w) { PassFirst(e, w, w.waiting.value, env); }
    } else if i < |w.outbox| {
      var x := w.outbox[i].id;
      assert w.outbox[i] in w.outbox;
      if x in RunEndedIds(w) || x in w.committed {
        NoQueueFirst(w, [Strike({x})]);
      } else {
        var w1 := Apply(w, RecordRun(x, w.run));
        AllowedKeeps(e, w, RecordRun(x, w.run));
        assert RunEndedIds(w1) == RunEndedIds(w);
        PassFirst(e, w1, x, env);
        assert Drain(e, w, i, env).acts[1..] == Pass(e, w1, x, env).acts;
      }
    }
  }

  // ----- The commands -----

  lemma {:induction false} DecideActsNoQueue(w: World, log: EndedLog, still: seq<Cid>)
    ensures NoQueue(DecideActs(w, log, still))
  {
    if still != [] { DecideActsNoQueue(w, log, still[1..]); }
  }

  lemma {:induction false} MarkActsNoQueue(w: World, still: seq<Cid>)
    ensures NoQueue(MarkActs(w, still))
  {
    if still != [] { MarkActsNoQueue(w, still[1..]); }
  }

  /** No command but the owner's retirement queues anything. */
  lemma ResolveNoQueue(e: Engine, w: World, c: Cid, v: Verdict, today: Day)
    requires Resolve(e, w, c, v, today).Some?
    ensures NoQueue(Resolve(e, w, c, v, today).value)
  {
  }

  lemma EndingNoQueue(w: World, chain: Chain, aside: bool)
    requires ResolveRunEnded(w, chain, aside).Some?
    ensures NoQueue(ResolveRunEnded(w, chain, aside).value)
  {
  }

  lemma SettlingNoQueue(w: World, log: EndedLog)
    requires SettleEndedRun(w, log).Some?
    ensures NoQueue(SettleEndedRun(w, log).value)
  {
    var still := Still(w, log, log.releases);
    DecideActsNoQueue(w, log, still);
    MarkActsNoQueue(w, still);
  }

  lemma CommandNoQueue(e: Engine, w: World, op: Op)
    requires !op.OwnerRetires?
    ensures NoQueue(Command(e, w, op))
  {
    match op
    case OwnerSettlesEndedRun(log) => if SettleEndedRun(w, log).Some? { SettlingNoQueue(w, log); }
    case OwnerResolves(c, v, today) => if Resolve(e, w, c, v, today).Some? { ResolveNoQueue(e, w, c, v, today); }
    case OwnerEndsRun(chain, aside) =>
      if ResolveRunEnded(w, chain, aside).Some? { EndingNoQueue(w, chain, aside); }
    case _ =>
  }

  lemma OtherOpsFirst(e: Engine, w: World, op: Op)
    requires e.OneRelease() && Inv(e, w) && !op.OwnerRetires?
    ensures QueuesFirst(w, Acts(e, w, op))
  {
    match op
    case DrainOnce(i, env) => DrainFirst(e, w, i, env);
    case Produces(en) => if Acts(e, w, op) != [] { NoQueueFirst(Apply(w, Queue(en)), []); }
    case _ =>
      CommandNoQueue(e, Apply(w, Crash), op);
      NoQueueFirst(w, Acts(e, w, op));
  }

  /** The owner's retirement is accepted, and its entry is in no outbox but named by a recorded settlement, as the
      owner can read before the command. */
  predicate RetiresAgain(w: World, op: Op, y: InputId) {
    && op.OwnerRetires? && OwnerRetire(Apply(w, Crash), op.c).Some?
    && y == Retirement(op.c) && y in RunEndedIds(w) && y !in Ids(w.outbox)
  }

  lemma OwnerQueuesAgain(e: Engine, w: World, op: Op, y: InputId)
    requires op.OwnerRetires?
    ensures QueuesAgain(w, Acts(e, w, op), y) <==>
              && OwnerRetire(Apply(w, Crash), op.c).Some? && y == Retirement(op.c)
              && y in w.queued && y !in Ids(w.outbox)
  {
    var w0 := Apply(w, Crash);
    var acts := Acts(e, w, op);
    if OwnerRetire(w0, op.c).Some? {
      var id := Retirement(op.c);
      assert acts == [Crash] + RetireActs(w0, op.c, id, w0.waiting.value);
      if id !in Ids(w.outbox) {
        assert acts[1] == Queue(RetireEntry(id)) && acts[..1] == [Crash];
        ExecCons(w, Crash, []);
        assert [Crash] + [] == [Crash];
        assert Exec(w, acts[..1]) == w0;
      }
    }
  }

  // ----- What a settlement names was queued -----

  ghost predicate NamedQueued(w: World) {
    forall y :: y in RunEndedIds(w) ==> y in w.queued
  }

  lemma AllowedNames(e: Engine, w: World, a: Act)
    requires NamedQueued(w) && Allowed(e, w, a)
    ensures NamedQueued(Apply(w, a))
  {
    if a.RecordEnded? {
      RecordNames(w, a.s);
    } else {
      assert RunEndedIds(Apply(w, a)) == RunEndedIds(w);
    }
  }

  lemma RecordNames(w: World, s: EndedInput)
    requires NamedQueued(w) && NamesQueued(w, s)
    ensures NamedQueued(Apply(w, RecordEnded(s)))
  {
    MembersAppend(w.ended, s);
  }

  lemma {:induction false} LegalNames(e: Engine, w: World, acts: seq<Act>, k: nat)
    requires NamedQueued(w) && Legal(e, w, acts) && k <= |acts|
    ensures NamedQueued(Exec(w, acts[..k]))
    decreases k
  {
    if k == 0 {
      assert acts[..k] == [];
    } else {
      AllowedNames(e, w, acts[0]);
      assert acts[..k][0] == acts[0] && acts[..k][1..] == acts[1..][..k - 1];
      LegalNames(e, Apply(w, acts[0]), acts[1..], k - 1);
    }
  }

  lemma StepNames(e: Engine, w: World, ev: Event)
    requires e.OneRelease() && Inv(e, w) && OpSound(e, ev.op) && NamedQueued(w)
    ensures NamedQueued(Step(e, w, ev))
  {
    var acts := Acts(e, w, ev.op);
    var k := Min(ev.cut, |acts|);
    ActsLegal(e, w, ev.op);
    LegalNames(e, w, acts, k);
    AllowedNames(e, Exec(w, acts[..k]), Crash);
  }

  /** In every run, whatever a settlement of an ended run names was queued. */
  lemma {:induction false} RunNames(e: Engine, w: World, evs: seq<Event>)
    requires e.OneRelease() && Inv(e, w) && Sound(e, evs) && NamedQueued(w)
    ensures NamedQueued(RunOf(e, w, evs))
    decreases |evs|
  {
    if evs != [] {
      StepNames(e, w, evs[0]);
      StepKeeps(e, w, evs[0]);
      RunNames(e, Step(e, w, evs[0]), evs[1..]);
    }
  }

  // ----- When an ID is queued again -----

  /** In every reachable world and for every operation: an ID is queued again if and only if the owner's retirement is
      accepted for an order whose retirement a settlement of an ended run names and the outbox no longer holds. */
  lemma QueuedAgainExactly(e: Engine, w: World, evs: seq<Event>, op: Op, y: InputId)
    requires e.OneRelease() && Initial(w) && Sound(e, evs)
    ensures var w' := RunOf(e, w, evs); QueuesAgain(w', Acts(e, w', op), y) <==> RetiresAgain(w', op, y)
  {
    InitialInv(e, w);
    RunKeeps(e, w, evs);
    assert RunEndedIds(w) == {};
    RunNames(e, w, evs);
    var w' := RunOf(e, w, evs);
    if op.OwnerRetires? {
      OwnerQueuesAgain(e, w', op, y);
      if QueuesAgain(w', Acts(e, w', op), y) { AgainIsNamed(e, w', op, y); }
    } else {
      OtherOpsFirst(e, w', op);
      var acts := Acts(e, w', op);
      forall k | 0 <= k < |acts| && acts[k].Queue? && acts[k].en.id == y ensures y !in Exec(w', acts[..k]).queued {
        FirstIsNotAgain(w', acts, y, k);
      }
    }
  }

  lemma AgainIsNamed(e: Engine, w: World, op: Op, y: InputId)
    requires e.OneRelease() && Inv(e, w) && op.OwnerRetires? && OwnerRetire(Apply(w, Crash), op.c).Some?
    requires y == Retirement(op.c) && y in w.queued && y !in Ids(w.outbox)
    ensures y in RunEndedIds(w)
  {
    assert OrderInv(e, w, op.c);
    assert w.refusal.Some? && op.c in e.Released(w.waiting.value);
    assert Kept(e, w, op.c, y);
  }
}
