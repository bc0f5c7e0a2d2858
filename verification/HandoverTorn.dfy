/** When a pass hands over an order whose last decision says it was never sent (adapter/ibkr/relay.py).

    An owner's command records its decision before its mark, so a stop between the two leaves an order unmarked
    whose decision is made. The condition is read from the files before the pass begins. */
module HandoverTorn {
  import opened Wrappers
  import opened Handover
  import opened EndedRun
  import opened HandoverRuns
  import opened HandoverKeeps
  import opened HandoverLegal
  import opened EndedRunLegal
  import opened HandoverTheorems

  // ----- The condition -----

  /** The last decision on c for the waiting input says never sent, its mark is missing, and no retirement of it was
      begun. */
  predicate TornFor(w: World, c: Cid, x: InputId) {
    && c !in w.sent && c !in w.marks && LastDecided(w, c, DecidedNeverSent, Some(x))
    && FinishRetirement(w, c, x, false).None?
  }

  /** An order that stops every pass that comes to it, whatever IBKR shows and the sender answers. */
  predicate Blocks(w: World, k: Cid, x: InputId) {
    var mark := MarkOf(w.marks, k);
    && k !in w.sent
    && (|| mark == Some(AtBroker)
        || ((mark.None? || mark == Some(NeverSent)) && LastDecided(w, k, FoundAtBroker, Some(x)))
        || (mark.None? && FinishRetirement(w, k, x, false).Some?
               && FinishRetirement(w, k, x, false).value.outcome.Stop?))
  }

  /** No order before c blocks. */
  predicate Reaches(w: World, orders: seq<Cid>, c: Cid, x: InputId) {
    orders != [] && (orders[0] == c || (!Blocks(w, orders[0], x) && Reaches(w, orders[1..], c, x)))
  }

  /** A pass that begins here can hand c over against its last decision. */
  predicate Torn(e: Engine, w: World, c: Cid) {
    && w.waiting.Some? && !EarlierRun(w)
    && TornFor(w, c, w.waiting.value) && Reaches(w, e.Released(w.waiting.value), c, w.waiting.value)
  }

  // ----- Judged by the same records -----

  lemma SameJudged(w: World, w': World, k: Cid, x: InputId)
    requires SameRecords(w, w', k)
    ensures TornFor(w', k, x) == TornFor(w, k, x) && Blocks(w', k, x) == Blocks(w, k, x)
  {
    assert NamesRetirementOf(Retirement(k), k) && NamesRetirementOf(RetirementFor(k, x), k);
  }

  lemma {:induction false} SameReach(w: World, w': World, orders: seq<Cid>, c: Cid, x: InputId)
    requires forall k :: k in orders ==> SameRecords(w, w', k)
    ensures Reaches(w', orders, c, x) == Reaches(w, orders, c, x)
  {
    if orders != [] {
      assert orders[0] in orders && forall k :: k in orders[1..] ==> k in orders;
      SameJudged(w, w', orders[0], x);
      SameReach(w, w', orders[1..], c, x);
    }
  }

  // ----- A pass overrules a decision only where the condition holds -----

  lemma GoesOnUnblocked(e: Engine, w: World, k: Cid, x: InputId, env: Env)
    requires SettleOrder(e, w, MarkOf(w.marks, k), k, x, env).outcome.GoOn?
    ensures !Blocks(w, k, x)
  {
  }

  /** No act of the list hands an order over. */
  predicate NoSend(acts: seq<Act>) {
    forall i :: 0 <= i < |acts| ==> !acts[i].Send?
  }

  lemma {:induction false} NoSendOverrules(w: World, acts: seq<Act>, n: nat)
    requires NoSend(acts) && n <= |acts|
    ensures Exec(w, acts[..n]).overruled == w.overruled
    decreases n
  {
    if n == 0 {
      assert acts[..n] == [];
    } else {
      assert acts[..n][0] == acts[0] && acts[..n][1..] == acts[1..][..n - 1];
      NoSendOverrules(Apply(w, acts[0]), acts[1..], n - 1);
    }
  }

  /** What the invariant says of the decisions on c while its input awaits. */
  predicate DecisionsSound(w: World, c: Cid, x: InputId) {
    && (c in w.marks && w.marks[c].Resend? ==> !SaysNeverSent(w, c, x))
    && (c !in w.marks ==> !LastDecided(w, c, NotHandedOver, Some(x)))
  }

  lemma RetiredLast(w: World, c: Cid, x: InputId)
    requires LastDecided(w, c, Retired, Some(x))
    ensures HasRetired(w.decisions, c, x)
  {
    LastDecisionIsOne(w.decisions, c);
  }

  /** The hand-over of c itself, cut anywhere. */
  lemma HandOverOverrules(w: World, c: Cid, x: InputId, result: SendResult, n: nat)
    requires n <= |HandOverActs(c, x, result).acts|
    ensures c in Exec(w, HandOverActs(c, x, result).acts[..n]).overruled ==> c in w.overruled || SaysNeverSent(w, c, x)
  {
    var head := [ForgetNotHandedOver, SetMark(c, HandingOver)];
    var tail := AfterSend(c, x, result);
    var acts := HandOverActs(c, x, result).acts;
    assert acts == head + ([Send(c, result, x)] + tail);
    ExecCut(w, head, [Send(c, result, x)] + tail, n);
    if n <= 2 {
      NoSendOverrules(w, head, n);
    } else {
      var w2 := Exec(w, head);
      ExecTwo(w, head[0], head[1]);
      var rest := ([Send(c, result, x)] + tail)[..n - 2];
      assert rest[0] == Send(c, result, x) && rest[1..] == tail[..n - 3];
      NoSendOverrules(Apply(w2, Send(c, result, x)), tail, n - 3);
      assert SaysNeverSent(w2, c, x) == SaysNeverSent(w, c, x);
    }
  }

  lemma OwnOrderOverrules(e: Engine, w: World, c: Cid, x: InputId, env: Env, n: nat)
    requires DecisionsSound(w, c, x) && n <= |SettleOrder(e, w, MarkOf(w.marks, c), c, x, env).acts|
    ensures c in Exec(w, SettleOrder(e, w, MarkOf(w.marks, c), c, x, env).acts[..n]).overruled ==>
              c in w.overruled || TornFor(w, c, x)
  {
    var r := SettleOrder(e, w, MarkOf(w.marks, c), c, x, env);
    if NoSend(r.acts) {
      NoSendOverrules(w, r.acts, n);
    } else {
      SendsByHandOver(e, w, c, x, env);
      HandOverOverrules(w, c, x, env.handOver(c), n);
      if SaysNeverSent(w, c, x) { SentIsTorn(e, w, c, x, env); }
    }
  }

  lemma SendsByHandOver(e: Engine, w: World, c: Cid, x: InputId, env: Env)
    requires !NoSend(SettleOrder(e, w, MarkOf(w.marks, c), c, x, env).acts)
    ensures SettleOrder(e, w, MarkOf(w.marks, c), c, x, env) == HandOverActs(c, x, env.handOver(c))
  {
    FinishNoSend(w, c, x, c in env.broker);
    TriesByHandOver(e, w, c, x, env);
  }

  lemma FinishNoSend(w: World, c: Cid, x: InputId, shown: bool)
    ensures NoSend(AtBrokerActs(w, c, x))
    ensures FinishRetirement(w, c, x, shown).Some? ==> NoSend(FinishRetirement(w, c, x, shown).value.acts)
  {
  }

  lemma TriesByHandOver(e: Engine, w: World, c: Cid, x: InputId, env: Env)
    ensures NoSend(TrySend(e, w, c, x, env).acts) || TrySend(e, w, c, x, env) == HandOverActs(c, x, env.handOver(c))
  {
  }

  lemma SentIsTorn(e: Engine, w: World, c: Cid, x: InputId, env: Env)
    requires DecisionsSound(w, c, x) && SaysNeverSent(w, c, x)
    requires !NoSend(SettleOrder(e, w, MarkOf(w.marks, c), c, x, env).acts)
    ensures TornFor(w, c, x)
  {
    if LastDecided(w, c, Retired, Some(x)) { RetiredLast(w, c, x); }
  }

  lemma {:induction false} AboutOverrules(w: World, acts: seq<Act>, k: Cid, c: Cid, n: nat)
    requires k != c && n <= |acts| && forall a :: a in acts ==> About(a, k)
    ensures c in Exec(w, acts[..n]).overruled <==> c in w.overruled
  {
    assert forall a :: a in acts[..n] ==> a in acts;
    OrderRecords(w, acts[..n], k, c);
  }

  ghost predicate Distinct(orders: seq<Cid>) {
    forall i, j :: 0 <= i < j < |orders| ==> orders[i] != orders[j]
  }

  /** A pass over the orders, cut anywhere, under the marks it read. */
  lemma {:induction false} OrdersOverrule(e: Engine, w: World, marks: map<Cid, Mark>, orders: seq<Cid>, x: InputId,
                                          env: Env, c: Cid, n: nat)
    requires Distinct(orders) && forall k :: k in orders ==> MarkOf(marks, k) == MarkOf(w.marks, k)
    requires DecisionsSound(w, c, x) && n <= |SettleOrders(e, w, marks, orders, x, env).acts|
    ensures c in Exec(w, SettleOrders(e, w, marks, orders, x, env).acts[..n]).overruled ==>
              c in w.overruled || (TornFor(w, c, x) && Reaches(w, orders, c, x))
    decreases |orders|
  {
    if orders == [] {
      NoSendOverrules(w, [Strike({x})] + ClearActs, n);
    } else {
      var k := orders[0];
      assert k in orders;
      var r := SettleOrder(e, w, MarkOf(marks, k), k, x, env);
      OrderAbout(e, w, MarkOf(marks, k), k, x, env);
      if n <= |r.acts| {
        if r.outcome.GoOn? { ExecCut(w, r.acts, SettleOrders(e, Exec(w, r.acts), marks, orders[1..], x, env).acts, n); }
        FirstOverrules(e, w, k, x, env, c, n);
      } else {
        RestOverrule(e, w, marks, orders, x, env, c, n);
      }
    }
  }

  lemma FirstOverrules(e: Engine, w: World, k: Cid, x: InputId, env: Env, c: Cid, n: nat)
    requires DecisionsSound(w, c, x) && n <= |SettleOrder(e, w, MarkOf(w.marks, k), k, x, env).acts|
    ensures c in Exec(w, SettleOrder(e, w, MarkOf(w.marks, k), k, x, env).acts[..n]).overruled ==>
              c in w.overruled || (k == c && TornFor(w, c, x))
  {
    if k == c {
      OwnOrderOverrules(e, w, c, x, env, n);
    } else {
      OrderAbout(e, w, MarkOf(w.marks, k), k, x, env);
      AboutOverrules(w, SettleOrder(e, w, MarkOf(w.marks, k), k, x, env).acts, k, c, n);
    }
  }

  lemma {:induction false} RestOverrule(e: Engine, w: World, marks: map<Cid, Mark>, orders: seq<Cid>, x: InputId,
                                        env: Env, c: Cid, n: nat)
    requires orders != [] && Distinct(orders) && forall k :: k in orders ==> MarkOf(marks, k) == MarkOf(w.marks, k)
    requires DecisionsSound(w, c, x) && n <= |SettleOrders(e, w, marks, orders, x, env).acts|
    requires n > |SettleOrder(e, w, MarkOf(marks, orders[0]), orders[0], x, env).acts|
    ensures c in Exec(w, SettleOrders(e, w, marks, orders, x, env).acts[..n]).overruled ==>
              c in w.overruled || (TornFor(w, c, x) && Reaches(w, orders, c, x))
    decreases |orders|, 0
  {
    assert orders[0] in orders;
    var r := SettleOrder(e, w, MarkOf(marks, orders[0]), orders[0], x, env);
    LongerGoesOn(e, w, marks, orders, x, env, n);
    OrdersCut(e, w, marks, orders, x, env, n);
    if c == orders[0] {
      OwnThenOthers(e, w, marks, orders, x, env, n - |r.acts|);
    } else {
      OrderDone(e, w, marks, orders, x, env, c);
      OrdersOverrule(e, Exec(w, r.acts), marks, orders[1..], x, env, c, n - |r.acts|);
    }
  }

  lemma LongerGoesOn(e: Engine, w: World, marks: map<Cid, Mark>, orders: seq<Cid>, x: InputId, env: Env, n: nat)
    requires orders != [] && n <= |SettleOrders(e, w, marks, orders, x, env).acts|
    requires n > |SettleOrder(e, w, MarkOf(marks, orders[0]), orders[0], x, env).acts|
    ensures SettleOrder(e, w, MarkOf(marks, orders[0]), orders[0], x, env).outcome.GoOn?
  {
  }

  lemma OwnThenOthers(e: Engine, w: World, marks: map<Cid, Mark>, orders: seq<Cid>, x: InputId, env: Env, n: nat)
    requires orders != [] && Distinct(orders) && MarkOf(marks, orders[0]) == MarkOf(w.marks, orders[0])
    requires var w' := Exec(w, SettleOrder(e, w, MarkOf(marks, orders[0]), orders[0], x, env).acts);
             n <= |SettleOrders(e, w', marks, orders[1..], x, env).acts| && DecisionsSound(w, orders[0], x)
    ensures var w', c := Exec(w, SettleOrder(e, w, MarkOf(marks, orders[0]), orders[0], x, env).acts), orders[0];
            c in Exec(w', SettleOrders(e, w', marks, orders[1..], x, env).acts[..n]).overruled ==>
              c in w.overruled || TornFor(w, c, x)
  {
    var c := orders[0];
    assert forall k :: k in orders[1..] ==> exists i :: 0 < i < |orders| && orders[i] == k;
    WholeOverrules(e, w, c, x, env);
    OthersOverrule(e, Exec(w, SettleOrder(e, w, MarkOf(marks, c), c, x, env).acts), marks, orders[1..], x, env, c, n);
  }

  lemma WholeOverrules(e: Engine, w: World, c: Cid, x: InputId, env: Env)
    requires DecisionsSound(w, c, x)
    ensures c in Exec(w, SettleOrder(e, w, MarkOf(w.marks, c), c, x, env).acts).overruled ==>
              c in w.overruled || TornFor(w, c, x)
  {
    var acts := SettleOrder(e, w, MarkOf(w.marks, c), c, x, env).acts;
    assert acts[..|acts|] == acts;
    OwnOrderOverrules(e, w, c, x, env, |acts|);
  }

  /** An order that goes on leaves the records of the others. */
  lemma OrderDone(e: Engine, w: World, marks: map<Cid, Mark>, orders: seq<Cid>, x: InputId, env: Env, c: Cid)
    requires orders != [] && Distinct(orders) && forall k :: k in orders ==> MarkOf(marks, k) == MarkOf(w.marks, k)
    requires c != orders[0] && DecisionsSound(w, c, x)
    requires SettleOrder(e, w, MarkOf(marks, orders[0]), orders[0], x, env).outcome.GoOn?
    ensures var w' := Exec(w, SettleOrder(e, w, MarkOf(marks, orders[0]), orders[0], x, env).acts);
            && Distinct(orders[1..]) && (forall k :: k in orders[1..] ==> MarkOf(marks, k) == MarkOf(w'.marks, k))
            && DecisionsSound(w', c, x) && (c in w'.overruled <==> c in w.overruled)
            && TornFor(w', c, x) == TornFor(w, c, x)
            && (Reaches(w', orders[1..], c, x) ==> Reaches(w, orders, c, x))
  {
    var k := orders[0];
    assert k in orders;
    var r := SettleOrder(e, w, MarkOf(marks, k), k, x, env);
    var w' := Exec(w, r.acts);
    OrderAbout(e, w, MarkOf(marks, k), k, x, env);
    GoesOnUnblocked(e, w, k, x, env);
    forall j | j != k ensures SameRecords(w, w', j) {
      OrderRecords(w, r.acts, k, j);
    }
    SameJudged(w, w', c, x);
    SameReach(w, w', orders[1..], c, x);
  }

  /** The orders after c leave what was decided of it. */
  lemma {:induction false} OthersOverrule(e: Engine, w: World, marks: map<Cid, Mark>, orders: seq<Cid>, x: InputId,
                                          env: Env, c: Cid, n: nat)
    requires c !in orders && n <= |SettleOrders(e, w, marks, orders, x, env).acts|
    ensures c in Exec(w, SettleOrders(e, w, marks, orders, x, env).acts[..n]).overruled <==> c in w.overruled
    decreases |orders|
  {
    if orders == [] {
      NoSendOverrules(w, [Strike({x})] + ClearActs, n);
    } else {
      var k := orders[0];
      assert k in orders;
      var r := SettleOrder(e, w, MarkOf(marks, k), k, x, env);
      if n <= |r.acts| {
        CutInFirst(e, w, marks, orders, x, env, n);
        OtherOverrules(e, w, marks, k, x, env, c, n);
      } else {
        LongerGoesOn(e, w, marks, orders, x, env, n);
        OrdersCut(e, w, marks, orders, x, env, n);
        OtherOverrules(e, w, marks, k, x, env, c, |r.acts|);
        OthersOverrule(e, Exec(w, r.acts), marks, orders[1..], x, env, c, n - |r.acts|);
      }
    }
  }

  lemma CutInFirst(e: Engine, w: World, marks: map<Cid, Mark>, orders: seq<Cid>, x: InputId, env: Env, n: nat)
    requires orders != [] && n <= |SettleOrder(e, w, MarkOf(marks, orders[0]), orders[0], x, env).acts|
    ensures n <= |SettleOrders(e, w, marks, orders, x, env).acts|
    ensures SettleOrders(e, w, marks, orders, x, env).acts[..n]
            == SettleOrder(e, w, MarkOf(marks, orders[0]), orders[0], x, env).acts[..n]
  {
    if SettleOrder(e, w, MarkOf(marks, orders[0]), orders[0], x, env).outcome.GoOn? {
      OrdersGoOn(e, w, marks, orders, x, env);
    }
  }

  /** One order leaves what was decided of another. */
  lemma OtherOverrules(e: Engine, w: World, marks: map<Cid, Mark>, k: Cid, x: InputId, env: Env, c: Cid, n: nat)
    requires k != c && n <= |SettleOrder(e, w, MarkOf(marks, k), k, x, env).acts|
    ensures var acts := SettleOrder(e, w, MarkOf(marks, k), k, x, env).acts;
            && (c in Exec(w, acts[..n]).overruled <==> c in w.overruled)
            && (n == |acts| ==> acts[..n] == acts)
  {
    OrderAbout(e, w, MarkOf(marks, k), k, x, env);
    AboutOverrules(w, SettleOrder(e, w, MarkOf(marks, k), k, x, env).acts, k, c, n);
  }

  // ----- One operation -----

  lemma InvDecisionsSound(e: Engine, w: World, c: Cid, x: InputId)
    requires Inv(e, w) && w.waiting == Some(x) && c in e.Released(x)
    ensures DecisionsSound(w, c, x)
  {
    assert OrderInv(e, w, c);
  }

  /** Save and Ask of the waiting input change nothing the pass judges by. */
  lemma PassOverrules(e: Engine, w: World, x: InputId, env: Env, c: Cid, n: nat)
    requires e.OneRelease() && n <= |Pass(e, w, x, env).acts|
    requires c in e.Released(x) ==> DecisionsSound(w, c, x)
    ensures c in Exec(w, Pass(e, w, x, env).acts[..n]).overruled ==>
              c in w.overruled || (TornFor(w, c, x) && Reaches(w, e.Released(x), c, x))
  {
    var asked := [Save(x), Ask(x)];
    ExecTwo(w, Save(x), Ask(x));
    var w2 := Exec(w, asked);
    if env.reply.Replied? {
      var rest := SettleOrders(e, w2, w2.marks, e.Released(x), x, env).acts;
      ExecCut(w, asked, rest, n);
      if n <= 2 {
        NoSendOverrules(w, asked, n);
      } else {
        AskedOverrules(e, w, w2, x, env, c, n - 2);
      }
    } else {
      NoSendOverrules(w, Pass(e, w, x, env).acts, n);
    }
  }

  lemma AskedOverrules(e: Engine, w: World, w2: World, x: InputId, env: Env, c: Cid, n: nat)
    requires e.OneRelease() && w2 == Apply(Apply(w, Save(x)), Ask(x))
    requires n <= |SettleOrders(e, w2, w2.marks, e.Released(x), x, env).acts|
    requires c in e.Released(x) ==> DecisionsSound(w, c, x)
    ensures c in Exec(w2, SettleOrders(e, w2, w2.marks, e.Released(x), x, env).acts[..n]).overruled ==>
              c in w.overruled || (TornFor(w, c, x) && Reaches(w, e.Released(x), c, x))
  {
    if c in e.Released(x) {
      OrdersOverrule(e, w2, w2.marks, e.Released(x), x, env, c, n);
      SameJudged(w, w2, c, x);
      SameReach(w, w2, e.Released(x), c, x);
    } else {
      OthersOverrule(e, w2, w2.marks, e.Released(x), x, env, c, n);
    }
  }

  /** An input saved only now has no decision of never sent on any of its orders. */
  lemma NewInputUndecided(e: Engine, w: World, i: nat, c: Cid)
    requires e.OneRelease() && Inv(e, w) && w.waiting.None? && i < |w.outbox| && c in e.Released(w.outbox[i].id)
    ensures forall v :: SettlesNeverSent(v) ==> !LastDecided(w, c, v, Some(w.outbox[i].id))
  {
    var x := w.outbox[i].id;
    assert w.outbox[i] in w.outbox;
    LastDecisionIsOne(w.decisions, c);
    forall v | SettlesNeverSent(v) ensures !LastDecided(w, c, v, Some(x)) {
      assert LastDecided(w, c, v, Some(x)) ==> Touched(e, w, c);
    }
  }

  lemma DrainOverrules(e: Engine, w: World, i: nat, env: Env, c: Cid, n: nat)
    requires e.OneRelease() && Inv(e, w) && n <= |Drain(e, w, i, env).acts|
    ensures c in Exec(w, Drain(e, w, i, env).acts[..n]).overruled ==> c in w.overruled || Torn(e, w, c)
  {
    var acts := Drain(e, w, i, env).acts;
    if w.waiting.Some? {
      var x := w.waiting.value;
      if EarlierRun(w) {
        assert acts[..n] == [];
      } else {
        if c in e.Released(x) { InvDecisionsSound(e, w, c, x); }
        PassOverrules(e, w, x, env, c, n);
      }
    } else if i >= |w.outbox| || w.outbox[i].id in RunEndedIds(w) || w.outbox[i].id in w.committed {
      NoSendOverrules(w, acts, n);
    } else {
      NewInputOverrules(e, w, i, env, c, n);
    }
  }

  lemma NewInputOverrules(e: Engine, w: World, i: nat, env: Env, c: Cid, n: nat)
    requires e.OneRelease() && Inv(e, w) && w.waiting.None? && i < |w.outbox| && n <= |Drain(e, w, i, env).acts|
    requires w.outbox[i].id !in RunEndedIds(w) && w.outbox[i].id !in w.committed
    ensures c in Exec(w, Drain(e, w, i, env).acts[..n]).overruled ==> c in w.overruled
  {
    var x := w.outbox[i].id;
    var record := [RecordRun(x, w.run)];
    var w1 := Apply(w, record[0]);
    assert record[1..] == [] && Exec(w, record) == w1;
    ExecCut(w, record, Pass(e, w1, x, env).acts, n);
    if n <= 1 {
      NoSendOverrules(w, record, n);
    } else {
      if c in e.Released(x) {
        NewInputUndecided(e, w, i, c);
        assert forall v :: LastDecided(w1, c, v, Some(x)) == LastDecided(w, c, v, Some(x));
      }
      PassOverrules(e, w1, x, env, c, n - 1);
      ReachesIn(w1, e.Released(x), c, x);
    }
  }

  lemma {:induction false} ReachesIn(w: World, orders: seq<Cid>, c: Cid, x: InputId)
    ensures Reaches(w, orders, c, x) ==> c in orders
  {
    if orders != [] { ReachesIn(w, orders[1..], c, x); }
  }

  lemma {:induction false} DecideActsNoSend(w: World, log: EndedLog, still: seq<Cid>)
    ensures NoSend(DecideActs(w, log, still))
  {
    if still != [] { DecideActsNoSend(w, log, still[1..]); }
  }

  lemma {:induction false} MarkActsNoSend(w: World, still: seq<Cid>)
    ensures NoSend(MarkActs(w, still))
  {
    if still != [] { MarkActsNoSend(w, still[1..]); }
  }

  lemma ResolveNoSend(e: Engine, w: World, c: Cid, v: Verdict, today: Day)
    requires Resolve(e, w, c, v, today).Some?
    ensures NoSend(Resolve(e, w, c, v, today).value)
  {
  }

  lemma EndingNoSend(w: World, chain: Chain, aside: bool)
    requires ResolveRunEnded(w, chain, aside).Some?
    ensures NoSend(ResolveRunEnded(w, chain, aside).value)
  {
  }

  lemma SettlingNoSend(w: World, log: EndedLog)
    requires SettleEndedRun(w, log).Some?
    ensures NoSend(SettleEndedRun(w, log).value)
  {
    var still := Still(w, log, log.releases);
    DecideActsNoSend(w, log, still);
    MarkActsNoSend(w, still);
  }

  /** No owner's command hands an order over. */
  lemma CommandNoSend(e: Engine, w: World, op: Op)
    ensures NoSend(Command(e, w, op))
  {
    match op
    case OwnerSettlesEndedRun(log) => if SettleEndedRun(w, log).Some? { SettlingNoSend(w, log); }
    case OwnerResolves(c, v, today) => if Resolve(e, w, c, v, today).Some? { ResolveNoSend(e, w, c, v, today); }
    case OwnerEndsRun(chain, aside) => if ResolveRunEnded(w, chain, aside).Some? { EndingNoSend(w, chain, aside); }
    case _ =>
  }

  /** Only a pass that begins in a torn world adds an order to those whose decision was overruled. */
  lemma OverruledOnlyByTornPass(e: Engine, w: World, ev: Event, c: Cid)
    requires e.OneRelease() && Inv(e, w)
    ensures c in Step(e, w, ev).overruled ==> c in w.overruled || (ev.op.DrainOnce? && Torn(e, w, c))
  {
    if ev.op.DrainOnce? {
      DrainStepOverrules(e, w, ev, c);
    } else {
      OtherOpNoSend(e, w, ev.op);
      NoSendStep(e, w, ev);
    }
  }

  lemma DrainStepOverrules(e: Engine, w: World, ev: Event, c: Cid)
    requires e.OneRelease() && Inv(e, w) && ev.op.DrainOnce?
    ensures c in Step(e, w, ev).overruled ==> c in w.overruled || Torn(e, w, c)
  {
    var acts := Drain(e, w, ev.op.i, ev.op.env).acts;
    DrainOverrules(e, w, ev.op.i, ev.op.env, c, Min(ev.cut, |acts|));
  }

  lemma OtherOpNoSend(e: Engine, w: World, op: Op)
    requires !op.DrainOnce?
    ensures NoSend(Acts(e, w, op))
  {
    CommandNoSend(e, Apply(w, Crash), op);
  }

  lemma NoSendStep(e: Engine, w: World, ev: Event)
    requires NoSend(Acts(e, w, ev.op))
    ensures Step(e, w, ev).overruled == w.overruled
  {
    var acts := Acts(e, w, ev.op);
    NoSendOverrules(w, acts, Min(ev.cut, |acts|));
  }

  // ----- Every run -----

  /** No pass of the run begins in a world torn for c. */
  ghost predicate NeverTorn(e: Engine, w: World, evs: seq<Event>, c: Cid)
    decreases |evs|
  {
    evs == [] || ((evs[0].op.DrainOnce? ==> !Torn(e, w, c)) && NeverTorn(e, Step(e, w, evs[0]), evs[1..], c))
  }

  lemma {:induction false} NeverOverruled(e: Engine, w: World, evs: seq<Event>, c: Cid)
    requires e.OneRelease() && Inv(e, w) && Sound(e, evs) && NeverTorn(e, w, evs, c) && c !in w.overruled
    ensures c !in RunOf(e, w, evs).overruled
    decreases |evs|
  {
    if evs != [] {
      OverruledOnlyByTornPass(e, w, evs[0], c);
      StepKeeps(e, w, evs[0]);
      NeverOverruled(e, Step(e, w, evs[0]), evs[1..], c);
    }
  }

  /** The last hand-over of c may have reached IBKR. */
  predicate MayBeAtIbkr(w: World, c: Cid) {
    c in w.last && !w.last[c].NothingHandedOver?
  }

  /** Soundness of settle_ended_run: in a run whose passes each began in a world not torn for c, an order it settles
      was never handed over, or its last hand-over reached nothing. */
  lemma SettledIfNeverTorn(e: Engine, w: World, evs: seq<Event>, log: EndedLog, c: Cid)
    requires e.OneRelease() && Initial(w) && Sound(e, evs) && LogSound(e, log) && NeverTorn(e, w, evs, c)
    requires var w' := RunOf(e, w, evs); c in Still(w', log, log.releases)
    ensures !MayBeAtIbkr(RunOf(e, w, evs), c)
  {
    InitialInv(e, w);
    RunKeeps(e, w, evs);
    NeverOverruled(e, w, evs, c);
    StillSettleable(e, RunOf(e, w, evs), log, c);
  }

  // ----- And where the condition holds, soundness fails -----

  /** IBKR shows the orders that are marked as being handed over, the sender takes every order. */
  function OpenEnv(marks: map<Cid, Mark>): Env {
    Env(set k | k in marks && (marks[k].HandingOver? || marks[k].Resend?),
        (k: Cid) => Accepted, (k: Cid) => Returned, 0, Replied)
  }

  /** Then only an order that blocks stops the pass. */
  lemma UnblockedGoesOn(e: Engine, w: World, marks: map<Cid, Mark>, k: Cid, x: InputId)
    requires MarkOf(marks, k) == MarkOf(w.marks, k) && !Blocks(w, k, x)
    ensures SettleOrder(e, w, MarkOf(marks, k), k, x, OpenEnv(marks)).outcome.GoOn?
  {
  }

  /** What the rest of the argument needs of the world at the hand-over. */
  ghost predicate HandedOverIn(w: World, w': World, c: Cid) {
    && w'.waiting == w.waiting && w'.runOf == w.runOf && w'.run == w.run
    && LastDecision(w'.decisions, c) == LastDecision(w.decisions, c)
    && c in w'.last && w'.last[c].Returned?
    && forall en :: en in w'.outbox && en.kind.Report? ==> en in w.outbox
  }

  lemma AboutReport(w: World, a: Act, c: Cid)
    requires About(a, c)
    ensures forall en :: en in Apply(w, a).outbox && en.kind.Report? ==> en in w.outbox
  {
    match a
    case Queue(en) => MembersAppend(w.outbox, en);
    case Strike(ids) =>
      forall en ensures en in Without(w.outbox, ids) ==> en in w.outbox { WithoutMember(w.outbox, ids, en); }
    case _ =>
  }

  lemma {:induction false} AboutReports(w: World, acts: seq<Act>, c: Cid)
    requires forall a :: a in acts ==> About(a, c)
    ensures forall en :: en in Exec(w, acts).outbox && en.kind.Report? ==> en in w.outbox
    decreases |acts|
  {
    if acts != [] {
      assert acts[0] in acts && forall a :: a in acts[1..] ==> a in acts;
      AboutReport(w, acts[0], c);
      AboutReports(Apply(w, acts[0]), acts[1..], c);
    }
  }

  lemma FirstHandsOver(e: Engine, w: World, marks: map<Cid, Mark>, c: Cid, x: InputId)
    requires TornFor(w, c, x) && MarkOf(marks, c) == MarkOf(w.marks, c)
    ensures var r := SettleOrder(e, w, MarkOf(marks, c), c, x, OpenEnv(marks));
            |r.acts| >= 3 && HandedOverIn(w, Exec(w, r.acts[..3]), c)
  {
    var r := SettleOrder(e, w, MarkOf(marks, c), c, x, OpenEnv(marks));
    assert r == HandOverActs(c, x, Returned);
    var head := [ForgetNotHandedOver, SetMark(c, HandingOver)];
    assert r.acts[..3] == head + [Send(c, Returned, x)];
    ExecConcat(w, head, [Send(c, Returned, x)]);
    ExecTwo(w, head[0], head[1]);
    var w2 := Exec(w, head);
    ExecCons(w2, Send(c, Returned, x), []);
    assert [Send(c, Returned, x)] + [] == [Send(c, Returned, x)];
  }

  /** One step of a pass towards c. */
  ghost predicate StepsTo(w: World, w': World, orders: seq<Cid>, c: Cid, x: InputId) {
    && TornFor(w', c, x) && Reaches(w', orders, c, x)
    && w'.waiting == w.waiting && w'.runOf == w.runOf && w'.run == w.run
    && LastDecision(w'.decisions, c) == LastDecision(w.decisions, c)
    && (forall k :: k in orders ==> MarkOf(w'.marks, k) == MarkOf(w.marks, k))
    && forall en :: en in w'.outbox && en.kind.Report? ==> en in w.outbox
  }

  lemma PassesOn(e: Engine, w: World, marks: map<Cid, Mark>, orders: seq<Cid>, x: InputId, c: Cid)
    requires orders != [] && orders[0] != c && Distinct(orders)
    requires MarkOf(marks, orders[0]) == MarkOf(w.marks, orders[0])
    requires TornFor(w, c, x) && Reaches(w, orders, c, x)
    ensures var r := SettleOrder(e, w, MarkOf(marks, orders[0]), orders[0], x, OpenEnv(marks));
            r.outcome.GoOn? && StepsTo(w, Exec(w, r.acts), orders[1..], c, x)
  {
    var k, env := orders[0], OpenEnv(marks);
    var r := SettleOrder(e, w, MarkOf(marks, k), k, x, env);
    var w' := Exec(w, r.acts);
    UnblockedGoesOn(e, w, marks, k, x);
    OrderAbout(e, w, MarkOf(marks, k), k, x, env);
    forall j | j in orders[1..] ensures SameRecords(w, w', j) { OrderRecords(w, r.acts, k, j); }
    ReachesIn(w, orders[1..], c, x);
    SameJudged(w, w', c, x);
    SameReach(w, w', orders[1..], c, x);
    AboutFrame(w, r.acts, k);
    AboutReports(w, r.acts, k);
  }

  /** The first n acts of the pass over the orders lead to done. */
  ghost predicate CutAt(e: Engine, w: World, marks: map<Cid, Mark>, orders: seq<Cid>, x: InputId, env: Env, n: nat,
                        done: World) {
    var acts := SettleOrders(e, w, marks, orders, x, env).acts;
    n <= |acts| && done == Exec(w, acts[..n])
  }

  /** A pass that reaches c hands it over. */
  lemma {:induction false} HandsOver(e: Engine, w: World, marks: map<Cid, Mark>, orders: seq<Cid>, x: InputId, c: Cid)
    returns (n: nat, done: World)
    requires Nearing(w, marks, orders, x, c)
    ensures CutAt(e, w, marks, orders, x, OpenEnv(marks), n, done) && HandedOverIn(w, done, c)
    decreases |orders|
  {
    if orders[0] == c {
      done := FirstOfOrders(e, w, marks, orders, x, c);
      n := 3;
    } else {
      var w', k := Onward(e, w, marks, orders, x, c);
      var m;
      m, done := HandsOver(e, w', marks, orders[1..], x, c);
      LaterInOrders(e, w, marks, orders, x, OpenEnv(marks), w', k, m, done);
      HandedThrough(w, w', done, orders[1..], c, x);
      n := k + m;
    }
  }

  /** A pass under these marks comes to c, which is torn. */
  ghost predicate Nearing(w: World, marks: map<Cid, Mark>, orders: seq<Cid>, x: InputId, c: Cid) {
    && Distinct(orders) && (forall k :: k in orders ==> MarkOf(marks, k) == MarkOf(w.marks, k))
    && TornFor(w, c, x) && Reaches(w, orders, c, x)
  }

  /** The first order goes on, in k acts. */
  ghost predicate FirstDone(e: Engine, w: World, marks: map<Cid, Mark>, orders: seq<Cid>, x: InputId, env: Env,
                            w': World, k: nat)
    requires orders != []
  {
    var r := SettleOrder(e, w, MarkOf(marks, orders[0]), orders[0], x, env);
    r.outcome.GoOn? && w' == Exec(w, r.acts) && k == |r.acts|
  }

  lemma Onward(e: Engine, w: World, marks: map<Cid, Mark>, orders: seq<Cid>, x: InputId, c: Cid)
    returns (w': World, k: nat)
    requires Nearing(w, marks, orders, x, c) && orders[0] != c
    ensures FirstDone(e, w, marks, orders, x, OpenEnv(marks), w', k)
    ensures StepsTo(w, w', orders[1..], c, x) && Nearing(w', marks, orders[1..], x, c)
  {
    assert orders[0] in orders;
    var r := SettleOrder(e, w, MarkOf(marks, orders[0]), orders[0], x, OpenEnv(marks));
    PassesOn(e, w, marks, orders, x, c);
    w', k := Exec(w, r.acts), |r.acts|;
    StillRead(w, w', marks, orders, x, c);
  }

  lemma StillRead(w: World, w': World, marks: map<Cid, Mark>, orders: seq<Cid>, x: InputId, c: Cid)
    requires orders != [] && Distinct(orders) && forall k :: k in orders ==> MarkOf(marks, k) == MarkOf(w.marks, k)
    requires StepsTo(w, w', orders[1..], c, x)
    ensures Distinct(orders[1..]) && forall k :: k in orders[1..] ==> MarkOf(marks, k) == MarkOf(w'.marks, k)
  {
    assert forall k :: k in orders[1..] ==> k in orders;
  }

  lemma FirstOfOrders(e: Engine, w: World, marks: map<Cid, Mark>, orders: seq<Cid>, x: InputId, c: Cid)
    returns (done: World)
    requires Nearing(w, marks, orders, x, c) && orders[0] == c
    ensures CutAt(e, w, marks, orders, x, OpenEnv(marks), 3, done) && HandedOverIn(w, done, c)
  {
    var r := SettleOrder(e, w, MarkOf(marks, c), c, x, OpenEnv(marks));
    assert c in orders;
    FirstHandsOver(e, w, marks, c, x);
    assert SettleOrders(e, w, marks, orders, x, OpenEnv(marks)).acts[..3] == r.acts[..3];
    done := Exec(w, r.acts[..3]);
  }

  /** What a cut in the rest of the orders leads to, with the first done before it. */
  lemma LaterInOrders(e: Engine, w: World, marks: map<Cid, Mark>, orders: seq<Cid>, x: InputId, env: Env, w': World,
                      k: nat, m: nat, done: World)
    requires orders != [] && FirstDone(e, w, marks, orders, x, env, w', k)
    requires CutAt(e, w', marks, orders[1..], x, env, m, done)
    ensures CutAt(e, w, marks, orders, x, env, k + m, done)
  {
    OrdersCutAfter(e, w, marks, orders, x, env, m);
  }

  /** Where a cut falls in the acts of orders whose first goes on. */
  lemma OrdersCut(e: Engine, w: World, marks: map<Cid, Mark>, orders: seq<Cid>, x: InputId, env: Env, n: nat)
    requires orders != [] && SettleOrder(e, w, MarkOf(marks, orders[0]), orders[0], x, env).outcome.GoOn?
    requires n <= |SettleOrders(e, w, marks, orders, x, env).acts|
    ensures var r, acts := SettleOrder(e, w, MarkOf(marks, orders[0]), orders[0], x, env),
                SettleOrders(e, w, marks, orders, x, env).acts;
            var rest := SettleOrders(e, Exec(w, r.acts), marks, orders[1..], x, env).acts;
            if n <= |r.acts| then Exec(w, acts[..n]) == Exec(w, r.acts[..n])
            else n - |r.acts| <= |rest| && Exec(w, acts[..n]) == Exec(Exec(w, r.acts), rest[..n - |r.acts|])
  {
    var r := SettleOrder(e, w, MarkOf(marks, orders[0]), orders[0], x, env);
    var acts := SettleOrders(e, w, marks, orders, x, env).acts;
    var rest := SettleOrders(e, Exec(w, r.acts), marks, orders[1..], x, env).acts;
    assert acts == r.acts + rest by { OrdersGoOn(e, w, marks, orders, x, env); }
    ExecCutOf(w, acts, r.acts, rest, n);
  }

  lemma ExecCutOf(w: World, all: seq<Act>, a: seq<Act>, b: seq<Act>, n: nat)
    requires all == a + b && n <= |all|
    ensures if n <= |a| then Exec(w, all[..n]) == Exec(w, a[..n])
            else n - |a| <= |b| && Exec(w, all[..n]) == Exec(Exec(w, a), b[..n - |a|])
  {
    ExecCut(w, a, b, n);
  }

  lemma OrdersCutAfter(e: Engine, w: World, marks: map<Cid, Mark>, orders: seq<Cid>, x: InputId, env: Env, m: nat)
    requires orders != [] && SettleOrder(e, w, MarkOf(marks, orders[0]), orders[0], x, env).outcome.GoOn?
    requires var r := SettleOrder(e, w, MarkOf(marks, orders[0]), orders[0], x, env);
             m <= |SettleOrders(e, Exec(w, r.acts), marks, orders[1..], x, env).acts|
    ensures var r, acts := SettleOrder(e, w, MarkOf(marks, orders[0]), orders[0], x, env),
                SettleOrders(e, w, marks, orders, x, env).acts;
            var w' := Exec(w, r.acts);
            && |r.acts| + m <= |acts|
            && Exec(w, acts[..|r.acts| + m]) == Exec(w', SettleOrders(e, w', marks, orders[1..], x, env).acts[..m])
  {
    var r := SettleOrder(e, w, MarkOf(marks, orders[0]), orders[0], x, env);
    OrdersGoOn(e, w, marks, orders, x, env);
    CutAfterOf(w, SettleOrders(e, w, marks, orders, x, env).acts, r.acts,
               SettleOrders(e, Exec(w, r.acts), marks, orders[1..], x, env).acts, m);
  }

  lemma CutAfterOf(w: World, all: seq<Act>, a: seq<Act>, b: seq<Act>, m: nat)
    requires all == a + b && m <= |b|
    ensures |a| + m <= |all| && Exec(w, all[..|a| + m]) == Exec(Exec(w, a), b[..m])
  {
    CutAfter(w, a, b, m);
  }

  lemma HandedThrough(w: World, w': World, w'': World, orders: seq<Cid>, c: Cid, x: InputId)
    requires StepsTo(w, w', orders, c, x) && HandedOverIn(w', w'', c)
    ensures HandedOverIn(w, w'', c)
  {
  }

  lemma CutAfter(w: World, a: seq<Act>, b: seq<Act>, m: nat)
    requires m <= |b|
    ensures Exec(w, (a + b)[..|a| + m]) == Exec(Exec(w, a), b[..m])
  {
    assert (a + b)[..|a| + m] == a + b[..m];
    ExecConcat(w, a, b[..m]);
  }

  /** The waiting input's pass, cut right after c is handed over. */
  lemma PassHandsOver(e: Engine, w: World, c: Cid) returns (ev: Event)
    requires e.OneRelease() && Torn(e, w, c)
    ensures ev.op.DrainOnce? && HandedOverIn(w, Step(e, w, ev), c)
  {
    var x := w.waiting.value;
    var w2 := Exec(w, [Save(x), Ask(x)]);
    AskedSame(e, w, x, c);
    var n, done := HandsOver(e, w2, w2.marks, e.Released(x), x, c);
    ev := Event(DrainOnce(0, OpenEnv(w2.marks)), 2 + n);
    PassActs(e, w, x, OpenEnv(w2.marks), n);
    assert HandedOverIn(w, done, c);
    CutOrCrash(e, w, ev);
  }

  lemma AskedSame(e: Engine, w: World, x: InputId, c: Cid)
    requires w.waiting == Some(x) && TornFor(w, c, x) && Reaches(w, e.Released(x), c, x)
    ensures var w2 := Exec(w, [Save(x), Ask(x)]);
            TornFor(w2, c, x) && Reaches(w2, e.Released(x), c, x) && w2 == w.(committed := w.committed + {x})
  {
    ExecTwo(w, Save(x), Ask(x));
    var w2 := Exec(w, [Save(x), Ask(x)]);
    SameJudged(w, w2, c, x);
    SameReach(w, w2, e.Released(x), c, x);
  }

  lemma PassActs(e: Engine, w: World, x: InputId, env: Env, n: nat)
    requires w.waiting == Some(x) && !EarlierRun(w) && env.reply.Replied?
    requires var w2 := Exec(w, [Save(x), Ask(x)]); n <= |SettleOrders(e, w2, w2.marks, e.Released(x), x, env).acts|
    ensures var w2 := Exec(w, [Save(x), Ask(x)]);
            var acts := Acts(e, w, DrainOnce(0, env));
            2 + n <= |acts| && Exec(w, acts[..2 + n]) ==
                Exec(w2, SettleOrders(e, w2, w2.marks, e.Released(x), x, env).acts[..n])
  {
    var asked := [Save(x), Ask(x)];
    var w2 := Exec(w, asked);
    CutAfter(w, asked, SettleOrders(e, w2, w2.marks, e.Released(x), x, env).acts, n);
  }

  lemma CutOrCrash(e: Engine, w: World, ev: Event)
    requires ev.cut <= |Acts(e, w, ev.op)|
    ensures var done := Exec(w, Acts(e, w, ev.op)[..ev.cut]);
            Step(e, w, ev) == done || Step(e, w, ev) == done.(sent := {})
  {
  }

  const NoChain: Chain := Chain({}, {}, None)

  lemma {:induction false} EndingKeeps(w: World, acts: seq<Act>)
    requires forall i :: 0 <= i < |acts| ==>
             !acts[i].Decide? && !acts[i].Send? && !acts[i].Queue? && !acts[i].Save? && !acts[i].SetMark?
    ensures var w' := Exec(w, acts);
            w'.decisions == w.decisions && w'.last == w.last && (w.waiting.None? ==> w'.waiting.None?)
            && (forall en :: en in w'.outbox ==> en in w.outbox) && (w.marks == map[] ==> w'.marks == map[])
    decreases |acts|
  {
    if acts != [] {
      if acts[0].Strike? {
        forall en ensures en in Apply(w, acts[0]).outbox ==> en in w.outbox {
          WithoutMember(w.outbox, acts[0].ids, en);
        }
      }
      EndingKeeps(Apply(w, acts[0]), acts[1..]);
    }
  }

  lemma ClearKeeps(w: World)
    ensures var w' := Exec(w, ClearActs);
            w'.waiting.None? && w'.marks == map[] && w'.decisions == w.decisions && w'.last == w.last
                                          && w'.outbox == w.outbox
  {
    ExecCons(w, RemoveInput, [RemoveMarks, RemoveRefusal, ForgetNotHandedOver, RemoveRun]);
    var w1 := Apply(w, RemoveInput);
    ExecCons(w1, RemoveMarks, [RemoveRefusal, ForgetNotHandedOver, RemoveRun]);
    EndingKeeps(Apply(w1, RemoveMarks), [RemoveRefusal, ForgetNotHandedOver, RemoveRun]);
    assert ClearActs == [RemoveInput] + [RemoveMarks, RemoveRefusal, ForgetNotHandedOver, RemoveRun];
    assert [RemoveMarks] + [RemoveRefusal, ForgetNotHandedOver, RemoveRun] ==
        [RemoveMarks, RemoveRefusal, ForgetNotHandedOver, RemoveRun];
  }

  lemma StartsFresh(e: Engine, w: World)
    ensures Step(e, w, Event(FreshRun, 2)) == w.(run := w.run + 1, committed := {}, sent := {})
  {
    ExecTwo(w, StartFreshRun, Crash);
    assert [StartFreshRun, Crash][..2] == [StartFreshRun, Crash];
  }

  lemma EndsInput(e: Engine, w: World) returns (ev: Event)
    requires EarlierRun(w) && w.runOf.Some? && w.runOf.value.input == w.waiting.value && w.sent == {}
    ensures !ev.op.OwnerSettlesEndedRun? && Cleared(w, Step(e, w, ev))
  {
    var op := OwnerEndsRun(NoChain, true);
    assert Apply(w, Crash) == w;
    assert NoChain.current - FoundFor(w, w.waiting.value) == {};
    var list := ResolveRunEnded(w, NoChain, true);
    EndedWorld(w, list.value);
    ev := Event(op, 1 + |list.value|);
    ExecCons(w, Crash, list.value);
    assert ([Crash] + list.value)[..1 + |list.value|] == [Crash] + list.value;
  }

  /** Nothing awaits a reply, no mark is left, and nothing was decided or sent since. */
  ghost predicate Cleared(w: World, w': World) {
    && w'.waiting.None? && w'.marks == map[] && w'.decisions == w.decisions && w'.last == w.last
    && forall en :: en in w'.outbox ==> en in w.outbox
  }

  /** A fresh run, and the owner's settlement of the input the ended run left. */
  lemma EndsTheRun(e: Engine, w: World) returns (evs: seq<Event>)
    requires RunInv(w) && w.waiting.Some?
    ensures Sound(e, evs) && Cleared(w, RunOf(e, w, evs))
  {
    StartsFresh(e, w);
    var w1 := w.(run := w.run + 1, committed := {}, sent := {});
    var second := EndsInput(e, w1);
    evs := [Event(FreshRun, 2), second];
    assert evs[1..] == [second] && [second][1..] == [];
    assert RunOf(e, w1, [second]) == Step(e, w1, second);
  }

  lemma EndedWorld(w: World, acts: seq<Act>)
    requires ResolveRunEnded(w, NoChain, true) == Some(acts)
    ensures Cleared(w, Exec(w, acts))
  {
    var n := EndingForm(w, acts);
    ExecConcat(w, acts[..n], ClearActs);
    EndingKeeps(w, acts[..n]);
    ClearKeeps(Exec(w, acts[..n]));
  }

  lemma EndingForm(w: World, acts: seq<Act>) returns (n: nat)
    requires ResolveRunEnded(w, NoChain, true) == Some(acts)
    ensures n <= |acts| && acts == acts[..n] + ClearActs
    ensures forall i :: 0 <= i < n ==>
              !acts[i].Decide? && !acts[i].Send? && !acts[i].Queue? && !acts[i].Save? && !acts[i].SetMark?
  {
    n := |acts| - |ClearActs|;
  }

  predicate NoReport(w: World, c: Cid) {
    forall en :: en in w.outbox && en.kind.Report? ==> en.cid != Some(c)
  }

  /** settle_ended_run accepts the log and settles an order that may be at IBKR. */
  ghost predicate Misleads(e: Engine, w: World, log: EndedLog, c: Cid) {
    LogSound(e, log) && SettleEndedRun(w, log).Some? && c in Still(w, log, log.releases) && MayBeAtIbkr(w, c)
  }

  lemma SettlesIt(e: Engine, w: World, c: Cid, x: InputId, run: Run)
    requires c in e.Released(x) && w.waiting.None? && w.marks == map[] && NoReport(w, c) && MayBeAtIbkr(w, c)
    requires LastDecided(w, c, DecidedNeverSent, Some(x)) && LastDecision(w.decisions, c).value.run == Some(run)
    requires LastRun(w.decisions) == Some(run)
    ensures Misleads(e, w, EndedLog(0, run, [Release(x, c)], {}, {}), c)
  {
    var log := EndedLog(0, run, [Release(x, c)], {}, {});
    assert Times(log.releases, c) == 1 by { assert log.releases[1..] == []; }
    assert c !in ReportedOn(w, log);
    assert Evidence(w, log, x, c).Shown?;
    StillMember(w, log, log.releases, c);
    assert log.releases[0] == Release(x, c);
  }

  /** From every reachable world torn for c, with no report on c queued, there is a run after which settle_ended_run
      settles c although the sender took it: the condition is exact. */
  lemma TornMisleads(e: Engine, w: World, evs: seq<Event>, c: Cid)
    requires e.OneRelease() && Initial(w) && Sound(e, evs)
    requires var w' := RunOf(e, w, evs); Torn(e, w', c) && NoReport(w', c)
    ensures exists more, log :: Sound(e, more) && Misleads(e, RunOf(e, RunOf(e, w, evs), more), log, c)
  {
    InitialInv(e, w);
    RunKeeps(e, w, evs);
    var w' := RunOf(e, w, evs);
    var more, log := MisleadsFrom(e, w', c);
    assert Sound(e, more) && Misleads(e, RunOf(e, w', more), log, c);
  }

  lemma MisleadsFrom(e: Engine, w: World, c: Cid) returns (more: seq<Event>, log: EndedLog)
    requires e.OneRelease() && Inv(e, w) && Torn(e, w, c) && NoReport(w, c)
    ensures Sound(e, more) && Misleads(e, RunOf(e, w, more), log, c)
  {
    var x := w.waiting.value;
    ReachesIn(w, e.Released(x), c, x);
    var ev := PassHandsOver(e, w, c);
    StepKeeps(e, w, ev);
    var w1 := Step(e, w, ev);
    var rest := EndsTheRun(e, w1);
    log := HandedMisleads(e, w, w1, RunOf(e, w1, rest), c);
    more := [ev] + rest;
    assert more[1..] == rest;
  }

  lemma HandedMisleads(e: Engine, w: World, w1: World, w2: World, c: Cid) returns (log: EndedLog)
    requires Torn(e, w, c) && NoReport(w, c) && c in e.Released(w.waiting.value)
    requires HandedOverIn(w, w1, c) && RunInv(w1) && DecidedInRun(w1) && Cleared(w1, w2)
    ensures Misleads(e, w2, log, c)
  {
    LastDecisionIsOne(w1.decisions, c);
    assert LastDecision(w1.decisions, c).value in w1.decisions;
    var run := w1.runOf.value.run;
    SettlesIt(e, w2, c, w.waiting.value, run);
    log := EndedLog(0, run, [Release(w.waiting.value, c)], {}, {});
  }
}
