/** Every operation follows the discipline at every one of its acts. */
module HandoverLegal {
  import opened Wrappers
  import opened Handover
  import opened HandoverRuns
  import opened HandoverKeeps

  /** A pass is at input x of the run now running, with its reply in hand. */
  ghost predicate AtInput(w: World, x: InputId) {
    w.waiting == Some(x) && x in w.committed && w.runOf == Some(RunRecord(x, w.run)) && x !in RunEndedIds(w)
  }

  /** The run of the input that awaits its reply is recorded. */
  predicate Tags(w: World) {
    w.waiting.Some? ==> w.runOf.Some? && w.runOf.value.input == w.waiting.value
  }

  lemma LegalCons(e: Engine, w: World, a: Act, rest: seq<Act>)
    requires Allowed(e, w, a) && Legal(e, Apply(w, a), rest)
    ensures Legal(e, w, [a] + rest) && Exec(w, [a] + rest) == Exec(Apply(w, a), rest)
  {
    assert ([a] + rest)[1..] == rest;
  }

  lemma LegalOne(e: Engine, w: World, a: Act)
    requires Allowed(e, w, a)
    ensures Legal(e, w, [a]) && Exec(w, [a]) == Apply(w, a)
  {
    assert [a][1..] == [];
  }

  lemma {:induction false} LastRetiredIsOne(ds: seq<Decision>, c: Cid)
    ensures Recorded(ds, c) <==> LastRetired(ds, c).Some?
    ensures LastRetired(ds, c).Some? ==> LastRetired(ds, c).value in ds && LastRetired(ds, c).value.cid == c
                                         && LastRetired(ds, c).value.verdict.Retired?
  {
    if ds != [] {
      var n := |ds| - 1;
      LastRetiredIsOne(ds[..n], c);
      assert ds == ds[..n] + [ds[n]];
      MembersAppend(ds[..n], ds[n]);
    }
  }

  /** With none begun, no retirement of c is durable for x, and none was ever queued. */
  lemma NoneBegun(e: Engine, w: World, c: Cid, x: InputId, shown: bool)
    requires e.OneRelease() && Inv(e, w) && AtInput(w, x) && c in e.Released(x) && c !in w.marks
    requires FinishRetirement(w, c, x, shown).None?
    ensures !Begun(w, c, x) && !Frozen(e, w, c)
    ensures forall id :: NamesRetirementOf(id, c) ==> id !in w.queued
  {
    assert OrderInv(e, w, c);
    LastRetiredIsOne(w.decisions, c);
    assert forall en :: en in w.outbox && NamesRetirementOf(en.id, c) ==>
        en.id in w.queued && en.id in Ids(w.outbox) && (en.id.Retirement? ==> en.id == Retirement(c));
    assert !Begun(w, c, x);
  }

  /** A retirement of an unmarked order is told, recorded and marked within the discipline. */
  /** The record and the mark of a retirement, once it is queued. */
  lemma RetiredLegal(e: Engine, w: World, c: Cid, x: InputId)
    requires w.waiting == Some(x) && c in e.Released(x) && c !in w.marks && c !in w.sent && Touched(e, w, c)
             && Unhanded(w, c)
    requires Tags(w) && exists y :: y in Ids(w.outbox) && NamesRetirementOf(y, c)
    ensures var acts := [Decide(Decision(c, Retired, Some(x), None, None, true)), SetMark(c, NeverSent)];
            Legal(e, w, acts) && Exec(w, acts).marks == w.marks[c := NeverSent]
  {
    var d := Decision(c, Retired, Some(x), None, None, true);
    var w2 := Apply(w, Decide(d));
    MembersAppend(w.decisions, Tagged(w, d));
    assert Touched(e, w2, c);
    LegalOne(e, w2, SetMark(c, NeverSent));
    LegalCons(e, w, Decide(d), [SetMark(c, NeverSent)]);
    assert [Decide(d)] + [SetMark(c, NeverSent)] == [Decide(d), SetMark(c, NeverSent)];
    ExecTwo(w, Decide(d), SetMark(c, NeverSent));
  }

  lemma RetireLegal(e: Engine, w: World, c: Cid, id: InputId, x: InputId)
    requires w.waiting == Some(x) && c in e.Released(x) && c !in w.marks && c !in w.sent && Touched(e, w, c)
             && Unhanded(w, c)
    requires Tags(w)
    requires id == Retirement(c) || (id == RetirementFor(c, x) && Recorded(w.decisions, c))
    requires id in Ids(w.outbox) || id !in w.queued || id in RunEndedIds(w)
    ensures Legal(e, w, RetireActs(w, c, id, x))
    ensures Exec(w, RetireActs(w, c, id, x)).marks == w.marks[c := NeverSent]
  {
    var tail := [Decide(Decision(c, Retired, Some(x), None, None, true)), SetMark(c, NeverSent)];
    if id in Ids(w.outbox) {
      RetiredLegal(e, w, c, x);
      assert RetireActs(w, c, id, x) == tail;
    } else {
      var queue := Queue(RetireEntry(id));
      var w1 := Apply(w, queue);
      assert Touched(e, w1, c) && w1.outbox[|w.outbox|] == RetireEntry(id);
      assert RetireEntry(id) in w1.outbox && id in Ids(w1.outbox);
      RetiredLegal(e, w1, c, x);
      LegalCons(e, w, queue, tail);
      assert RetireActs(w, c, id, x) == [queue] + tail;
      assert ([queue] + tail)[1..] == tail;
    }
  }

  lemma AtBrokerLegal(e: Engine, w: World, c: Cid, x: InputId)
    requires e.OneRelease() && Inv(e, w) && w.waiting == Some(x) && c in e.Released(x) && c !in w.sent
    ensures Legal(e, w, AtBrokerActs(w, c, x))
  {
    var owners := MarkOf(w.marks, c) == Some(AtBroker) && LastDecided(w, c, DecidedSent, Some(x));
    var d := Decision(c, FoundAtBroker, Some(x), None, None, true);
    var first := if owners || LastDecided(w, c, FoundAtBroker, Some(x)) then [] else [Decide(d)];
    var second := if MarkOf(w.marks, c) == Some(AtBroker) then [] else [SetMark(c, AtBroker)];
    var third := [Strike(RetirementsOf(w.outbox, c))];
    var w1 := Exec(w, first);
    if first != [] { LegalOne(e, w, Decide(d)); }
    assert w1.marks == w.marks && Touched(e, w1, c);
    MarkAndStrikeLegal(e, w1, c, second, RetirementsOf(w.outbox, c));
    LegalConcat(e, w, first, second + third);
    assert AtBrokerActs(w, c, x) == first + (second + third);
  }

  lemma MarkAndStrikeLegal(e: Engine, w: World, c: Cid, marking: seq<Act>, ids: set<InputId>)
    requires Touched(e, w, c) && c !in w.sent && forall y :: y in ids ==> NamesRetirementOf(y, c)
    requires marking == if MarkOf(w.marks, c) == Some(AtBroker) then [] else [SetMark(c, AtBroker)]
    ensures Legal(e, w, marking + [Strike(ids)])
  {
    var w' := Exec(w, marking);
    if marking != [] { LegalOne(e, w, SetMark(c, AtBroker)); }
    assert HasSettledMark(w', c);
    LegalOne(e, w', Strike(ids));
    LegalConcat(e, w, marking, [Strike(ids)]);
  }

  /** An order with a legacy retirement on record and none queued has had none queued. */
  lemma NoneQueued(e: Engine, w: World, c: Cid, x: InputId)
    requires e.OneRelease() && Inv(e, w) && AtInput(w, x) && c in e.Released(x) && c !in w.marks
    requires !HasRetired(w.decisions, c, x) && RetirementFor(c, x) !in Ids(w.outbox) && Retirement(c) !in Ids(w.outbox)
    ensures RetirementFor(c, x) !in w.queued
  {
    assert OrderInv(e, w, c);
    assert forall en :: en in w.outbox && NamesRetirementOf(en.id, c) ==> en.id in w.queued && en.id in Ids(w.outbox);
    assert !Begun(w, c, x);
    assert !Frozen(e, w, c);
  }

  lemma RecordAndMarkLegal(e: Engine, w: World, c: Cid, x: InputId, record: bool)
    requires w.waiting == Some(x) && c in e.Released(x) && c !in w.marks && c !in w.sent && Touched(e, w, c)
             && Unhanded(w, c)
    requires Tags(w) && (record || SaidNeverSent(w, c))
    ensures Legal(e, w, (if record then [Decide(Decision(c, Retired, Some(x), None, None, true))]
            else []) + [SetMark(c, NeverSent)])
  {
    var d := Decision(c, Retired, Some(x), None, None, true);
    var mark := [SetMark(c, NeverSent)];
    var w1 := Apply(w, Decide(d));
    if record {
      MembersAppend(w.decisions, Tagged(w, d));
      assert Touched(e, w1, c);
      LegalOne(e, w1, SetMark(c, NeverSent));
      LegalCons(e, w, Decide(d), mark);
    } else {
      LegalOne(e, w, SetMark(c, NeverSent));
      assert [] + mark == mark;
    }
  }

  lemma FinishLegal(e: Engine, w: World, c: Cid, x: InputId, shown: bool)
    requires e.OneRelease() && Inv(e, w) && AtInput(w, x) && c in e.Released(x) && c !in w.marks && c !in w.sent
    requires FinishRetirement(w, c, x, shown).Some?
    ensures Legal(e, w, FinishRetirement(w, c, x, shown).value.acts)
  {
    assert OrderInv(e, w, c);
    LastRetiredIsOne(w.decisions, c);
    var own := HasRetired(w.decisions, c, x);
    var unknown := !own && LastRetired(w.decisions, c).Some? && LastRetired(w.decisions, c).value.input.None?;
    var thisInput := unknown && RetirementFor(c, x) in Ids(w.outbox);
    var entry := thisInput || Retirement(c) in Ids(w.outbox);
    assert Touched(e, w, c) && Unhanded(w, c);
    if shown {
      AtBrokerLegal(e, w, c, x);
    } else if unknown && !entry {
      NoneQueued(e, w, c, x);
      RetireLegal(e, w, c, RetirementFor(c, x), x);
    } else {
      RecordAndMarkLegal(e, w, c, x, (!own && !unknown) || thisInput);
    }
  }

  lemma HandOverLegal(e: Engine, w: World, c: Cid, x: InputId, result: SendResult)
    requires w.waiting == Some(x) && !EarlierRun(w) && c in e.Released(x) && Touched(e, w, c)
    requires !HasSettledMark(w, c) && !Begun(w, c, x) && w.sends[c] <= Resends(w.decisions, c)
    ensures Legal(e, w, HandOverActs(c, x, result).acts)
  {
    var w1 := Apply(w, ForgetNotHandedOver);
    assert Touched(e, w1, c) && Begun(w1, c, x) == Begun(w, c, x);
    MarkAndSendLegal(e, w1, c, x, result);
    var t1 := [SetMark(c, HandingOver), Send(c, result, x)] + AfterSend(c, x, result);
    LegalCons(e, w, ForgetNotHandedOver, t1);
    assert HandOverActs(c, x, result).acts == [ForgetNotHandedOver] + t1;
  }

  lemma MarkAndSendLegal(e: Engine, w: World, c: Cid, x: InputId, result: SendResult)
    requires w.waiting == Some(x) && !EarlierRun(w) && c in e.Released(x) && Touched(e, w, c) && w.notHandedOver.None?
    requires !HasSettledMark(w, c) && !Begun(w, c, x) && w.sends[c] <= Resends(w.decisions, c)
    ensures Legal(e, w, [SetMark(c, HandingOver), Send(c, result, x)] + AfterSend(c, x, result))
  {
    var w2 := Apply(w, SetMark(c, HandingOver));
    var w3 := Apply(w2, Send(c, result, x));
    assert Touched(e, w3, c);
    AfterSendLegal(e, w3, c, x, result);
    var tail := AfterSend(c, x, result);
    assert Allowed(e, w2, Send(c, result, x));
    LegalCons(e, w2, Send(c, result, x), tail);
    var t2 := [Send(c, result, x)] + tail;
    LegalCons(e, w, SetMark(c, HandingOver), t2);
    assert [SetMark(c, HandingOver), Send(c, result, x)] + tail == [SetMark(c, HandingOver)] + t2;
  }

  function AfterSend(c: Cid, x: InputId, result: SendResult): seq<Act> {
    match result
    case Returned => [SetMark(c, Sent), NoteSent(c)]
    case NothingHandedOver => [RecordNotHandedOver(Refusal(x, c, false))]
    case Unconfirmed => []
  }

  lemma AfterSendLegal(e: Engine, w: World, c: Cid, x: InputId, result: SendResult)
    requires Touched(e, w, c) && c in e.Released(x) && c in w.last && w.last[c] == result
    ensures Legal(e, w, AfterSend(c, x, result))
  {
    match result
    case Returned =>
      LegalOne(e, Apply(w, SetMark(c, Sent)), NoteSent(c));
      LegalCons(e, w, SetMark(c, Sent), [NoteSent(c)]);
      assert AfterSend(c, x, result) == [SetMark(c, Sent)] + [NoteSent(c)];
    case NothingHandedOver => LegalOne(e, w, RecordNotHandedOver(Refusal(x, c, false)));
    case Unconfirmed =>
  }

  lemma OrderLegal(e: Engine, w: World, c: Cid, x: InputId, env: Env)
    requires e.OneRelease() && Inv(e, w) && AtInput(w, x) && c in e.Released(x)
    ensures Legal(e, w, SettleOrder(e, w, MarkOf(w.marks, c), c, x, env).acts)
  {
    assert OrderInv(e, w, c);
    var mark := MarkOf(w.marks, c);
    var shown := c in env.broker;
    assert Touched(e, w, c);
    if c in w.sent || mark == Some(Sent) {
    } else if mark == Some(AtBroker)
        || ((mark.None? || mark == Some(NeverSent)) && LastDecided(w, c, FoundAtBroker, Some(x))) {
      AtBrokerLegal(e, w, c, x);
    } else if mark.None? && FinishRetirement(w, c, x, shown).Some? {
      FinishLegal(e, w, c, x, shown);
    } else if mark == Some(NeverSent) {
      if shown { AtBrokerLegal(e, w, c, x); }
    } else if shown {
      LegalOne(e, w, NoteSent(c));
    } else if mark == Some(HandingOver) {
    } else if mark.Some? && mark != Some(Resend(env.today)) {
      LegalOne(e, w, SetMark(c, HandingOver));
    } else {
      if mark.None? { NoneBegun(e, w, c, x, shown); }
      match Check(e, x, env, c)
      case SessionOver => RetireLegal(e, w, c, Retirement(c), x);
      case Unsendable => LegalOne(e, w, RecordRefusal(Refusal(x, c, true)));
      case Refused => LegalOne(e, w, RecordRefusal(Refusal(x, c, false)));
      case Accepted => HandOverLegal(e, w, c, x, env.handOver(c));
    }
  }

  // ----- What one order's acts leave alone -----

  /** The acts an order's settlement uses: no mark, decision or retirement but c's, and nothing of the input or its
      run. */
  predicate About(a: Act, c: Cid) {
    match a
    case SetMark(k, _) => k == c
    case Decide(d) => d.cid == c
    case Queue(en) => en.kind.Retire? && NamesRetirementOf(en.id, c)
    case Strike(ids) => forall y :: y in ids ==> NamesRetirementOf(y, c)
    case RecordRefusal(_) => true
    case ForgetNotHandedOver => true
    case RecordNotHandedOver(_) => true
    case Send(k, _, _) => k == c
    case NoteSent(k) => k == c
    case _ => false
  }

  lemma RetireAbout(w: World, c: Cid, id: InputId, x: InputId)
    requires NamesRetirementOf(id, c)
    ensures forall a :: a in RetireActs(w, c, id, x) ==> About(a, c)
  {
  }

  lemma AtBrokerAbout(w: World, c: Cid, x: InputId)
    ensures forall a :: a in AtBrokerActs(w, c, x) ==> About(a, c)
  {
  }

  lemma HandOverAbout(c: Cid, x: InputId, result: SendResult)
    ensures forall a :: a in HandOverActs(c, x, result).acts ==> About(a, c)
  {
  }

  lemma FinishAbout(w: World, c: Cid, x: InputId, shown: bool)
    requires FinishRetirement(w, c, x, shown).Some?
    ensures forall a :: a in FinishRetirement(w, c, x, shown).value.acts ==> About(a, c)
  {
    AtBrokerAbout(w, c, x);
    RetireAbout(w, c, RetirementFor(c, x), x);
  }

  lemma TrySendAbout(e: Engine, w: World, c: Cid, x: InputId, env: Env)
    ensures forall a :: a in TrySend(e, w, c, x, env).acts ==> About(a, c)
  {
    RetireAbout(w, c, Retirement(c), x);
    HandOverAbout(c, x, env.handOver(c));
  }

  lemma OrderAbout(e: Engine, w: World, mark: Option<Mark>, c: Cid, x: InputId, env: Env)
    ensures forall a :: a in SettleOrder(e, w, mark, c, x, env).acts ==> About(a, c)
  {
    AtBrokerAbout(w, c, x);
    if FinishRetirement(w, c, x, c in env.broker).Some? { FinishAbout(w, c, x, c in env.broker); }
    TrySendAbout(e, w, c, x, env);
  }

  lemma {:induction false} AboutFrame(w: World, acts: seq<Act>, c: Cid)
    requires forall a :: a in acts ==> About(a, c)
    ensures var w' := Exec(w, acts);
            && w'.waiting == w.waiting && w'.runOf == w.runOf && w'.run == w.run && w'.committed == w.committed
            && w'.ended == w.ended && w'.closed == w.closed
            && forall k :: k != c ==> MarkOf(w'.marks, k) == MarkOf(w.marks, k)
    decreases |acts|
  {
    if acts != [] {
      assert About(acts[0], c);
      AboutFrame(Apply(w, acts[0]), acts[1..], c);
    }
  }

  // ----- What the acts of one order leave of another's records -----

  ghost predicate SameRecords(w: World, w': World, k: Cid) {
    && MarkOf(w'.marks, k) == MarkOf(w.marks, k) && (k in w'.sent <==> k in w.sent)
    && LastDecision(w'.decisions, k) == LastDecision(w.decisions, k)
    && LastRetired(w'.decisions, k) == LastRetired(w.decisions, k)
    && (forall x :: HasRetired(w'.decisions, k, x) <==> HasRetired(w.decisions, k, x))
    && (forall y :: NamesRetirementOf(y, k) ==> (y in Ids(w'.outbox) <==> y in Ids(w.outbox)))
    && (k in w'.overruled <==> k in w.overruled)
    && w'.sends[k] == w.sends[k] && (k in w'.last <==> k in w.last) && (k in w.last ==> w'.last[k] == w.last[k])
  }

  lemma AboutRecords(w: World, a: Act, c: Cid, k: Cid)
    requires About(a, c) && k != c
    ensures SameRecords(w, Apply(w, a), k)
  {
    match a
    case Decide(d) =>
      LastDecisionAppend(w.decisions, Tagged(w, d), k);
      MembersAppend(w.decisions, Tagged(w, d));
    case Queue(en) => MembersAppend(w.outbox, en);
    case Strike(ids) => StrikeRecords(w, ids, c, k);
    case _ =>
  }

  lemma StrikeRecords(w: World, ids: set<InputId>, c: Cid, k: Cid)
    requires k != c && forall y :: y in ids ==> NamesRetirementOf(y, c)
    ensures SameRecords(w, Apply(w, Strike(ids)), k)
  {
    var w' := Apply(w, Strike(ids));
    forall en ensures en in w'.outbox <==> en in w.outbox && en.id !in ids { WithoutMember(w.outbox, ids, en); }
  }

  lemma {:induction false} OrderRecords(w: World, acts: seq<Act>, c: Cid, k: Cid)
    requires k != c && forall a :: a in acts ==> About(a, c)
    ensures SameRecords(w, Exec(w, acts), k)
    decreases |acts|
  {
    if acts != [] {
      assert acts[0] in acts && forall a :: a in acts[1..] ==> a in acts;
      AboutRecords(w, acts[0], c, k);
      OrderRecords(Apply(w, acts[0]), acts[1..], c, k);
    }
  }

  lemma ClearLegal(e: Engine, w: World)
    requires w.waiting.Some? ==> w.waiting.value !in Ids(w.outbox)
    ensures Legal(e, w, ClearActs)
  {
    var w1 := Apply(w, RemoveInput);
    var w2 := Apply(w1, RemoveMarks);
    var t3 := [RemoveRefusal, ForgetNotHandedOver, RemoveRun];
    ForgetLegal(e, w2);
    LegalCons(e, w1, RemoveMarks, t3);
    var t2 := [RemoveMarks] + t3;
    LegalCons(e, w, RemoveInput, t2);
    assert [RemoveInput] + t2 == ClearActs;
  }

  lemma ForgetLegal(e: Engine, w: World)
    requires w.waiting.None?
    ensures Legal(e, w, [RemoveRefusal, ForgetNotHandedOver, RemoveRun])
  {
    var w1 := Apply(w, RemoveRefusal);
    var w2 := Apply(w1, ForgetNotHandedOver);
    LegalOne(e, w2, RemoveRun);
    LegalCons(e, w1, ForgetNotHandedOver, [RemoveRun]);
    var t := [ForgetNotHandedOver] + [RemoveRun];
    LegalCons(e, w, RemoveRefusal, t);
    assert [RemoveRefusal] + t == [RemoveRefusal, ForgetNotHandedOver, RemoveRun];
  }

  /** An input whose orders are all settled is struck off and cleared. */
  lemma DoneLegal(e: Engine, w: World, x: InputId)
    requires e.OneRelease() && Inv(e, w) && AtInput(w, x)
    ensures Legal(e, w, [Strike({x})] + ClearActs)
  {
    var w1 := Apply(w, Strike({x}));
    forall en ensures en in w1.outbox <==> en in w.outbox && en.id !in {x} { WithoutMember(w.outbox, {x}, en); }
    ClearLegal(e, w1);
    LegalCons(e, w, Strike({x}), ClearActs);
  }

  lemma {:induction false} OrdersLegal(e: Engine, w: World, marks: map<Cid, Mark>, orders: seq<Cid>, x: InputId,
                                       env: Env)
    requires e.OneRelease() && Inv(e, w) && AtInput(w, x)
    requires forall i :: 0 <= i < |orders| ==>
             orders[i] in e.Released(x) && MarkOf(marks, orders[i]) == MarkOf(w.marks, orders[i])
    requires forall i, j :: 0 <= i < j < |orders| ==> orders[i] != orders[j]
    ensures Legal(e, w, SettleOrders(e, w, marks, orders, x, env).acts)
    decreases |orders|
  {
    if orders == [] {
      DoneLegal(e, w, x);
    } else {
      var c := orders[0];
      var r := SettleOrder(e, w, MarkOf(marks, c), c, x, env);
      OrderLegal(e, w, c, x, env);
      if r.outcome.GoOn? {
        var w' := Exec(w, r.acts);
        assert r.acts[..|r.acts|] == r.acts;
        LegalKeeps(e, w, r.acts, |r.acts|);
        OrderAbout(e, w, MarkOf(marks, c), c, x, env);
        AboutFrame(w, r.acts, c);
        assert RunEndedIds(w') == RunEndedIds(w);
        OrdersLegal(e, w', marks, orders[1..], x, env);
        LegalConcat(e, w, r.acts, SettleOrders(e, w', marks, orders[1..], x, env).acts);
      }
    }
  }

  lemma OrdersGoOn(e: Engine, w: World, marks: map<Cid, Mark>, orders: seq<Cid>, x: InputId, env: Env)
    requires orders != [] && SettleOrder(e, w, MarkOf(marks, orders[0]), orders[0], x, env).outcome.GoOn?
    ensures var r := SettleOrder(e, w, MarkOf(marks, orders[0]), orders[0], x, env);
            SettleOrders(e, w, marks, orders, x, env).acts
            == r.acts + SettleOrders(e, Exec(w, r.acts), marks, orders[1..], x, env).acts
  {
  }

  lemma PassLegal(e: Engine, w: World, x: InputId, env: Env)
    requires e.OneRelease() && Inv(e, w) && Allowed(e, w, Save(x))
    requires w.runOf == Some(RunRecord(x, w.run)) && x !in RunEndedIds(w)
    ensures Legal(e, w, Pass(e, w, x, env).acts)
  {
    var w1 := Apply(w, Save(x));
    AllowedKeeps(e, w, Save(x));
    assert RunEndedIds(w1) == RunEndedIds(w);
    var w2 := Apply(w1, Ask(x));
    AllowedKeeps(e, w1, Ask(x));
    assert RunEndedIds(w2) == RunEndedIds(w);
    LegalOne(e, w, Save(x));
    LegalOne(e, w1, Ask(x));
    LegalCons(e, w, Save(x), [Ask(x)]);
    assert [Save(x)] + [Ask(x)] == [Save(x), Ask(x)];
    if env.reply.Replied? {
      OrdersLegal(e, w2, w2.marks, e.Released(x), x, env);
      LegalConcat(e, w, [Save(x), Ask(x)], SettleOrders(e, w2, w2.marks, e.Released(x), x, env).acts);
    }
  }

  lemma DrainLegal(e: Engine, w: World, i: nat, env: Env)
    requires e.OneRelease() && Inv(e, w)
    ensures Legal(e, w, Drain(e, w, i, env).acts)
  {
    if w.waiting.Some? {
      if !EarlierRun(w) { PassLegal(e, w, w.waiting.value, env); }
    } else if i < |w.outbox| {
      var x := w.outbox[i].id;
      assert w.outbox[i] in w.outbox;
      if x in RunEndedIds(w) || x in w.committed {
        LegalOne(e, w, Strike({x}));
      } else {
        var w1 := Apply(w, RecordRun(x, w.run));
        AllowedKeeps(e, w, RecordRun(x, w.run));
        assert RunEndedIds(w1) == RunEndedIds(w);
        PassLegal(e, w1, x, env);
        LegalCons(e, w, RecordRun(x, w.run), Pass(e, w1, x, env).acts);
      }
    }
  }

  // ----- The owner's commands -----

  lemma StrikeAndMarkLegal(e: Engine, w: World, c: Cid, ids: set<InputId>)
    requires HasSettledMark(w, c) && Touched(e, w, c) && forall x :: x in ids ==> NamesRetirementOf(x, c)
    ensures Legal(e, w, [Strike(ids), SetMark(c, Sent)])
  {
    var w1 := Apply(w, Strike(ids));
    assert Touched(e, w1, c);
    LegalOne(e, w1, SetMark(c, Sent));
    LegalCons(e, w, Strike(ids), [SetMark(c, Sent)]);
    assert [Strike(ids)] + [SetMark(c, Sent)] == [Strike(ids), SetMark(c, Sent)];
  }

  lemma FindSentLegal(e: Engine, w: World, c: Cid, first: seq<Act>, second: seq<Act>)
    requires HasSettledMark(w, c) && Touched(e, w, c) && c !in w.sent && Tags(w)
    requires first == [] || first == [SetMark(c, AtBroker)]
    requires second == [] || second == [Decide(Decision(c, DecidedSent, w.waiting, None, None, true))]
    ensures Legal(e, w, first + second + [Strike(RetirementsOf(w.outbox, c)), SetMark(c, Sent)])
  {
    var ids := RetirementsOf(w.outbox, c);
    var w1 := Exec(w, first);
    if first != [] { LegalOne(e, w, first[0]); }
    var w2 := Exec(w1, second);
    if second != [] { LegalOne(e, w1, second[0]); }
    assert HasSettledMark(w2, c) && Touched(e, w2, c);
    StrikeAndMarkLegal(e, w2, c, ids);
    var last := [Strike(ids), SetMark(c, Sent)];
    LegalConcat(e, w1, second, last);
    LegalConcat(e, w, first, second + last);
    assert first + second + last == first + (second + last);
  }

  lemma DecideAndMarkLegal(e: Engine, w: World, d: Decision, m: Mark)
    requires DecideAllowed(e, w, d) && MarkAllowed(e, Apply(w, Decide(d)), d.cid, m)
    ensures Legal(e, w, [Decide(d), SetMark(d.cid, m)])
  {
    LegalOne(e, Apply(w, Decide(d)), SetMark(d.cid, m));
    LegalCons(e, w, Decide(d), [SetMark(d.cid, m)]);
    assert [Decide(d)] + [SetMark(d.cid, m)] == [Decide(d), SetMark(d.cid, m)];
  }

  lemma ResolveLegal(e: Engine, w: World, c: Cid, v: Verdict, today: Day)
    requires e.OneRelease() && Inv(e, w) && w.sent == {} && Resolve(e, w, c, v, today).Some?
    ensures Legal(e, w, Resolve(e, w, c, v, today).value)
  {
    assert OrderInv(e, w, c);
    var d := Decision(c, v, w.waiting, None, None, true);
    if v.DecidedSent? && (w.marks[c].NeverSent? || w.marks[c].AtBroker?) {
      FindSentLegal(e, w, c, if w.marks[c].AtBroker? then [] else [SetMark(c, AtBroker)],
                    if LastDecided(w, c, DecidedSent, w.waiting) then [] else [Decide(d)]);
    } else if v.DecidedResend? {
      ResendLegal(e, w, c, today);
    } else if v.DecidedSent? {
      SentLegal(e, w, c);
    } else {
      SettledLegal(e, w, c, v);
    }
  }

  /** An order found sent that no settlement held. */
  lemma SentLegal(e: Engine, w: World, c: Cid)
    requires FilesInv(e, w) && RunInv(w) && OrderInv(e, w, c) && w.sent == {} && c in w.marks
    requires w.marks[c].HandingOver? || w.marks[c].Resend?
    ensures Legal(e, w, [Decide(Decision(c, DecidedSent, w.waiting, None, None, true)), SetMark(c, Sent)])
  {
    var d := Decision(c, DecidedSent, w.waiting, None, None, true);
    var w1 := Apply(w, Decide(d));
    LastDecisionAppend(w.decisions, Tagged(w, d), c);
    MembersAppend(w.decisions, Tagged(w, d));
    assert Touched(e, w, c) && Touched(e, w1, c);
    DecideAndMarkLegal(e, w, d, Sent);
  }

  /** An order settled as not handed over, or as never sent. */
  lemma SettledLegal(e: Engine, w: World, c: Cid, v: Verdict)
    requires e.OneRelease() && FilesInv(e, w) && RunInv(w) && OrderInv(e, w, c) && w.sent == {}
    requires v.NotHandedOver? || v.DecidedNeverSent?
    requires Resolve(e, w, c, v, 0).Some?
    ensures Legal(e, w, [Decide(Decision(c, v, w.waiting, None, None, true)), SetMark(c, NeverSent)])
  {
    var d := Decision(c, v, w.waiting, None, None, true);
    var w1 := Apply(w, Decide(d));
    LastDecisionAppend(w.decisions, Tagged(w, d), c);
    MembersAppend(w.decisions, Tagged(w, d));
    assert Touched(e, w, c) && Touched(e, w1, c);
    DecideAndMarkLegal(e, w, d, NeverSent);
  }

  lemma ResendLegal(e: Engine, w: World, c: Cid, today: Day)
    requires FilesInv(e, w) && RunInv(w) && OrderInv(e, w, c) && MarkOf(w.marks, c) == Some(HandingOver)
    requires w.waiting.Some? && e.Session(w.waiting.value) == Some(today)
    ensures Legal(e, w, [Decide(Decision(c, DecidedResend, w.waiting, None, None, true)), SetMark(c, Resend(today))])
  {
    var d := Decision(c, DecidedResend, w.waiting, None, None, true);
    var w1 := Apply(w, Decide(d));
    LastDecisionAppend(w.decisions, Tagged(w, d), c);
    assert Touched(e, w, c) && Touched(e, w1, c);
    if Releases(e, w, c) {
      var x := w.waiting.value;
      assert !Begun(w, c, x);
      MembersAppend(w.decisions, Tagged(w, d));
      assert !Begun(w1, c, x);
    }
    DecideAndMarkLegal(e, w, d, Resend(today));
  }

  /** An order the owner retires is unmarked, so a retirement of it already begun is the one in the outbox. */
  lemma OwnerRetireLegal(e: Engine, w: World, c: Cid)
    requires e.OneRelease() && Inv(e, w) && w.sent == {} && OwnerRetire(w, c).Some?
    ensures Legal(e, w, OwnerRetire(w, c).value)
  {
    assert OrderInv(e, w, c);
    assert w.waiting.value.Plain?;
    RetireLegal(e, w, c, Retirement(c), w.waiting.value);
  }
}
