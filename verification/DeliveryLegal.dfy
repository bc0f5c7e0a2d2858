/** Every write of every step is allowed where it is made, so every run keeps what every world keeps. */
module DeliveryLegal {
  import opened Wrappers
  import opened Delivery
  import opened DeliveryKeeps
  import opened DeliveryRuns

  lemma ExecOne(w: World, a: Act)
    ensures Exec(w, [a]) == Apply(w, a)
  {
    assert [a][1..] == [];
  }

  lemma ExecTwo(w: World, a: Act, b: Act)
    ensures Exec(w, [a, b]) == Apply(Apply(w, a), b)
  {
    assert [a, b][1..] == [b];
    ExecOne(Apply(w, a), b);
  }

  lemma {:induction false} ExecConcat(w: World, a: seq<Act>, b: seq<Act>)
    ensures Exec(w, a + b) == Exec(Exec(w, a), b)
    decreases |a|
  {
    if a == [] {
      assert a + b == b;
    } else {
      assert (a + b)[1..] == a[1..] + b;
      ExecConcat(Apply(w, a[0]), a[1..], b);
    }
  }

  // ----- The outbox's first entries -----

  lemma {:induction false} InBatches(es: seq<Entry>)
    ensures forall e :: e in OfBatches(es) <==> e in es && e.run.Some?
  {
    if es != [] {
      InBatches(es[1..]);
      assert forall e :: e in es <==> e == es[0] || e in es[1..];
    }
  }

  lemma InIds(es: seq<Entry>, id: Id)
    ensures id in Ids(es) <==> exists e :: e in es && e.id == id
  {
    if id in Ids(es) {
      var i :| 0 <= i < |es| && Ids(es)[i] == id;
      assert es[i] in es;
    }
    forall e | e in es && e.id == id ensures id in Ids(es) {
      var i :| 0 <= i < |es| && es[i] == e;
      assert Ids(es)[i] == id;
    }
  }

  lemma {:induction false} BatchesDistinct(es: seq<Entry>)
    requires DistinctEntries(es)
    ensures DistinctEntries(OfBatches(es))
  {
    if es != [] {
      BatchesDistinct(es[1..]);
      InBatches(es[1..]);
      var rest := OfBatches(es[1..]);
      forall j | 0 <= j < |rest| ensures rest[j].id != es[0].id {
        assert rest[j] in rest;
        var k :| 0 <= k < |es[1..]| && es[1..][k] == rest[j];
        assert es[k + 1] == rest[j];
      }
    }
  }

  /** The entry taken next is one of the outbox, and the first of its batch's when it is a batch's. */
  lemma NextIsFirst(w: World)
    requires DistinctEntries(w.outbox) && w.outbox != []
    ensures var e, es := Next(w.outbox), OfBatches(w.outbox);
            && e in w.outbox && DistinctEntries(es)
            && (e.run.Some? ==> es != [] && es[0] == e)
            && (e.run.None? ==> forall i :: 0 <= i < |es| ==> es[i].id != e.id)
  {
    var e, es := Next(w.outbox), OfBatches(w.outbox);
    BatchesDistinct(w.outbox);
    InBatches(w.outbox);
    if e.run.None? {
      var k :| 0 <= k < |w.outbox| && w.outbox[k] == e;
      forall i | 0 <= i < |es| ensures es[i].id != e.id {
        assert es[i] in es;
        var j :| 0 <= j < |w.outbox| && w.outbox[j] == es[i];
        assert j != k;
      }
    }
  }

  /** An entry done with may be struck off alone. */
  lemma MayStrikeOne(w: World, id: Id)
    requires forall i :: 1 <= i < |OfBatches(w.outbox)| ==> OfBatches(w.outbox)[i].id != id
    requires OfBatches(w.outbox) != [] && OfBatches(w.outbox)[0].id == id ==> Done(w, id)
    ensures MayStrike(w, {id})
  {
  }

  // ----- The exchange -----

  lemma ExchangeLegal(w: World, answer: Answer)
    requires Inv(w) && w.waiting.Some? && w.waiting.value.run == w.running
    ensures Legal(w, ExchangeActs(w, w.waiting.value.id, answer))
  {
    var id := w.waiting.value.id;
    var commit := CommitActs(w, id);
    if commit != [] { LegalOne(w, Commit(id)); }
    Committing(w, id);
    StrikeLegal(Exec(w, commit), id, w.running);
    LegalConcat(w, commit, [Strike({id}), Clear]);
  }

  lemma StrikeLegal(w: World, id: Id, run: Run)
    requires OutboxOfLast(w) && FirstOfRun(OfBatches(w.outbox), id, run) && id in Committed(w, run)
    ensures Legal(w, [Strike({id}), Clear])
  {
    MayStrikeOne(w, id);
    var struck := Apply(w, Strike({id}));
    LegalOne(struck, Clear);
    assert [Strike({id}), Clear][1..] == [Clear];
  }

  lemma Committing(w: World, id: Id)
    ensures var done := Exec(w, CommitActs(w, id));
            && id in Committed(done, w.running) && done.outbox == w.outbox && done.batches == w.batches
            && done.waiting == w.waiting && done.running == w.running && done.settled == w.settled
  {
    if id !in Committed(w, w.running) {
      assert [Commit(id)][1..] == [];
      var done := Apply(w, Commit(id));
      assert Committed(done, w.running)[|Committed(w, w.running)|] == id;
    }
  }

  // ----- Delivering -----

  /** A batch still queuing is recorded exactly when some of it is in the outbox. */
  lemma RecordedIsInOutbox(w: World)
    requires Inv(w) && LastQueuing(w)
    ensures Recorded(w, w.batches[|w.batches| - 1].snapshot) <==> OfBatches(w.outbox) != []
  {
    var last := w.batches[|w.batches| - 1];
    var es := OfBatches(w.outbox);
    InBatches(w.outbox);
    if es != [] {
      assert Ids(es) != [] && last.written != [];
      var recon := Made(last.snapshot, Reconciliation);
      assert LastAccounted(w);
      assert recon in w.batches[|w.batches| - 1].written;
      assert Accounted(w, |w.batches| - 1, recon);
      InIds(es, recon);
      InIds(w.outbox, recon);
    } else {
      MadeIsBatch(w, Made(last.snapshot, BrokerSnapshot));
      MadeIsBatch(w, Made(last.snapshot, Reconciliation));
    }
  }

  lemma MadeIsBatch(w: World, id: Id)
    requires WellShaped(w) && id.Made?
    ensures id in Ids(w.outbox) ==> OfBatches(w.outbox) != []
  {
    if id in Ids(w.outbox) {
      var i :| 0 <= i < |w.outbox| && Ids(w.outbox)[i] == id;
      assert WellShapedEntry(w.outbox[i]);
      InBatches(w.outbox);
      assert w.outbox[i] in OfBatches(w.outbox);
    }
  }

  /** Where there is an entry of a batch there is an envelope of it. */
  lemma BatchHasEnvelope(w: World)
    requires OutboxOfLast(w) && OfBatches(w.outbox) != []
    ensures HoldsEnvelope(w.outbox)
  {
    var es := OfBatches(w.outbox);
    HoldsIt(w.outbox, es[|es| - 1]);
  }

  lemma HoldsIt(es: seq<Entry>, e: Entry)
    requires e in OfBatches(es) && e.envelope
    ensures HoldsEnvelope(es)
  {
    InBatches(es);
    var i :| 0 <= i < |es| && es[i] == e;
    assert es[i].envelope;
  }

  /** The batch's one write, then its mark. */
  lemma QueueLegal(w: World, es: seq<Entry>)
    requires MayExtend(w, es)
    ensures Legal(w, [Extend(es), MarkQueued])
  {
    var w' := Apply(w, Extend(es));
    ExtendIs(w, es);
    LegalOne(w', MarkQueued);
    assert [Extend(es), MarkQueued][1..] == [MarkQueued];
  }

  lemma FinishLegal(w: World, d: Delivering)
    requires Inv(w) && LastQueuing(w) && MayStep(w)
             && BatchEntries(w, w.batches[|w.batches| - 1].snapshot, d.finishEntries)
    ensures Legal(w, FinishPlan(w, d).acts)
  {
    RecordedIsInOutbox(w);
    PlanLegal(w, d);
  }

  lemma PlanLegal(w: World, d: Delivering)
    requires LastQueuing(w) && MayStep(w)
    requires Recorded(w, w.batches[|w.batches| - 1].snapshot) <==> OfBatches(w.outbox) != []
    requires BatchEntries(w, w.batches[|w.batches| - 1].snapshot, d.finishEntries)
    ensures Legal(w, FinishPlan(w, d).acts)
  {
    var last := w.batches[|w.batches| - 1];
    if Recorded(w, last.snapshot) {
      LegalOne(w, MarkQueued);
    } else if last.run != w.running {
      LegalOne(w, MarkDropped);
    } else if d.finishReading.Taken? && Disjoint(d.finishEntries, w.outbox) {
      if w.waiting.Some? { NotWaiting(w, d.finishEntries); }
      QueueLegal(w, d.finishEntries);
    }
  }

  lemma NotWaiting(w: World, es: seq<Entry>)
    requires MayStep(w) && Disjoint(es, w.outbox) && w.waiting.Some?
    ensures w.waiting.value.id !in Ids(es)
  {
    var i :| 0 <= i < |w.outbox| && Ids(w.outbox)[i] == w.waiting.value.id;
    assert w.outbox[i].id == w.waiting.value.id;
  }

  lemma BeginLegal(w: World, d: Delivering)
    requires Inv(w) && !LastQueuing(w) && MayStep(w) && Unsent(w, d.snapshot) && BatchEntries(w, d.snapshot, d.entries)
    ensures Legal(w, BeginPlan(w, d).acts)
  {
    var p := BeginPlan(w, d);
    if p.acts != [] {
      if OfBatches(w.outbox) != [] { BatchHasEnvelope(w); }
      var begin := p.acts[0];
      assert Allowed(w, begin);
      LegalOne(w, begin);
      if |p.acts| > 1 {
        var begun := Apply(w, begin);
        if w.waiting.Some? { NotWaiting(w, d.entries); }
        QueueLegal(begun, d.entries);
        assert p.acts == [begin] + [Extend(d.entries), MarkQueued];
        LegalConcat(w, [begin], [Extend(d.entries), MarkQueued]);
      }
    }
  }

  /** Marking or writing a batch changes nothing that was sent, and leaves an input that waits in the outbox. */
  lemma FinishLeaves(w: World, d: Delivering)
    requires LastQueuing(w) && MayStep(w)
    ensures var w' := Exec(w, FinishPlan(w, d).acts);
            && w'.running == w.running && w'.waiting == w.waiting && w'.settled == w.settled
            && w'.committed == w.committed && MayStep(w')
            && (FinishPlan(w, d).goesOn ==> !LastQueuing(w'))
            && (forall snapshot :: Unsent(w, snapshot) ==> Unsent(w', snapshot))
            && (!FinishPlan(w, d).goesOn ==> w' == w)
  {
    var p := FinishPlan(w, d);
    ExecOne(w, MarkQueued);
    ExecOne(w, MarkDropped);
    ExecTwo(w, Extend(d.finishEntries), MarkQueued);
    if |p.acts| == 2 {
      var w' := Exec(w, p.acts);
      assert w'.outbox == w.outbox + d.finishEntries;
      if w.waiting.Some? {
        var i :| 0 <= i < |w.outbox| && Ids(w.outbox)[i] == w.waiting.value.id;
        assert Ids(w'.outbox)[i] == w.waiting.value.id;
      }
    }
    var w' := Exec(w, p.acts);
    forall run ensures Committed(w', run) == Committed(w, run) { }
  }

  lemma DeliverLegal(w: World, d: Delivering)
    requires Inv(w) && MayStep(w) && Unsent(w, d.snapshot) && BatchEntries(w, d.snapshot, d.entries)
    requires LastQueuing(w) ==> BatchEntries(w, w.batches[|w.batches| - 1].snapshot, d.finishEntries)
    ensures Legal(w, DeliverPlan(w, d).acts)
  {
    if !LastQueuing(w) {
      BeginLegal(w, d);
    } else {
      FinishLegal(w, d);
      var p := FinishPlan(w, d);
      if p.goesOn {
        FinishLeaves(w, d);
        LegalKeeps(w, p.acts);
        var w' := Exec(w, p.acts);
        assert BatchEntries(w', d.snapshot, d.entries);
        BeginLegal(w', d);
        LegalConcat(w, p.acts, BeginPlan(w', d).acts);
      }
    }
  }

  // ----- Draining -----

  /** What lets a batch's entry be sent: a step that has just delivered leaves no batch queuing in the outbox, and one
      that owes a reconciliation sends none. */
  ghost predicate Ready(w: World, due: bool) {
    due || !LastQueuing(w) || OfBatches(w.outbox) == []
  }

  lemma StrikeKeepsReady(w: World, due: bool, ids: set<Id>)
    requires Ready(w, due) && MayStrike(w, ids)
    ensures Ready(Apply(w, Strike(ids)), due)
  {
    StruckLeaves(w, ids);
  }

  lemma ForeignLegal(w: World, run: Run)
    requires Inv(w) && OfBatches(w.outbox) != [] && OfBatches(w.outbox)[0].run == Some(run)
    ensures var acts := [DropQueued(run), Strike(IdsOf(w.outbox, run))];
            Legal(w, acts) && OfBatches(Exec(w, acts).outbox) == [] && Exec(w, acts).waiting == w.waiting
  {
    var ids := IdsOf(w.outbox, run);
    var w' := Apply(w, DropQueued(run));
    AllOfRun(w, run);
    assert !w'.batches[|w'.batches| - 1].state.Queued?;
    DropAndStrike(w, run, ids);
  }

  lemma AllOfRun(w: World, run: Run)
    requires OutboxOfLast(w) && OfBatches(w.outbox) != [] && OfBatches(w.outbox)[0].run == Some(run)
    ensures forall i :: 0 <= i < |OfBatches(w.outbox)| ==> OfBatches(w.outbox)[i].id in IdsOf(w.outbox, run)
  {
    var es := OfBatches(w.outbox);
    InBatches(w.outbox);
    forall i | 0 <= i < |es| ensures es[i].id in IdsOf(w.outbox, run) {
      assert es[i] in es;
      var j :| 0 <= j < |w.outbox| && w.outbox[j] == es[i];
    }
  }

  lemma DropAndStrike(w: World, run: Run, ids: set<Id>)
    requires w.batches != [] && forall i :: 0 <= i < |OfBatches(w.outbox)| ==> OfBatches(w.outbox)[i].id in ids
    requires var w' := Apply(w, DropQueued(run)); !w'.batches[|w'.batches| - 1].state.Queued?
    ensures var acts := [DropQueued(run), Strike(ids)];
            Legal(w, acts) && OfBatches(Exec(w, acts).outbox) == [] && Exec(w, acts).waiting == w.waiting
  {
    var acts := [DropQueued(run), Strike(ids)];
    var w' := Apply(w, DropQueued(run));
    assert MayStrike(w', ids);
    LegalOne(w', Strike(ids));
    assert acts[1..] == [Strike(ids)];
    BatchesWithout(w.outbox, ids);
    WithoutAll(OfBatches(w.outbox), ids);
  }

  /** A world the loop goes on from. */
  ghost predicate Drainable(w: World, due: bool) {
    Inv(w) && w.waiting.None? && Ready(w, due)
  }

  lemma {:induction false} DrainLegal(w: World, due: bool, turns: seq<Turn>)
    requires Drainable(w, due)
    ensures Legal(w, DrainActs(w, due, turns))
    decreases |turns|
  {
    if turns != [] && w.outbox != [] {
      var e, rest := Next(w.outbox), turns[1..];
      if Strikes(w, e) {
        var acts := [Strike({e.id})];
        StruckStep(w, due);
        DrainLegal(Exec(w, acts), due, rest);
        LegalConcat(w, acts, DrainActs(Exec(w, acts), due, rest));
      } else if e.run.Some? && e.run.value != w.running {
        var acts := [DropQueued(e.run.value), Strike(IdsOf(w.outbox, e.run.value))];
        ForeignStep(w, due);
        DrainLegal(Exec(w, acts), due, rest);
        LegalConcat(w, acts, DrainActs(Exec(w, acts), due, rest));
      } else if !(e.run.Some? && (due || turns[0].awaitsCommission)) {
        var acts := [Ask(e.id)] + ExchangeActs(Apply(w, Ask(e.id)), e.id, turns[0].answer);
        SendStep(w, due, turns[0].answer);
        if turns[0].answer.Answered? {
          DrainLegal(Exec(w, acts), due, rest);
          LegalConcat(w, acts, DrainActs(Exec(w, acts), due, rest));
        }
      }
    }
  }

  lemma StruckStep(w: World, due: bool)
    requires Drainable(w, due) && w.outbox != [] && Strikes(w, Next(w.outbox))
    ensures var acts := [Strike({Next(w.outbox).id})];
            Legal(w, acts) && Exec(w, acts) == Apply(w, acts[0]) && Drainable(Exec(w, acts), due)
  {
    NextIsFirst(w);
    var id := Next(w.outbox).id;
    MayStrikeOne(w, id);
    StrikeKeepsReady(w, due, {id});
    AllowedKeeps(w, Strike({id}));
    LegalOne(w, Strike({id}));
  }

  lemma ForeignStep(w: World, due: bool)
    requires Drainable(w, due) && w.outbox != [] && Next(w.outbox).run.Some?
    ensures var run := Next(w.outbox).run.value;
            var acts := [DropQueued(run), Strike(IdsOf(w.outbox, run))];
            Legal(w, acts) && Drainable(Exec(w, acts), due)
  {
    NextIsFirst(w);
    var run := Next(w.outbox).run.value;
    ForeignLegal(w, run);
    LegalKeeps(w, [DropQueued(run), Strike(IdsOf(w.outbox, run))]);
  }

  /** The exchange of an entry with this run, from asking to clearing. */
  lemma SendStep(w: World, due: bool, answer: Answer)
    requires Drainable(w, due) && w.outbox != [] && !Strikes(w, Next(w.outbox))
    requires Next(w.outbox).run.Some? ==> Next(w.outbox).run.value == w.running && !due
    ensures var e := Next(w.outbox);
            var asked := Apply(w, Ask(e.id));
            var acts := ExchangeActs(asked, e.id, answer);
            && Legal(w, [Ask(e.id)] + acts) && Exec(w, [Ask(e.id)] + acts) == Exec(asked, acts)
            && (answer.Answered? ==> Drainable(Exec(asked, acts), due))
  {
    var id := Next(w.outbox).id;
    MayAskNext(w, due);
    AskedLegal(w, id, answer);
    if answer.Answered? {
      AskedLeaves(w, due, id);
      LegalKeeps(w, [Ask(id)] + ExchangeActs(Apply(w, Ask(id)), id, answer));
    }
  }

  lemma AskedLegal(w: World, id: Id, answer: Answer)
    requires Inv(w) && MayAsk(w, id)
    ensures var asked := Apply(w, Ask(id));
            var acts := ExchangeActs(asked, id, answer);
            Legal(w, [Ask(id)] + acts) && Exec(w, [Ask(id)] + acts) == Exec(asked, acts)
  {
    var asked := Apply(w, Ask(id));
    AllowedKeeps(w, Ask(id));
    LegalOne(w, Ask(id));
    ExchangeLegal(asked, answer);
    LegalConcat(w, [Ask(id)], ExchangeActs(asked, id, answer));
  }

  lemma AskedLeaves(w: World, due: bool, id: Id)
    requires OutboxOfLast(w) && Ready(w, due) && MayAsk(w, id)
    ensures var asked := Apply(w, Ask(id));
            var w' := Exec(asked, ExchangeActs(asked, id, Answered));
            w'.waiting.None? && Ready(w', due)
  {
    AnsweredLeaves(Apply(w, Ask(id)), due);
  }

  lemma MayAskNext(w: World, due: bool)
    requires DistinctEntries(w.outbox) && WellShaped(w) && Ready(w, due) && w.outbox != []
             && !Strikes(w, Next(w.outbox))
    requires Next(w.outbox).run.Some? ==> Next(w.outbox).run.value == w.running && !due
    ensures MayAsk(w, Next(w.outbox).id)
  {
    NextIsFirst(w);
    var e := Next(w.outbox);
    var i :| 0 <= i < |w.outbox| && w.outbox[i] == e;
    assert WellShapedEntry(w.outbox[i]);
  }

  lemma AnsweredLeaves(w: World, due: bool)
    requires OutboxOfLast(w) && WaitingFirst(w) && w.waiting.Some? && w.waiting.value.run == w.running && Ready(w, due)
    ensures var w' := Exec(w, ExchangeActs(w, w.waiting.value.id, Answered));
            w'.waiting.None? && Ready(w', due) && w'.running == w.running
  {
    var id := w.waiting.value.id;
    AnsweredIs(w, id);
    Committing(w, id);
    SameOutbox(w, Exec(w, CommitActs(w, id)), due);
    StruckReady(Exec(w, CommitActs(w, id)), id, w.running, due);
  }

  lemma SameOutbox(w: World, w': World, due: bool)
    requires OutboxOfLast(w) && Ready(w, due) && w'.outbox == w.outbox && w'.batches == w.batches
    ensures OutboxOfLast(w') && Ready(w', due)
  {
  }

  function CommitActs(w: World, id: Id): seq<Act> {
    if id in Committed(w, w.running) then [] else [Commit(id)]
  }

  lemma AnsweredIs(w: World, id: Id)
    ensures var done := Exec(w, CommitActs(w, id));
            Exec(w, ExchangeActs(w, id, Answered)) == Apply(Apply(done, Strike({id})), Clear)
  {
    ExecConcat(w, CommitActs(w, id), [Strike({id}), Clear]);
    ExecTwo(Exec(w, CommitActs(w, id)), Strike({id}), Clear);
  }

  lemma StruckReady(w: World, id: Id, run: Run, due: bool)
    requires OutboxOfLast(w) && FirstOfRun(OfBatches(w.outbox), id, run) && id in Committed(w, run) && Ready(w, due)
    ensures Ready(Apply(w, Strike({id})), due)
  {
    MayStrikeOne(w, id);
    StrikeKeepsReady(w, due, {id});
  }
}
