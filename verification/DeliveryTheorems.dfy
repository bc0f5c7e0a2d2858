/** What every run of deliveries, stops, resumes and fresh runs keeps (adapter/ibkr/delivery.py,
    adapter/ibkr/loop.py). */
module DeliveryTheorems {
  import opened Wrappers
  import opened Delivery
  import opened DeliveryKeeps
  import opened DeliveryRuns
  import opened DeliveryLegal

  // ----- Every operation is legal -----

  lemma WaitingLegal(w: World, answer: Answer)
    requires Inv(w)
    ensures Legal(w, WaitingActs(w, answer))
  {
    if w.waiting.Some? && w.waiting.value.run == w.running { ExchangeLegal(w, answer); }
  }

  lemma DrainAllLegal(w: World, due: bool, answer: Answer, turns: seq<Turn>)
    requires Inv(w) && MayStep(w) && Ready(w, due)
    ensures Legal(w, DrainAll(w, due, answer, turns))
  {
    var acts := WaitingActs(w, answer);
    WaitingLegal(w, answer);
    if w.waiting.None? || answer.Answered? {
      LegalKeeps(w, acts);
      if w.waiting.Some? { AnsweredLeaves(w, due); }
      DrainLegal(Exec(w, acts), due, turns);
      LegalConcat(w, acts, DrainActs(Exec(w, acts), due, turns));
    }
  }

  /** A delivery that does not stop leaves no batch queuing in the outbox. */
  lemma DeliverLeaves(w: World, d: Delivering)
    requires Inv(w) && MayStep(w) && !DeliverPlan(w, d).stops
    ensures var w' := Exec(w, DeliverPlan(w, d).acts); Ready(w', false) && MayStep(w')
  {
    if !LastQueuing(w) {
      BeginLeaves(w, d);
    } else {
      FinishLeaves(w, d);
      RecordedIsInOutbox(w);
      var p := FinishPlan(w, d);
      if p.goesOn {
        var w' := Exec(w, p.acts);
        BeginLeaves(w', d);
        ExecConcat(w, p.acts, BeginPlan(w', d).acts);
      }
    }
  }

  lemma BeginLeaves(w: World, d: Delivering)
    requires !LastQueuing(w) && MayStep(w) && !BeginPlan(w, d).stops
    ensures var w' := Exec(w, BeginPlan(w, d).acts); !LastQueuing(w') && MayStep(w')
  {
    var p := BeginPlan(w, d);
    if p.acts != [] {
      var begin := p.acts[0];
      assert p.acts == [begin] + [Extend(d.entries), MarkQueued];
      ExecConcat(w, [begin], [Extend(d.entries), MarkQueued]);
      ExecOne(w, begin);
      ExecTwo(Apply(w, begin), Extend(d.entries), MarkQueued);
      var w' := Exec(w, p.acts);
      assert w'.outbox == w.outbox + d.entries;
      if w.waiting.Some? {
        var i :| 0 <= i < |w.outbox| && Ids(w.outbox)[i] == w.waiting.value.id;
        assert Ids(w'.outbox)[i] == w.waiting.value.id;
      }
    }
  }

  lemma StepLegal(w: World, due: bool, d: Delivering, answer: Answer, turns: seq<Turn>)
    requires Inv(w) && Sound(w, StepAdapter(due, d, answer, turns))
    ensures Legal(w, Acts(w, StepAdapter(due, d, answer, turns)))
  {
    if MayStep(w) {
      if due {
        DrainAllLegal(w, due, answer, turns);
      } else {
        DeliverLegal(w, d);
        var p := DeliverPlan(w, d);
        if !p.stops {
          LegalKeeps(w, p.acts);
          DeliverLeaves(w, d);
          var w' := Exec(w, p.acts);
          DrainAllLegal(w', due, answer, turns);
          LegalConcat(w, p.acts, DrainAll(w', due, answer, turns));
        }
      }
    }
  }

  /** Only the first left of a batch's entries is among those struck, and it is done with. */
  lemma MayStrikeSome(w: World, ids: set<Id>, id: Id)
    requires forall i :: 0 <= i < |OfBatches(w.outbox)| ==> OfBatches(w.outbox)[i].id in ids ==>
             OfBatches(w.outbox)[i].id == id
    requires forall i :: 1 <= i < |OfBatches(w.outbox)| ==> OfBatches(w.outbox)[i].id != id
    requires id in ids && Done(w, id)
    ensures MayStrike(w, ids)
  {
  }

  lemma BatchIdsNotPlain(w: World)
    requires WellShaped(w)
    ensures forall i :: 0 <= i < |OfBatches(w.outbox)| ==> !OfBatches(w.outbox)[i].id.Plain?
  {
    var es := OfBatches(w.outbox);
    InBatches(w.outbox);
    forall i | 0 <= i < |es| ensures !es[i].id.Plain? {
      assert es[i] in es;
      var j :| 0 <= j < |w.outbox| && w.outbox[j] == es[i];
      assert WellShapedEntry(w.outbox[j]);
    }
  }

  lemma OnlyWaiting(w: World, behind: set<Id>)
    requires WellShaped(w) && w.waiting.Some? && forall id :: id in behind ==> id.Plain?
    ensures var es, ids := OfBatches(w.outbox), behind + {w.waiting.value.id};
            forall i :: 0 <= i < |es| ==> es[i].id in ids ==> es[i].id == w.waiting.value.id
  {
    BatchIdsNotPlain(w);
  }

  lemma SettleLegal(w: World, behind: set<Id>)
    requires WellShaped(w) && WaitingFirst(w) && forall id :: id in behind ==> id.Plain?
    ensures Legal(w, Acts(w, SettleRunEnded(behind)))
  {
    if w.waiting.Some? && w.waiting.value.run != w.running {
      var id := w.waiting.value.id;
      var ids := behind + {id};
      var settled := Apply(w, Settle(ids));
      OnlyWaiting(w, behind);
      MayStrikeSome(settled, ids, id);
      StrikeClear(settled, ids);
      LegalOne(w, Settle(ids));
      assert [Settle(ids)] + [Strike(ids), Clear] == [Settle(ids), Strike(ids), Clear];
      LegalConcat(w, [Settle(ids)], [Strike(ids), Clear]);
    }
  }

  lemma StrikeClear(w: World, ids: set<Id>)
    requires MayStrike(w, ids)
    ensures Legal(w, [Strike(ids), Clear])
  {
    LegalOne(Apply(w, Strike(ids)), Clear);
    assert [Strike(ids), Clear][1..] == [Clear];
  }

  lemma OpLegal(w: World, op: Op)
    requires Inv(w) && Sound(w, op)
    ensures Legal(w, Acts(w, op))
  {
    match op {
      case StartAdapter(run, answer) =>
        LegalOne(w, Start(run));
        AllowedKeeps(w, Start(run));
        WaitingLegal(Apply(w, Start(run)), answer);
        LegalConcat(w, [Start(run)], WaitingActs(Apply(w, Start(run)), answer));
      case StepAdapter(due, d, answer, turns) => StepLegal(w, due, d, answer, turns);
      case Produce(e) => if Disjoint([e], w.outbox) { LegalOne(w, Append(e)); }
      case SettleRunEnded(behind) => SettleLegal(w, behind);
    }
  }

  lemma StepKeeps(w: World, e: Event)
    requires Inv(w) && Sound(w, e.op)
    ensures Inv(Step(w, e))
  {
    OpLegal(w, e.op);
    CutLegal(w, Acts(w, e.op), e.cut);
    LegalKeeps(w, Cut(Acts(w, e.op), e.cut));
  }

  lemma CutLegal(w: World, acts: seq<Act>, n: nat)
    requires Legal(w, acts)
    ensures Legal(w, Cut(acts, n))
  {
    if n <= |acts| { LegalPrefix(w, acts, n); }
  }

  lemma {:induction false} RunKeeps(w: World, events: seq<Event>)
    requires Inv(w) && SoundRun(w, events)
    ensures Inv(RunOf(w, events))
    decreases |events|
  {
    if events != [] {
      StepKeeps(w, events[0]);
      RunKeeps(Step(w, events[0]), events[1..]);
    }
  }

  lemma FirstInv(run: Run)
    ensures Inv(FirstWorld(run))
  {
    var w := FirstWorld(run);
    assert forall r :: Committed(w, r) == [];
  }

  // ----- The theorems -----

  /** Over every run of steps, stops between any two writes, resumes, fresh runs and settlements: each file of a run is
      named by at most one batch not dropped, and only the last batch is ever still queuing. */
  lemma FilesNamedOnce(run: Run, events: seq<Event>)
    requires SoundRun(FirstWorld(run), events)
    ensures var bs := RunOf(FirstWorld(run), events).batches;
            && (forall m, n ::
                  0 <= m < n < |bs| && bs[m].run == bs[n].run && !bs[m].state.Dropped? && !bs[n].state.Dropped? ==>
                  forall f :: f in bs[m].files ==> f !in bs[n].files)
            && (forall n :: 0 <= n < |bs| && bs[n].state.Queuing? ==> n == |bs| - 1)
  {
    FirstInv(run);
    RunKeeps(FirstWorld(run), events);
    var bs := RunOf(FirstWorld(run), events).batches;
    forall m, n, f | 0 <= m < n < |bs| && bs[m].run == bs[n].run && !bs[m].state.Dropped? && !bs[n].state.Dropped?
        && f in bs[m].files
      ensures f !in bs[n].files
    {
      assert AllBefore(bs[m].files, bs[n].files);
    }
  }

  /** The outbox holds entries of at most one batch, the last recorded: what is left of its one write, in the order
      written, all for its run. */
  lemma OneBatchAtATime(run: Run, events: seq<Event>)
    requires SoundRun(FirstWorld(run), events)
    ensures var w := RunOf(FirstWorld(run), events);
            var es := OfBatches(w.outbox);
            es != [] ==> && w.batches != [] && IsSuffix(Ids(es), w.batches[|w.batches| - 1].written)
                         && forall i :: 0 <= i < |es| ==> es[i].run == Some(w.batches[|w.batches| - 1].run)
  {
    FirstInv(run);
    RunKeeps(FirstWorld(run), events);
  }

  /** Every input of every queued batch is committed for the batch's run, or still in the outbox, or one an owner
      settled as left by an ended run; and no run commits an input twice. */
  lemma NoInputLost(run: Run, events: seq<Event>)
    requires SoundRun(FirstWorld(run), events)
    ensures var w := RunOf(FirstWorld(run), events);
            && (forall n, id :: 0 <= n < |w.batches| && w.batches[n].state.Queued? && id in w.batches[n].written ==>
                  id in Committed(w, w.batches[n].run) || id in Ids(OfBatches(w.outbox)) || id in w.settled)
            && (forall r :: NoRepeat(Committed(w, r)))
  {
    FirstInv(run);
    RunKeeps(FirstWorld(run), events);
    var w := RunOf(FirstWorld(run), events);
    forall n, id | 0 <= n < |w.batches| && w.batches[n].state.Queued? && id in w.batches[n].written
      ensures id in Committed(w, w.batches[n].run) || id in Ids(OfBatches(w.outbox)) || id in w.settled
    {
      assert Accounted(w, n, id);
    }
  }

  // ----- A settled input is never sent -----

  ghost predicate SettledUnsent(w: World, run: Run, id: Id) {
    id in w.settled && (w.waiting.Some? ==> w.waiting.value.id != id) && id !in Committed(w, run)
  }

  lemma {:induction false} LegalNeverSends(w: World, acts: seq<Act>, run: Run, id: Id)
    requires SettledUnsent(w, run, id) && Legal(w, acts)
    ensures SettledUnsent(Exec(w, acts), run, id)
    decreases |acts|
  {
    if acts != [] {
      var w' := Apply(w, acts[0]);
      assert Committed(w', run) == Committed(w, run) + if acts[0].Commit? && run == w.running then [acts[0].id] else [];
      LegalNeverSends(w', acts[1..], run, id);
    }
  }

  /** The third way is lost for good: an input settled and not awaiting a reply is committed for no run that has not
      committed it, whatever follows, though that run's own stream names it. */
  lemma {:induction false} SettledIsNeverSent(w: World, events: seq<Event>, run: Run, id: Id)
    requires Inv(w) && SoundRun(w, events) && SettledUnsent(w, run, id)
    ensures SettledUnsent(RunOf(w, events), run, id)
    decreases |events|
  {
    if events != [] {
      OpLegal(w, events[0].op);
      CutLegal(w, Acts(w, events[0].op), events[0].cut);
      LegalNeverSends(w, Cut(Acts(w, events[0].op), events[0].cut), run, id);
      StepKeeps(w, events[0]);
      SettledIsNeverSent(Step(w, events[0]), events[1..], run, id);
    }
  }
}
