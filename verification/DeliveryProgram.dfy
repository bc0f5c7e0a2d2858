/** The deliverer and the loop as they run: each changes the adapter's files one atomic write at a time
    (adapter/ibkr/delivery.py, adapter/ibkr/loop.py). Each makes exactly the writes its specification lists, and a
    start, a step, a producer's entry and a settlement keep `Safe`: the invariant of every run held at every write since
    the first start, so a stop between any two of them loses no input. */
module DeliveryProgram {
  import opened Wrappers
  import opened Delivery
  import opened DeliveryRuns
  import opened DeliveryKeeps
  import opened DeliveryLegal
  import opened DeliveryTheorems
  import opened DeliveryResults
  import opened DeliveryTurns

  class Adapter {
    // the delivery record, the outbox, the input awaiting its reply and the settlements
    var batches: seq<Batch>
    var outbox: seq<Entry>
    var waiting: Option<Waiting>
    var settled: set<Id>
    // what the engine's logs hold, and the run now running
    var committed: map<Run, seq<Id>>
    var running: Run
    // the world at first, and every write made since
    ghost const first: World
    ghost var acts: seq<Act>

    function View(): World
      reads this
    {
      World(batches, outbox, waiting, settled, committed, running)
    }

    /** The invariant held at every write made so far. */
    ghost predicate Safe()
      reads this
    {
      View() == Exec(first, acts) && Held(first, acts)
    }

    constructor (run: Run)
      ensures View() == FirstWorld(run) && first == FirstWorld(run) && acts == [] && Safe()
    {
      batches, outbox, waiting, settled, committed, running := [], [], None, {}, map[], run;
      first, acts := FirstWorld(run), [];
      FirstInv(run);
    }

    /** One atomic write, of a file or of the engine's log. */
    method Perform(a: Act)
      modifies this
      ensures View() == Apply(old(View()), a) && acts == old(acts) + [a]
    {
      match a {
        case Begin(batch) => batches := batches + [batch];
        case Extend(entries) =>
          outbox := outbox + entries;
          if batches != [] {
            batches := batches[|batches| - 1 := batches[|batches| - 1].(written := Ids(entries))];
          }
        case MarkQueued => batches := Marked(batches, Queued);
        case MarkDropped => batches := Marked(batches, Dropped);
        case DropQueued(run) =>
          var n := LastOf(batches, run);
          if n < |batches| && batches[n].state == Queued {
            batches := batches[n := batches[n].(state := Dropped)];
          }
        case Strike(ids) => outbox := Without(outbox, ids);
        case Ask(id) => waiting := Some(Waiting(id, running));
        case Commit(id) => committed := committed[running := (if running in committed then committed[running]
            else []) + [id]];
        case Clear => waiting := None;
        case Append(entry) => outbox := outbox + [entry];
        case Settle(ids) => settled := settled + ids;
        case Start(run) => running := run;
      }
      acts := acts + [a];
    }

    /** Two writes in turn. */
    method PerformTwo(a: Act, b: Act)
      modifies this
      ensures View() == Exec(old(View()), [a, b]) && acts == old(acts) + [a, b]
    {
      ExecTwo(View(), a, b);
      Perform(a);
      Perform(b);
    }

    /** _finish. */
    method Finish(d: Delivering) returns (goesOn: bool, stops: bool)
      requires LastQueuing(View())
      modifies this
      ensures var p := FinishPlan(old(View()), d);
              goesOn == p.goesOn && stops == p.stops && View() == Exec(old(View()), p.acts)
                  && acts == old(acts) + p.acts
      ensures LeavesFinished(old(View()), d, View()) && (goesOn <==> !StaysQueuing(old(View()), d))
      ensures stops <==> !goesOn && d.finishReading != NotNow
    {
      FinishResult(View(), d);
      var last := batches[|batches| - 1];
      if Recorded(View(), last.snapshot) {
        ExecOne(View(), MarkQueued);
        Perform(MarkQueued);
        return true, false;
      }
      if last.run != running {
        ExecOne(View(), MarkDropped);
        Perform(MarkDropped);
        return true, false;
      }
      if d.finishReading.Unreadable? || (d.finishReading.Taken? && !Disjoint(d.finishEntries, outbox)) {
        assert acts == acts + [];
        return false, true;
      }
      if d.finishReading.NotNow? {
        assert acts == acts + [];
        return false, false;
      }
      PerformTwo(Extend(d.finishEntries), MarkQueued);
      return true, false;
    }

    /** The run's files no batch names that is not dropped. */
    method FindNew(listing: seq<File>) returns (files: seq<File>)
      ensures files == NewFiles(batches, running, listing)
    {
      files := [];
      var i := |listing|;
      while i > 0
        invariant 0 <= i <= |listing| && files == NewFiles(batches, running, listing[i..])
      {
        i := i - 1;
        assert listing[i..][1..] == listing[i + 1..];
        if !IsDelivered(batches, running, listing[i]) {
          files := [listing[i]] + files;
        }
      }
    }

    /** deliver, with no batch queuing. */
    method BeginBatch(d: Delivering) returns (goesOn: bool, stops: bool)
      modifies this
      ensures var p := BeginPlan(old(View()), d);
              goesOn == p.goesOn && stops == p.stops && View() == Exec(old(View()), p.acts)
                  && acts == old(acts) + p.acts
      ensures LeavesBegun(old(View()), d, View()) && (stops <==> StopsFor(old(View()), d)) && (goesOn <==> !stops)
    {
      BeginResult(View(), d);
      assert acts == acts + [];
      if HoldsEnvelope(outbox) {
        return true, false;
      }
      var files := FindNew(d.listing);
      if files == [] {
        return true, false;
      }
      if !AllAfter(batches, running, files) || !Increasing(files) || d.reading.Unreadable? {
        return false, true;
      }
      if d.reading.NotNow? {
        return true, false;
      }
      var begin := Begin(Batch(running, d.snapshot, files, Queuing, []));
      var queues := Disjoint(d.entries, outbox);
      ExecOne(View(), begin);
      ExecConcat(View(), [begin], [Extend(d.entries), MarkQueued]);
      assert [begin] + [Extend(d.entries), MarkQueued] == [begin, Extend(d.entries), MarkQueued];
      Perform(begin);
      if !queues {
        return false, true;
      }
      PerformTwo(Extend(d.entries), MarkQueued);
      return true, false;
    }

    /** deliver. */
    method Deliver(d: Delivering) returns (stops: bool)
      modifies this
      ensures var p := DeliverPlan(old(View()), d);
              stops == p.stops && View() == Exec(old(View()), p.acts) && acts == old(acts) + p.acts
      ensures LeavesDelivered(old(View()), d, View()) && (stops <==> DeliveryStops(old(View()), d))
    {
      DeliverResult(View(), d);
      var goesOn;
      if batches != [] && batches[|batches| - 1].state.Queuing? {
        ghost var w := View();
        goesOn, stops := Finish(d);
        if !goesOn {
          return;
        }
        ghost var p, q := FinishPlan(w, d), BeginPlan(View(), d);
        ExecConcat(w, p.acts, q.acts);
      }
      goesOn, stops := BeginBatch(d);
    }

    /** The relay's exchange of the input that awaits its reply, as far as it gets. */
    method Exchange(id: Id, answer: Answer)
      modifies this
      ensures var w := old(View());
              View() == Exec(w, ExchangeActs(w, id, answer)) && acts == old(acts) + ExchangeActs(w, id, answer)
    {
      ghost var w := View();
      assert acts == acts + [];
      if answer.NotReached? {
        return;
      }
      ghost var commit := if id in Committed(w, w.running) then [] else [Commit(id)];
      ExecConcat(w, commit, [Strike({id}), Clear]);
      ExecOne(w, Commit(id));
      if !(running in committed && id in committed[running]) {
        Perform(Commit(id));
      }
      if answer.Answered? {
        PerformTwo(Strike({id}), Clear);
      }
    }

    /** _drain's loop. */
    method Drain(due: bool, turns: seq<Turn>)
      modifies this
      ensures var w := old(View());
              View() == Exec(w, DrainActs(w, due, turns)) && acts == old(acts) + DrainActs(w, due, turns)
    {
      ghost var end, all := Exec(View(), DrainActs(View(), due, turns)), acts + DrainActs(View(), due, turns);
      var i := 0;
      assert turns[0..] == turns;
      while i < |turns| && outbox != []
        invariant 0 <= i <= |turns|
        invariant Exec(View(), DrainActs(View(), due, turns[i..])) == end
        invariant acts + DrainActs(View(), due, turns[i..]) == all
        decreases |turns| - i
      {
        DrainUnfolds(View(), due, turns[i..]);
        assert turns[i..][0] == turns[i] && turns[i..][1..] == turns[i + 1..];
        ghost var taken := TurnActs(View(), due, turns[i]);
        Regroup(acts, taken, DrainActs(Exec(View(), taken), due, turns[i + 1..]));
        var goesOn := TakeNext(due, turns[i]);
        if !goesOn {
          return;
        }
        i := i + 1;
      }
      assert DrainActs(View(), due, turns[i..]) == [];
    }

    /** _drain: the input that awaits its reply first. */
    method DrainOutbox(due: bool, answer: Answer, turns: seq<Turn>)
      requires waiting.Some? ==> waiting.value.run == running
      modifies this
      ensures var w := old(View());
              View() == Exec(w, DrainAll(w, due, answer, turns)) && acts == old(acts) + DrainAll(w, due, answer, turns)
    {
      DrainAllIs(View(), due, answer, turns);
      if waiting.Some? {
        ghost var w := View();
        ghost var asked := ExchangeActs(w, waiting.value.id, answer);
        Regroup(acts, asked, DrainActs(Exec(w, asked), due, turns));
        Exchange(waiting.value.id, answer);
        if answer.Answered? {
          Drain(due, turns);
        }
      } else {
        Drain(due, turns);
      }
    }

    /** start: the running run is taken up, and its input that awaits a reply is asked for again. */
    method Begins(run: Run, answer: Answer)
      requires Safe()
      modifies this
      ensures Safe() && Conserved(View())
      ensures var w, op := old(View()), StartAdapter(run, answer);
              View() == Exec(w, Acts(w, op)) && acts == old(acts) + Acts(w, op)
    {
      OpHolds(first, acts, StartAdapter(run, answer));
      ghost var w, before := View(), acts;
      ExecOne(w, Start(run));
      Perform(Start(run));
      ghost var asked := WaitingActs(View(), answer);
      ExecConcat(w, [Start(run)], asked);
      Regroup(before, [Start(run)], asked);
      assert acts == acts + [];
      if waiting.Some? && waiting.value.run == running {
        Exchange(waiting.value.id, answer);
      }
    }

    /** A producer's entry, refused under an ID the outbox holds. */
    method Produces(e: Entry)
      requires Safe() && Sound(View(), Produce(e))
      modifies this
      ensures Safe() && Conserved(View())
      ensures var w, op := old(View()), Produce(e);
              View() == Exec(w, Acts(w, op)) && acts == old(acts) + Acts(w, op)
    {
      OpHolds(first, acts, Produce(e));
      assert acts == acts + [];
      if Disjoint([e], outbox) {
        ExecOne(View(), Append(e));
        Perform(Append(e));
      }
    }

    /** step, its engine side, with its entries as the stream's files hold them. */
    method StepOnce(due: bool, d: Delivering, answer: Answer, turns: seq<Turn>)
      requires Safe() && Sound(View(), StepAdapter(due, d, answer, turns))
      modifies this
      ensures Safe() && Conserved(View())
      ensures var w, op := old(View()), StepAdapter(due, d, answer, turns);
              View() == Exec(w, Acts(w, op)) && acts == old(acts) + Acts(w, op)
      ensures !due && TakesFiles(old(View()), d) ==> forall f :: f in d.listing ==> NamedBy(View(), f)
    {
      OpHolds(first, acts, StepAdapter(due, d, answer, turns));
      if TakesFiles(View(), d) {
        StepNamesFiles(View(), d, answer, turns);
      }
      MakeStep(due, d, answer, turns);
    }

    /** The delivery unless a reconciliation is owed, then the drain. */
    method MakeStep(due: bool, d: Delivering, answer: Answer, turns: seq<Turn>)
      modifies this
      ensures var w, op := old(View()), StepAdapter(due, d, answer, turns);
              View() == Exec(w, Acts(w, op)) && acts == old(acts) + Acts(w, op)
    {
      assert acts == acts + [];
      if !MayStep(View()) {
        return;
      }
      StepIs(View(), due, d, answer, turns);
      if due {
        DrainOutbox(due, answer, turns);
      } else {
        DeliverAndDrain(d, answer, turns);
      }
    }

    /** A step that owes no reconciliation. */
    method DeliverAndDrain(d: Delivering, answer: Answer, turns: seq<Turn>)
      requires MayStep(View())
      modifies this
      ensures var w, p := old(View()), DeliverPlan(old(View()), d);
              var w' := Exec(w, p.acts);
              if p.stops then View() == w' && acts == old(acts) + p.acts
              else
                && View() == Exec(w', DrainAll(w', false, answer, turns))
                && acts == old(acts) + (p.acts + DrainAll(w', false, answer, turns))
    {
      DeliverKeepsWaiting(View(), d);
      ghost var p := DeliverPlan(View(), d);
      Regroup(acts, p.acts, DrainAll(Exec(View(), p.acts), false, answer, turns));
      var stops := Deliver(d);
      if !stops {
        DrainOutbox(false, answer, turns);
      }
    }

    /** resolve --run-ended, its part in the outbox: the settlement recorded, then struck off, then cleared. */
    method SettleRunEnded(behind: set<Id>)
      requires Safe() && Sound(View(), Op.SettleRunEnded(behind))
      modifies this
      ensures Safe() && Conserved(View())
      ensures var w, op := old(View()), Op.SettleRunEnded(behind);
              View() == Exec(w, Acts(w, op)) && acts == old(acts) + Acts(w, op)
    {
      OpHolds(first, acts, Op.SettleRunEnded(behind));
      MakeSettlement(behind);
    }

    method MakeSettlement(behind: set<Id>)
      modifies this
      ensures var w, op := old(View()), Op.SettleRunEnded(behind);
              View() == Exec(w, Acts(w, op)) && acts == old(acts) + Acts(w, op)
    {
      assert acts == acts + [];
      if waiting.None? || waiting.value.run == running {
        return;
      }
      var ids := behind + {waiting.value.id};
      ExecOne(View(), Settle(ids));
      ExecConcat(View(), [Settle(ids)], [Strike(ids), Clear]);
      assert [Settle(ids)] + [Strike(ids), Clear] == [Settle(ids), Strike(ids), Clear];
      Perform(Settle(ids));
      PerformTwo(Strike(ids), Clear);
    }

    /** One turn of the loop: whether it goes on. */
    method TakeNext(due: bool, turn: Turn) returns (goesOn: bool)
      requires outbox != []
      modifies this
      ensures var w := old(View());
              && View() == Exec(w, TurnActs(w, due, turn)) && acts == old(acts) + TurnActs(w, due, turn)
              && goesOn == GoesOn(w, due, turn)
      ensures WellShaped(old(View())) ==>
                exists i :: 0 <= i < |old(outbox)| && TakenNext(old(outbox), i)
                            && LeavesTurn(old(View()), old(outbox)[i], due, turn, View(), goesOn)
    {
      if WellShaped(View()) {
        TurnResult(View(), due, turn);
      }
      assert acts == acts + [];
      var e := Next(outbox);
      if Strikes(View(), e) {
        ExecOne(View(), Strike({e.id}));
        Perform(Strike({e.id}));
        return true;
      }
      if e.run.Some? && e.run.value != running {
        PerformTwo(DropQueued(e.run.value), Strike(IdsOf(outbox, e.run.value)));
        return true;
      }
      if e.run.Some? && (due || turn.awaitsCommission) {
        return false;
      }
      ghost var w := View();
      ExecOne(w, Ask(e.id));
      Perform(Ask(e.id));
      ghost var asked := View();
      ExecConcat(w, [Ask(e.id)], ExchangeActs(asked, e.id, turn.answer));
      Exchange(e.id, turn.answer);
      return turn.answer.Answered?;
    }
  }

  // ----- The invariant at every write -----

  /** Every input of a queued batch is committed for its run, or in the outbox, or settled; no run commits one twice. */
  ghost predicate Conserved(w: World) {
    && (forall n, id :: 0 <= n < |w.batches| && w.batches[n].state.Queued? && id in w.batches[n].written ==>
          id in Committed(w, w.batches[n].run) || id in Ids(OfBatches(w.outbox)) || id in w.settled)
    && (forall r :: NoRepeat(Committed(w, r)))
  }

  /** The invariant holds in w and after each of the writes. */
  ghost predicate Held(w: World, acts: seq<Act>)
    decreases |acts|
  {
    Inv(w) && (acts != [] ==> Held(Apply(w, acts[0]), acts[1..]))
  }

  lemma InvConserves(w: World)
    requires Inv(w)
    ensures Conserved(w)
  {
    forall n, id | 0 <= n < |w.batches| && w.batches[n].state.Queued? && id in w.batches[n].written
      ensures id in Committed(w, w.batches[n].run) || id in Ids(OfBatches(w.outbox)) || id in w.settled
    {
      assert Accounted(w, n, id);
    }
  }

  lemma CutOne(w: World, acts: seq<Act>, k: nat)
    requires 0 < k <= |acts|
    ensures acts[k..] == acts[1..][k - 1..] && Exec(w, acts[..k]) == Exec(Apply(w, acts[0]), acts[1..][..k - 1])
  {
    assert acts[..k][0] == acts[0] && acts[..k][1..] == acts[1..][..k - 1];
  }

  lemma {:induction false} HeldFrom(w: World, acts: seq<Act>, k: nat)
    requires Held(w, acts) && k <= |acts|
    ensures Held(Exec(w, acts[..k]), acts[k..])
    decreases k
  {
    if k == 0 {
      assert acts[..k] == [] && acts[k..] == acts;
    } else {
      CutOne(w, acts, k);
      HeldFrom(Apply(w, acts[0]), acts[1..], k - 1);
    }
  }

  /** A stop after any of the writes leaves the invariant, and every input accounted for. */
  lemma HeldAtEveryCut(w: World, acts: seq<Act>, k: nat)
    requires Held(w, acts) && k <= |acts|
    ensures Inv(Exec(w, acts[..k])) && Conserved(Exec(w, acts[..k]))
  {
    HeldFrom(w, acts, k);
    InvConserves(Exec(w, acts[..k]));
  }

  /** Writes that follow the discipline keep the invariant at each of them. */
  lemma {:induction false} HoldsOn(w: World, before: seq<Act>, more: seq<Act>)
    requires Held(w, before) && Legal(Exec(w, before), more)
    ensures Held(w, before + more) && Exec(w, before + more) == Exec(Exec(w, before), more)
    decreases |before| + |more|
  {
    var all := before + more;
    if before != [] {
      assert all[1..] == before[1..] + more;
      HoldsOn(Apply(w, before[0]), before[1..], more);
    } else {
      assert all == more;
      if more != [] {
        AllowedKeeps(w, more[0]);
        HoldsOn(Apply(w, more[0]), [], more[1..]);
        assert [] + more[1..] == more[1..];
      }
    }
  }

  lemma OpHolds(first: World, before: seq<Act>, op: Op)
    requires Held(first, before) && Sound(Exec(first, before), op)
    ensures var w := Exec(first, before);
            && Held(first, before + Acts(w, op)) && Exec(first, before + Acts(w, op)) == Exec(w, Acts(w, op))
            && Conserved(Exec(w, Acts(w, op)))
  {
    OpLegalThen(first, before, op);
    HoldsOn(first, before, Acts(Exec(first, before), op));
    HeldNow(first, before + Acts(Exec(first, before), op));
  }

  lemma OpLegalThen(first: World, before: seq<Act>, op: Op)
    requires Held(first, before) && Sound(Exec(first, before), op)
    ensures Legal(Exec(first, before), Acts(Exec(first, before), op))
  {
    HeldNow(first, before);
    OpLegal(Exec(first, before), op);
  }

  lemma HeldNow(w: World, acts: seq<Act>)
    requires Held(w, acts)
    ensures Inv(Exec(w, acts)) && Conserved(Exec(w, acts))
  {
    assert acts[..|acts|] == acts;
    HeldAtEveryCut(w, acts, |acts|);
  }
}
