/** Runs in which a fresh run's own stream input is struck off unsent (adapter/ibkr/loop.py, adapter/ibkr/relay.py).

    A stream envelope's ID names its session and instrument, not its run (adapter/marketdata/encode.py), so two runs'
    streams hold the same IDs; a settlement of an ended run's input names one of them for good. */
module DeliveryLoss {
  import opened Wrappers
  import opened Delivery
  import opened DeliveryRuns
  import opened DeliveryLegal

  /** What such a run is made of: the ended run and the fresh one, a snapshot of each, a session's file, and its
      close. */
  datatype Case = Case(ended: Run, after: Run, first: nat, second: nat, file: File, close: Id)

  ghost predicate Real(c: Case) {
    c.ended != c.after && c.first != c.second && c.close.Streamed?
  }

  function CloseEntry(c: Case, run: Run): Entry {
    Entry(c.close, Some(run), true)
  }

  /** One batch of a run: its reconciliation and the session's close. */
  function Entries(c: Case, run: Run, snapshot: nat): seq<Entry> {
    [Entry(Made(snapshot, Reconciliation), Some(run), false), CloseEntry(c, run)]
  }

  function Deliver(c: Case, run: Run, snapshot: nat): Delivering {
    Delivering([], NotNow, [c.file], snapshot, Entries(c, run, snapshot), Taken)
  }

  function QueuedBatch(c: Case, run: Run, snapshot: nat): Batch {
    Batch(run, snapshot, [c.file], Queued, [Made(snapshot, Reconciliation), c.close])
  }

  /** An operation with every write made. */
  function Whole(w: World, op: Op): Event {
    Event(op, |Acts(w, op)|)
  }

  lemma WholeStep(w: World, op: Op)
    ensures Step(w, Whole(w, op)) == Exec(w, Acts(w, op))
  {
    assert Acts(w, op)[..|Acts(w, op)|] == Acts(w, op);
  }

  function Turns(second: Answer): seq<Turn> {
    [Turn(false, Answered), Turn(false, second)]
  }

  // ----- One step: the batch delivered and drained -----

  ghost predicate Idle(w: World) {
    w.outbox == [] && w.waiting.None? && !LastQueuing(w) && forall n :: 0 <= n < |w.batches| ==>
        w.batches[n].run != w.running
  }

  function QueuedIn(c: Case, w: World, snapshot: nat): World {
    w.(batches := w.batches + [QueuedBatch(c, w.running, snapshot)], outbox := Entries(c, w.running, snapshot))
  }

  lemma Delivers(c: Case, w: World, snapshot: nat)
    requires Idle(w)
    ensures var p := DeliverPlan(w, Deliver(c, w.running, snapshot));
            !p.stops && Exec(w, p.acts) == QueuedIn(c, w, snapshot)
  {
    var d := Deliver(c, w.running, snapshot);
    assert d.listing[1..] == [];
    assert NewFiles(w.batches, w.running, d.listing) == [c.file];
    var begin := Begin(Batch(w.running, snapshot, [c.file], Queuing, []));
    var es := Entries(c, w.running, snapshot);
    assert DeliverPlan(w, d).acts == [begin] + [Extend(es), MarkQueued];
    ExecConcat(w, [begin], [Extend(es), MarkQueued]);
    ExecOne(w, begin);
    ExecTwo(Apply(w, begin), Extend(es), MarkQueued);
    assert Ids(es) == [Made(snapshot, Reconciliation), c.close];
    var end := Exec(w, DeliverPlan(w, d).acts);
    assert end.batches == w.batches + [QueuedBatch(c, w.running, snapshot)];
    assert end.outbox == es;
  }

  function Drained(w: World, turns: seq<Turn>): World {
    Exec(w, DrainActs(w, false, turns))
  }

  lemma Steps(c: Case, w: World, snapshot: nat, turns: seq<Turn>)
    requires Idle(w)
    ensures Exec(w, Acts(w, StepAdapter(false, Deliver(c, w.running, snapshot), NotReached, turns))) ==
            Drained(QueuedIn(c, w, snapshot), turns)
  {
    Delivers(c, w, snapshot);
    var p := DeliverPlan(w, Deliver(c, w.running, snapshot));
    var queued := QueuedIn(c, w, snapshot);
    var drain := DrainAll(queued, false, NotReached, turns);
    assert drain == [] + DrainActs(queued, false, turns) by { assert WaitingActs(queued, NotReached) == []; }
    assert [] + DrainActs(queued, false, turns) == DrainActs(queued, false, turns);
    ExecConcat(w, p.acts, drain);
  }

  lemma StruckFirst(c: Case, run: Run, snapshot: nat)
    requires c.close.Streamed?
    ensures Without(Entries(c, run, snapshot), {Made(snapshot, Reconciliation)}) == [CloseEntry(c, run)]
    ensures Without([CloseEntry(c, run)], {c.close}) == []
  {
    var es := Entries(c, run, snapshot);
    var close := CloseEntry(c, run);
    assert es[1..] == [close] && [close][1..] == [];
    assert Without([close], {Made(snapshot, Reconciliation)}) == [close];
  }

  /** An answered exchange of an input not yet committed. */
  lemma AnsweredExec(w: World, id: Id)
    requires id !in Committed(w, w.running) && w.waiting.None?
    ensures var asked := Apply(w, Ask(id));
            Exec(asked, ExchangeActs(asked, id, Answered))
            == w.(outbox := Without(w.outbox, {id}),
                committed := w.committed[w.running := Committed(w, w.running) + [id]])
  {
    var asked := Apply(w, Ask(id));
    var acts := ExchangeActs(asked, id, Answered);
    assert acts == [Commit(id)] + [Strike({id}), Clear];
    ExecConcat(asked, [Commit(id)], [Strike({id}), Clear]);
    ExecOne(asked, Commit(id));
    ExecTwo(Apply(asked, Commit(id)), Strike({id}), Clear);
  }

  lemma TurnSends(w: World, turns: seq<Turn>)
    requires turns != [] && w.outbox != [] && !turns[0].awaitsCommission
    requires var e := Next(w.outbox); !Strikes(w, e) && e.run == Some(w.running)
    ensures var id := Next(w.outbox).id;
            var asked := Apply(w, Ask(id));
            && (turns[0].answer.NotReached? ==> Drained(w, turns) == asked)
            && (turns[0].answer.Answered? ==>
                  Drained(w, turns) == Drained(Exec(asked, ExchangeActs(asked, id, Answered)), turns[1..]))
  {
    var id := Next(w.outbox).id;
    var asked := Apply(w, Ask(id));
    var acts := ExchangeActs(asked, id, turns[0].answer);
    ExecOne(w, Ask(id));
    ExecConcat(w, [Ask(id)], acts);
    if turns[0].answer.NotReached? {
      assert DrainActs(w, false, turns) == [Ask(id)];
    } else if turns[0].answer.Answered? {
      ExecConcat(w, [Ask(id)] + acts, DrainActs(Exec(asked, acts), false, turns[1..]));
    }
  }

  lemma TurnStrikes(w: World, turns: seq<Turn>)
    requires turns != [] && w.outbox != [] && Strikes(w, Next(w.outbox))
    ensures Drained(w, turns) == Drained(Apply(w, Strike({Next(w.outbox).id})), turns[1..])
  {
    var strike := Strike({Next(w.outbox).id});
    ExecConcat(w, [strike], DrainActs(Apply(w, strike), false, turns[1..]));
    ExecOne(w, strike);
  }

  /** The batch's reconciliation answered, and its close left. */
  function CloseLeft(c: Case, w: World, snapshot: nat): World {
    w.(outbox := [CloseEntry(c, w.running)], committed := w.committed[w.running := [Made(snapshot, Reconciliation)]])
  }

  lemma Reconciles(c: Case, w: World, snapshot: nat, turns: seq<Turn>)
    requires c.close.Streamed? && w.outbox == Entries(c, w.running, snapshot) && w.waiting.None?
    requires Made(snapshot, Reconciliation) !in w.settled && w.running !in w.committed
    requires turns != [] && turns[0] == Turn(false, Answered)
    ensures Drained(w, turns) == Drained(CloseLeft(c, w, snapshot), turns[1..])
  {
    assert Next(w.outbox) == w.outbox[0];
    TurnSends(w, turns);
    AnsweredExec(w, Made(snapshot, Reconciliation));
    StruckFirst(c, w.running, snapshot);
    assert Committed(w, w.running) + [Made(snapshot, Reconciliation)] == [Made(snapshot, Reconciliation)];
  }

  // ----- The run -----

  /** The ended run's batch: its close sent, the engine's answer lost. */
  function Unanswered(c: Case): Op {
    StepAdapter(false, Deliver(c, c.ended, c.first), NotReached, Turns(NotReached))
  }

  function AfterFirst(c: Case): World {
    World([QueuedBatch(c, c.ended, c.first)], [CloseEntry(c, c.ended)], Some(Waiting(c.close, c.ended)), {},
          map[c.ended := [Made(c.first, Reconciliation)]], c.ended)
  }

  lemma FirstStep(c: Case)
    requires Real(c)
    ensures var w := FirstWorld(c.ended); Step(w, Whole(w, Unanswered(c))) == AfterFirst(c)
  {
    var w := FirstWorld(c.ended);
    WholeStep(w, Unanswered(c));
    Steps(c, w, c.first, Turns(NotReached));
    var queued := QueuedIn(c, w, c.first);
    assert queued.batches == [QueuedBatch(c, c.ended, c.first)];
    Reconciles(c, queued, c.first, Turns(NotReached));
    assert Turns(NotReached)[1..] == [Turn(false, NotReached)];
    CloseAsked(c, CloseLeft(c, queued, c.first));
  }

  /** The close left alone is asked for, and not answered. */
  lemma CloseAsked(c: Case, w: World)
    requires c.close.Streamed? && w.outbox == [CloseEntry(c, w.running)] && c.close !in w.settled
             && c.close !in Committed(w, w.running)
    ensures Drained(w, [Turn(false, NotReached)]) == w.(waiting := Some(Waiting(c.close, w.running)))
  {
    assert Next(w.outbox) == w.outbox[0];
    TurnSends(w, [Turn(false, NotReached)]);
  }

  /** A fresh run starts, and stops at the input that awaits the ended run's reply. */
  function AfterStart(c: Case): World {
    AfterFirst(c).(running := c.after)
  }

  lemma Starts(c: Case)
    requires Real(c)
    ensures var w := AfterFirst(c); Step(w, Whole(w, StartAdapter(c.after, NotReached))) == AfterStart(c)
  {
    var w := AfterFirst(c);
    WholeStep(w, StartAdapter(c.after, NotReached));
    ExecOne(w, Start(c.after));
    assert WaitingActs(Apply(w, Start(c.after)), NotReached) == [];
    assert Acts(w, StartAdapter(c.after, NotReached)) == [Start(c.after)] + [];
  }

  /** The owner settles that input as left by the ended run. */
  function AfterSettling(c: Case): World {
    World([QueuedBatch(c, c.ended, c.first)], [], None, {c.close}, map[c.ended := [Made(c.first, Reconciliation)]],
        c.after)
  }

  lemma Settles(c: Case)
    requires Real(c)
    ensures var w := AfterStart(c); Step(w, Whole(w, SettleRunEnded({}))) == AfterSettling(c)
  {
    var w := AfterStart(c);
    WholeStep(w, SettleRunEnded({}));
    var ids: set<Id> := {c.close};
    assert {} + {c.close} == ids;
    assert Acts(w, SettleRunEnded({})) == [Settle(ids)] + [Strike(ids), Clear];
    ExecConcat(w, [Settle(ids)], [Strike(ids), Clear]);
    ExecOne(w, Settle(ids));
    ExecTwo(Apply(w, Settle(ids)), Strike(ids), Clear);
    StruckFirst(c, c.ended, c.first);
    assert w.settled + ids == ids;
  }

  /** The fresh run delivers its own stream, which holds the same session. */
  function FreshStream(c: Case): Op {
    StepAdapter(false, Deliver(c, c.after, c.second), NotReached, Turns(Answered))
  }

  function AtTheEnd(c: Case): World {
    World([QueuedBatch(c, c.ended, c.first), QueuedBatch(c, c.after, c.second)], [], None, {c.close},
          map[c.ended := [Made(c.first, Reconciliation)], c.after := [Made(c.second, Reconciliation)]], c.after)
  }

  lemma LastStep(c: Case)
    requires Real(c)
    ensures var w := AfterSettling(c); Step(w, Whole(w, FreshStream(c))) == AtTheEnd(c)
  {
    var w := AfterSettling(c);
    WholeStep(w, FreshStream(c));
    Steps(c, w, c.second, Turns(Answered));
    var queued := QueuedIn(c, w, c.second);
    assert queued.batches == AtTheEnd(c).batches;
    Reconciles(c, queued, c.second, Turns(Answered));
    var left := CloseLeft(c, queued, c.second);
    assert Turns(Answered)[1..] == [Turn(false, Answered)];
    CloseStruck(c, left);
    assert left.committed == AtTheEnd(c).committed;
  }

  /** The close left alone is struck off unsent once it is settled. */
  lemma CloseStruck(c: Case, w: World)
    requires w.outbox == [CloseEntry(c, w.running)] && c.close in w.settled
    ensures Drained(w, [Turn(false, Answered)]) == w.(outbox := [])
  {
    assert [Turn(false, Answered)][1..] == [];
    assert Next(w.outbox) == w.outbox[0];
    TurnStrikes(w, [Turn(false, Answered)]);
    assert Without(w.outbox, {c.close}) == [];
  }

  function TheRun(c: Case): seq<Event> {
    [Whole(FirstWorld(c.ended), Unanswered(c)), Whole(AfterFirst(c), StartAdapter(c.after, NotReached)),
     Whole(AfterStart(c), SettleRunEnded({})), Whole(AfterSettling(c), FreshStream(c))]
  }

  lemma RunOfFour(w: World, a: Event, b: Event, c: Event, d: Event)
    ensures RunOf(w, [a, b, c, d]) == Step(Step(Step(Step(w, a), b), c), d)
    ensures Sound(w, a.op) && Sound(Step(w, a), b.op) && Sound(Step(Step(w, a), b), c.op)
            && Sound(Step(Step(Step(w, a), b), c), d.op)
            ==> SoundRun(w, [a, b, c, d])
  {
    assert [a, b, c, d][1..] == [b, c, d] && [b, c, d][1..] == [c, d] && [c, d][1..] == [d] && [d][1..] == [];
    var w1 := Step(w, a);
    var w2 := Step(w1, b);
    var w3 := Step(w2, c);
    assert RunOf(w3, [d]) == Step(w3, d) && RunOf(w2, [c, d]) == RunOf(w3, [d])
        && RunOf(w1, [b, c, d]) == RunOf(w2, [c, d]);
    assert Sound(w3, d.op) ==> SoundRun(w3, [d]);
    assert SoundRun(w3, [d]) && Sound(w2, c.op) ==> SoundRun(w2, [c, d]);
    assert SoundRun(w2, [c, d]) && Sound(w1, b.op) ==> SoundRun(w1, [b, c, d]);
  }

  lemma EntriesSound(c: Case, w: World, snapshot: nat)
    requires c.close.Streamed? && forall run, part :: Made(snapshot, part) !in Committed(w, run)
    requires w.waiting.None? && forall part :: Made(snapshot, part) !in w.settled
    ensures Unsent(w, snapshot) && BatchEntries(w, snapshot, Entries(c, w.running, snapshot))
  {
    var es := Entries(c, w.running, snapshot);
    assert Ids(es)[0] == Made(snapshot, Reconciliation);
  }

  /** In every such case, by steps the adapter makes: the fresh run's queued batch names the session's close, which is
      neither committed for that run nor in the outbox, struck off unsent because an ended run's input under the same
      ID was settled. */
  lemma SettledCloseIsLost(c: Case)
    requires Real(c)
    ensures SoundRun(FirstWorld(c.ended), TheRun(c))
    ensures var w := RunOf(FirstWorld(c.ended), TheRun(c));
            && w.running == c.after && |w.batches| == 2 && w.batches[1] == QueuedBatch(c, c.after, c.second)
            && c.close in w.batches[1].written && c.close !in Committed(w, c.after) && w.outbox == []
  {
    FirstStep(c);
    Starts(c);
    Settles(c);
    LastStep(c);
    EntriesSound(c, FirstWorld(c.ended), c.first);
    EntriesSound(c, AfterSettling(c), c.second);
    RunOfFour(FirstWorld(c.ended), TheRun(c)[0], TheRun(c)[1], TheRun(c)[2], TheRun(c)[3]);
  }
}
