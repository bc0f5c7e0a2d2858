/** The relay and the owner's commands as they run: each changes the adapter's files one atomic write at a
    time. Each performs exactly the acts its specification lists, and each command, the drain's turn and the
    settling of one input keep `Safe`: the invariant of every run held at every act since the adapter's first
    start, so a stop between any two writes leaves it. */
module HandoverProgram {
  import opened Wrappers
  import opened Handover
  import opened EndedRun
  import opened HandoverRuns
  import opened HandoverKeeps
  import opened HandoverLegal
  import opened EndedRunLegal
  import opened HandoverTheorems
  import opened HandoverPass
  import EndedRunConverges
  import EndedRunEnded
  import EndedRunSettled
  import HandoverOwner

  class Adapter {
    // the files
    var waiting: Option<InputId>
    var runOf: Option<RunRecord>
    var marks: map<Cid, Mark>
    var decisions: seq<Decision>
    var refusal: Option<Refusal>
    var notHandedOver: Option<Refusal>
    var outbox: seq<Entry>
    var setAside: seq<Entry>
    var ended: seq<EndedInput>
    var neverSent: seq<Settlement>
    // the relay's memory
    var sent: set<Cid>
    // the whole world, as it was at first and as it is, and every act performed between
    ghost const first: World
    ghost var world: World
    ghost var acts: seq<Act>

    ghost predicate Valid()
      reads this
    {
      && waiting == world.waiting && runOf == world.runOf && marks == world.marks && decisions == world.decisions
      && refusal == world.refusal && notHandedOver == world.notHandedOver && outbox == world.outbox
      && setAside == world.setAside && ended == world.ended && neverSent == world.neverSent && sent == world.sent
    }

    /** The invariant held at every act performed so far, and a never-sent mark has a decision behind it. */
    ghost predicate Safe(e: Engine)
      reads this
    {
      Valid() && world == Exec(first, acts) && Held(e, first, acts) && MarksBacked(world)
    }

    /** A first start, with the retirements an older relay may have recorded. */
    constructor (older: seq<Decision>, ghost e: Engine, ghost w: World)
      requires Initial(w) && w.decisions == older
      ensures Safe(e) && first == w && world == w && acts == []
    {
      waiting, runOf, marks, decisions, refusal, notHandedOver := None, None, map[], older, None, None;
      outbox, setAside, ended, neverSent, sent := [], [], [], [], {};
      first, world, acts := w, w, [];
      InitialInv(e, w);
    }

    /** The adapter's own copy of what a decision records of its run. */
    function Tag(d: Decision): Decision
      reads this
    {
      if d.run.None? && runOf.Some? && d.input == Some(runOf.value.input) then d.(run := Some(runOf.value.run)) else d
    }

    /** One atomic act: a file replaced, a call made, or a note in memory. */
    method Perform(a: Act)
      requires Valid()
      modifies this
      ensures Valid() && world == Apply(old(world), a) && acts == old(acts) + [a]
    {
      if a.SetMark? || a.Decide? || a.Queue? || a.Strike? {
        Rewrite(a);
      } else if a.SetAside? || a.RecordEnded? || a.WriteNeverSent? {
        Keep(a);
      } else if a.NoteSent? || a.Crash? {
        Remember(a);
      } else if a.RecordRefusal? || a.RemoveRefusal? || a.ForgetNotHandedOver? || a.RecordNotHandedOver? {
        Note(a);
      } else {
        Advance(a);
      }
    }

    /** The write-ahead record, the decisions and the outbox. */
    method Rewrite(a: Act)
      requires Valid()
      requires a.SetMark? || a.Decide? || a.Queue? || a.Strike?
      modifies this
      ensures Valid() && world == Apply(old(world), a) && acts == old(acts) + [a]
    {
      match a {
        case SetMark(c, m) => marks := marks[c := m];
        case Decide(d) => decisions := decisions + [Tag(d)];
        case Queue(en) => outbox := outbox + [en];
        case Strike(ids) => outbox := Without(outbox, ids);
      }
      world, acts := Apply(world, a), acts + [a];
    }

    /** The records of settlements. */
    method Keep(a: Act)
      requires Valid()
      requires a.SetAside? || a.RecordEnded? || a.WriteNeverSent?
      modifies this
      ensures Valid() && world == Apply(old(world), a) && acts == old(acts) + [a]
    {
      match a {
        case SetAside(es) => setAside := setAside + es;
        case RecordEnded(s) => ended := ended + [s];
        case WriteNeverSent(lines) => neverSent := lines;
      }
      world, acts := Apply(world, a), acts + [a];
    }

    /** The relay's memory. */
    method Remember(a: Act)
      requires Valid()
      requires a.NoteSent? || a.Crash?
      modifies this
      ensures Valid() && world == Apply(old(world), a) && acts == old(acts) + [a]
    {
      match a {
        case NoteSent(c) => sent := sent + {c};
        case Crash => sent := {};
      }
      world, acts := Apply(world, a), acts + [a];
    }

    /** The notes on one order of the input awaiting its reply. */
    method Note(a: Act)
      requires Valid()
      requires a.RecordRefusal? || a.RemoveRefusal? || a.ForgetNotHandedOver? || a.RecordNotHandedOver?
      modifies this
      ensures Valid() && world == Apply(old(world), a) && acts == old(acts) + [a]
    {
      match a {
        case RecordRefusal(r) => refusal := Some(r);
        case RemoveRefusal => refusal := None;
        case ForgetNotHandedOver => notHandedOver := None;
        case RecordNotHandedOver(r) => notHandedOver := Some(r);
      }
      world, acts := Apply(world, a), acts + [a];
    }

    /** The input awaiting its reply; calls to the engine and the sender change no file. */
    method Advance(a: Act)
      requires Valid()
      requires !(a.SetMark? || a.Decide? || a.Queue? || a.Strike? || a.SetAside? || a.RecordEnded? || a.WriteNeverSent?
               || a.NoteSent? || a.Crash? || a.RecordRefusal? || a.RemoveRefusal? || a.ForgetNotHandedOver?
                    || a.RecordNotHandedOver?)
      modifies this
      ensures Valid() && world == Apply(old(world), a) && acts == old(acts) + [a]
    {
      match a {
        case Save(x) => waiting := Some(x);
        case RecordRun(x, run) => runOf := Some(RunRecord(x, run));
        case RemoveInput => waiting := None;
        case RemoveMarks => marks := map[];
        case RemoveRun => runOf := None;
        case Ask(_) =>
        case Send(_, _, _) =>
        case StartFreshRun =>
      }
      world, acts := Apply(world, a), acts + [a];
    }

    /** Performs the acts in order, one at a time: a stop is between any two. */
    method PerformAll(list: seq<Act>)
      requires Valid()
      modifies this
      ensures Valid() && world == Exec(old(world), list) && acts == old(acts) + list
    {
      var i := 0;
      while i < |list|
        invariant 0 <= i <= |list| && Valid()
        invariant world == Exec(old(world), list[..i]) && acts == old(acts) + list[..i]
      {
        assert list[..i + 1] == list[..i] + [list[i]];
        ExecConcat(old(world), list[..i], [list[i]]);
        ExecCons(world, list[i], []);
        assert [list[i]] + [] == [list[i]];
        Perform(list[i]);
        i := i + 1;
      }
      assert list[..i] == list;
    }

    predicate Queues(id: InputId)
      reads this
    {
      exists en :: en in outbox && en.id == id
    }

    /** retire_order: queued for the engine, then recorded, then marked never sent. */
    method RetireOrder(c: Cid, id: InputId, x: InputId)
      requires Valid() && !id.Plain?
      modifies this
      ensures Valid()
      ensures acts == old(acts) + RetireActs(old(world), c, id, x)
              && world == Exec(old(world), RetireActs(old(world), c, id, x))
    {
      var todo: seq<Act> := [];
      if !Queues(id) {
        todo := [Queue(RetireEntry(id))];
      }
      todo := todo + [Decide(Decision(c, Retired, Some(x), None, None, true)), SetMark(c, NeverSent)];
      assert todo == RetireActs(world, c, id, x);
      PerformAll(todo);
    }

    /** _record_at_broker: the finding, the mark, then the strike, none of them made twice. */
    method RecordAtBroker(c: Cid, x: InputId)
      requires Valid()
      modifies this
      ensures Valid()
      ensures acts == old(acts) + AtBrokerActs(old(world), c, x)
              && world == Exec(old(world), AtBrokerActs(old(world), c, x))
    {
      ghost var w := world;
      ghost var list := AtBrokerActs(w, c, x);
      var lastOne := LastDecision(decisions, c);
      var marked := MarkOf(marks, c) == Some(AtBroker);
      var owners := marked && lastOne.Some? && lastOne.value.verdict.DecidedSent? && lastOne.value.input == Some(x);
      var found := lastOne.Some? && lastOne.value.verdict.FoundAtBroker? && lastOne.value.input == Some(x);
      var retirements := RetirementsOf(outbox, c);
      var todo: seq<Act> := [];
      if !owners && !found {
        todo := todo + [Decide(Decision(c, FoundAtBroker, Some(x), None, None, true))];
      }
      if !marked {
        todo := todo + [SetMark(c, AtBroker)];
      }
      todo := todo + [Strike(retirements)];
      assert todo == list;
      PerformAll(todo);
    }

    /** _finish_retirement: None when no retirement of c was begun. */
    method FinishOne(c: Cid, x: InputId, atBroker: bool) returns (r: Option<Outcome>)
      requires Valid()
      modifies this
      ensures Valid()
      ensures match FinishRetirement(old(world), c, x, atBroker)
              case None => r.None? && acts == old(acts) && world == old(world)
              case Some(f) => r == Some(f.outcome) && acts == old(acts) + f.acts && world == Exec(old(world), f.acts)
    {
      var own := HasRetired(decisions, c, x);
      var lastOne := LastRetired(decisions, c);
      var unknown := !own && lastOne.Some? && lastOne.value.input.None?;
      var thisInput := unknown && Queues(RetirementFor(c, x));
      var entry := thisInput || Queues(Retirement(c));
      if !own && !unknown && !entry {
        return None;
      }
      if atBroker {
        RecordAtBroker(c, x);
        return Some(Stop(AtTheBroker));
      }
      if unknown && !entry {
        if !lastOne.value.readable {
          return Some(Stop(RecordInvalid));
        }
        RetireOrder(c, RetirementFor(c, x), x);
        return Some(GoOn);
      }
      var todo: seq<Act> := [];
      if (!own && !unknown) || thisInput {
        todo := [Decide(Decision(c, Retired, Some(x), None, None, true))];
      }
      PerformAll(todo + [SetMark(c, NeverSent)]);
      return Some(GoOn);
    }

    /** The hand-over: the mark before the call, the note of its result after it. */
    method HandOver(c: Cid, x: InputId, result: SendResult) returns (outcome: Outcome)
      requires Valid()
      modifies this
      ensures Valid() && outcome == HandOverActs(c, x, result).outcome
      ensures acts == old(acts) + HandOverActs(c, x, result).acts
              && world == Exec(old(world), HandOverActs(c, x, result).acts)
    {
      ghost var w := world;
      ghost var all := HandOverActs(c, x, result).acts;
      Perform(ForgetNotHandedOver);
      Perform(SetMark(c, HandingOver));
      Perform(Send(c, result, x));
      ExecThree(w, ForgetNotHandedOver, SetMark(c, HandingOver), Send(c, result, x));
      var after: seq<Act> := [];
      match result {
        case Returned => after := [SetMark(c, Sent), NoteSent(c)]; outcome := GoOn;
        case NothingHandedOver => after := [RecordNotHandedOver(Refusal(x, c, false))];
            outcome := Stop(HandoverUnconfirmed);
        case Unconfirmed => outcome := Stop(HandoverUnconfirmed);
      }
      ExecConcat(w, [ForgetNotHandedOver, SetMark(c, HandingOver), Send(c, result, x)], after);
      assert all == [ForgetNotHandedOver, SetMark(c, HandingOver), Send(c, result, x)] + after;
      PerformAll(after);
    }

    method Try(e: Engine, c: Cid, x: InputId, env: Env) returns (outcome: Outcome)
      requires Valid()
      modifies this
      ensures Valid() && outcome == TrySend(e, old(world), c, x, env).outcome
      ensures var r := TrySend(e, old(world), c, x, env);
              acts == old(acts) + r.acts && world == Exec(old(world), r.acts)
    {
      match Check(e, x, env, c) {
        case SessionOver => RetireOrder(c, Retirement(c), x); outcome := GoOn;
        case Unsendable => PerformAll([RecordRefusal(Refusal(x, c, true))]); outcome := Stop(NotSendable);
        case Refused => PerformAll([RecordRefusal(Refusal(x, c, false))]); outcome := Stop(NotSendable);
        case Accepted => outcome := HandOver(c, x, env.handOver(c));
      }
    }

    /** One released order of a pass. */
    method Order(e: Engine, mark: Option<Mark>, c: Cid, x: InputId, env: Env) returns (outcome: Outcome)
      requires Valid()
      modifies this
      ensures Valid()
      ensures var r := SettleOrder(e, old(world), mark, c, x, env);
              outcome == r.outcome && acts == old(acts) + r.acts && world == Exec(old(world), r.acts)
    {
      var shown := c in env.broker;
      if c in sent || mark == Some(Sent) {
        return GoOn;
      }
      var lastOne := LastDecision(decisions, c);
      var found := lastOne.Some? && lastOne.value.verdict.FoundAtBroker? && lastOne.value.input == Some(x);
      if mark == Some(AtBroker) || ((mark.None? || mark == Some(NeverSent)) && found) {
        RecordAtBroker(c, x);
        return Stop(AtTheBroker);
      }
      if mark.None? {
        var finished := FinishOne(c, x, shown);
        if finished.Some? {
          return finished.value;
        }
      }
      if mark == Some(NeverSent) {
        if shown {
          RecordAtBroker(c, x);
          return Stop(AtTheBroker);
        }
        return GoOn;
      }
      if shown {
        PerformAll([NoteSent(c)]);
        return GoOn;
      }
      if mark == Some(HandingOver) {
        return Stop(HandoverUnconfirmed);
      }
      if mark.Some? && mark != Some(Resend(env.today)) {
        PerformAll([SetMark(c, HandingOver)]);
        return Stop(ResendExpired);
      }
      outcome := Try(e, c, x, env);
    }

    /** Each released order in turn, under the marks read once as the reply came; then, when none stopped the
        pass, the entry struck off and the input cleared. */
    method Orders(e: Engine, read: map<Cid, Mark>, orders: seq<Cid>, x: InputId, env: Env) returns (outcome: Outcome)
      requires Valid()
      modifies this
      ensures Valid()
      ensures var r := SettleOrders(e, old(world), read, orders, x, env);
              outcome == r.outcome && acts == old(acts) + r.acts && world == Exec(old(world), r.acts)
    {
      ghost var w0 := world;
      ghost var before := acts;
      ghost var done: seq<Act> := [];
      ghost var whole := SettleOrders(e, w0, read, orders, x, env);
      var i := 0;
      assert orders[0..] == orders && before + done == before;
      while i < |orders|
        invariant 0 <= i <= |orders| && Valid()
        invariant acts == before + done && world == Exec(w0, done)
        invariant whole == Append(done, SettleOrders(e, world, read, orders[i..], x, env))
      {
        ghost var r;
        outcome, r := Turn(e, read, orders, i, x, env, w0, before, done, whole);
        done := done + r.acts;
        if outcome.Stop? {
          return;
        }
        i := i + 1;
      }
      assert orders[i..] == [];
      outcome := Close(e, read, orders[i..], x, env, w0, before, done, whole);
    }

    /** With every order settled: the entry struck off, then the input cleared. */
    method Close(e: Engine, read: map<Cid, Mark>, orders: seq<Cid>, x: InputId, env: Env,
                 ghost w0: World, ghost before: seq<Act>, ghost done: seq<Act>, ghost whole: Result)
      returns (outcome: Outcome)
      requires Valid() && orders == [] && world == Exec(w0, done) && acts == before + done
      requires whole == Append(done, SettleOrders(e, world, read, orders, x, env))
      modifies this
      ensures Valid() && outcome == whole.outcome && world == Exec(w0, whole.acts) && acts == before + whole.acts
    {
      ghost var last := [Strike({x})] + ClearActs;
      ExecConcat(w0, done, last);
      PerformAll([Strike({x})] + ClearActs);
      outcome := GoOn;
    }

    /** One turn of that loop. */
    method Turn(e: Engine, read: map<Cid, Mark>, orders: seq<Cid>, i: nat, x: InputId, env: Env,
                ghost w0: World, ghost before: seq<Act>, ghost done: seq<Act>, ghost whole: Result)
      returns (outcome: Outcome, ghost r: Result)
      requires Valid() && i < |orders| && world == Exec(w0, done) && acts == before + done
      requires whole == Append(done, SettleOrders(e, world, read, orders[i..], x, env))
      modifies this
      ensures Valid() && acts == before + (done + r.acts) && world == Exec(w0, done + r.acts)
      ensures outcome.Stop? ==> whole == Result(done + r.acts, outcome)
      ensures outcome.GoOn? ==> whole == Append(done + r.acts, SettleOrders(e, world, read, orders[i + 1..], x, env))
    {
      ghost var w := world;
      r := TurnResult(e, w, read, orders, i, x, env, w0, before, done, whole);
      outcome := Order(e, MarkOf(read, orders[i]), orders[i], x, env);
    }

    /** _settle: the input saved, the engine asked, every released order settled. */
    method Settle(e: Engine, x: InputId, env: Env) returns (outcome: Outcome)
      requires e.OneRelease() && Safe(e) && Allowed(e, world, Save(x))
      requires runOf == Some(RunRecord(x, world.run)) && x !in RunEndedIds(world)
      modifies this
      ensures Safe(e) && Bounded(e, world)
      ensures outcome.GoOn? ==> forall c :: c in e.Released(x) ==> AccountedFor(old(world), c, x, env, world)
      ensures var r := Pass(e, old(world), x, env);
              outcome == r.outcome && acts == old(acts) + r.acts && world == Exec(old(world), r.acts)
    {
      ghost var w, before := world, acts;
      outcome := Exchange(e, x, env);
      HeldNow(e, first, before);
      PassLegal(e, w, x, env);
      HoldsOn(e, first, before, Pass(e, w, x, env).acts);
      if outcome.GoOn? { PassAccounts(e, w, x, env); }
    }

    method Exchange(e: Engine, x: InputId, env: Env) returns (outcome: Outcome)
      requires Valid()
      modifies this
      ensures Valid()
      ensures var r := Pass(e, old(world), x, env);
              outcome == r.outcome && acts == old(acts) + r.acts && world == Exec(old(world), r.acts)
    {
      if env.reply.NotReached? {
        PerformAll([Save(x)]);
        return Stop(NoReply);
      }
      ghost var w := world;
      ghost var before := acts;
      PerformAll([Save(x), Ask(x)]);
      if env.reply.CommittedOnly? {
        return Stop(NoReply);
      }
      outcome := ActOn(e, x, env, w, before);
    }

    /** Acts on the reply in hand. */
    method ActOn(e: Engine, x: InputId, env: Env, ghost w: World, ghost before: seq<Act>) returns (outcome: Outcome)
      requires Valid() && env.reply.Replied? && world == Exec(w, [Save(x), Ask(x)])
               && acts == before + [Save(x), Ask(x)]
      modifies this
      ensures Valid()
      ensures var r := Pass(e, w, x, env);
              outcome == r.outcome && acts == before + r.acts && world == Exec(w, r.acts)
    {
      PassReplied(e, w, world, x, env, before);
      outcome := Orders(e, marks, e.Released(x), x, env);
    }

    /** One turn of the loop's drain, given the running engine's run and what it has committed: the input
        awaiting its reply first, and otherwise the entry at i. */
    method DrainOnce(e: Engine, i: nat, env: Env, run: Run, committed: set<InputId>) returns (outcome: Outcome)
      requires e.OneRelease() && Safe(e) && run == world.run && committed == world.committed
      modifies this
      ensures Safe(e) && Bounded(e, world)
      ensures outcome.GoOn? && old(waiting).Some? ==>
                forall c :: c in e.Released(old(waiting).value) ==>
                  AccountedFor(old(world), c, old(waiting).value, env, world)
      ensures var r := Drain(e, old(world), i, env);
              outcome == r.outcome && acts == old(acts) + r.acts && world == Exec(old(world), r.acts)
    {
      ghost var w, before := world, acts;
      HeldNow(e, first, before);
      assert before + [] == before;
      if waiting.Some? {
        if waiting.value !in committed && runOf != Some(RunRecord(waiting.value, run)) {
          return Stop(NoReply);
        }
        outcome := Settle(e, waiting.value, env);
        return;
      }
      if i >= |outbox| {
        return GoOn;
      }
      outcome := TakeAt(e, i, env, run, committed);
    }

    /** The entry at i, with no input awaiting its reply. */
    method TakeAt(e: Engine, i: nat, env: Env, run: Run, committed: set<InputId>) returns (outcome: Outcome)
      requires e.OneRelease() && Safe(e) && run == world.run && committed == world.committed
      requires waiting.None? && i < |outbox|
      modifies this
      ensures Safe(e) && Bounded(e, world)
      ensures var r := Drain(e, old(world), i, env);
              outcome == r.outcome && acts == old(acts) + r.acts && world == Exec(old(world), r.acts)
    {
      DrainTakes(e, world, i, env);
      var x := outbox[i].id;
      var named := set s, y | s in ended && y in {s.input} + Ids(s.outbox) :: y;
      assert named == RunEndedIds(world);
      if x in named || x in committed {
        StrikeOff(e, x);
        return GoOn;
      }
      outcome := TakeEntry(e, x, env, run);
    }

    /** An entry settled with an ended run or committed already. */
    method StrikeOff(e: Engine, x: InputId)
      requires e.OneRelease() && Safe(e) && waiting.None? && exists i :: 0 <= i < |outbox| && outbox[i].id == x
      modifies this
      ensures Safe(e) && Bounded(e, world) && acts == old(acts) + [Strike({x})]
              && world == Exec(old(world), [Strike({x})])
    {
      EntryHolds(e, first, acts, x);
      PerformAll([Strike({x})]);
    }

    /** Any other entry: exchanged under the running run, which is recorded before it. */
    method TakeEntry(e: Engine, x: InputId, env: Env, run: Run) returns (outcome: Outcome)
      requires e.OneRelease() && Safe(e) && run == world.run && x !in RunEndedIds(world)
      requires waiting.None? && exists i :: 0 <= i < |outbox| && outbox[i].id == x
      modifies this
      ensures Safe(e) && Bounded(e, world)
      ensures var r := TakeEntryActs(e, old(world), x, env);
              outcome == r.outcome && acts == old(acts) + r.acts && world == Exec(old(world), r.acts)
    {
      EntryHolds(e, first, acts, x);
      EntryTaken(e, world, x, env, acts);
      PerformAll([RecordRun(x, run)]);
      outcome := Settle(e, x, env);
    }

    /** A producer's input, under an ID never used before. */
    method Produce(e: Engine, en: Entry)
      requires e.OneRelease() && Safe(e) && en.id.Plain? && en.id !in world.queued
      modifies this
      ensures Safe(e) && acts == old(acts) + [Queue(en)] && world == Exec(old(world), [Queue(en)])
    {
      HeldNow(e, first, acts);
      LegalOne(e, world, Queue(en));
      HoldsOn(e, first, acts, [Queue(en)]);
      PerformAll([Queue(en)]);
    }

    /** A start after a stop, of the adapter alone or with the engine in a fresh run. */
    method Restart(e: Engine, freshRun: bool)
      requires e.OneRelease() && Safe(e)
      modifies this
      ensures Safe(e) && sent == {}
      ensures acts == old(acts) + RestartActs(freshRun) && world == Exec(old(world), RestartActs(freshRun))
    {
      RestartHolds(e, first, acts, freshRun);
      PerformAll(RestartActs(freshRun));
    }

    /** resolve: false when refused, and then nothing is changed. */
    method OwnerResolves(e: Engine, c: Cid, v: Verdict, today: Day) returns (accepted: bool)
      requires e.OneRelease() && Safe(e) && sent == {}
      modifies this
      ensures Safe(e) && Bounded(e, world)
      ensures match Resolve(e, old(world), c, v, today)
              case None => !accepted && acts == old(acts) && world == old(world)
              case Some(list) => accepted && acts == old(acts) + list && world == Exec(old(world), list)
      ensures accepted <==> HandoverOwner.Accepts(e, old(world), c, v, today)
      ensures accepted ==> HandoverOwner.Settles(old(world), c, v, today, world)
    {
      ghost var w, before := world, acts;
      accepted := PerformResolve(e, c, v, today);
      HeldNow(e, first, before);
      ResolveIs(e, w, c, v, today);
      if accepted {
        ResolveLegal(e, w, c, v, today);
        HoldsOn(e, first, before, Resolve(e, w, c, v, today).value);
      }
    }

    method PerformResolve(e: Engine, c: Cid, v: Verdict, today: Day) returns (accepted: bool)
      requires Valid()
      modifies this
      ensures Valid()
      ensures match Resolve(e, old(world), c, v, today)
              case None => !accepted && acts == old(acts) && world == old(world)
              case Some(list) => accepted && acts == old(acts) + list && world == Exec(old(world), list)
    {
      var d := Decision(c, v, waiting, None, None, true);
      var mark := MarkOf(marks, c);
      var todo: seq<Act> := [];
      match v {
        case NotHandedOver =>
          if waiting.None? || mark != Some(HandingOver) || notHandedOver.None?
              || notHandedOver.value.input != waiting.value
             || notHandedOver.value.cid != c { return false; }
          todo := [Decide(d), SetMark(c, NeverSent)];
        case DecidedNeverSent =>
          if waiting.None? || mark.Some? || refusal.None? || refusal.value.input != waiting.value
              || refusal.value.cid != c
             || refusal.value.unsendable { return false; }
          todo := [Decide(d), SetMark(c, NeverSent)];
        case DecidedSent =>
          if mark == Some(NeverSent) || mark == Some(AtBroker) {
            if mark == Some(NeverSent) { todo := [SetMark(c, AtBroker)]; }
            var lastOne := LastDecision(decisions, c);
            if !(lastOne.Some? && lastOne.value.verdict.DecidedSent? && lastOne.value.input == waiting) {
              todo := todo + [Decide(d)];
            }
            todo := todo + [Strike(RetirementsOf(outbox, c)), SetMark(c, Sent)];
          } else if mark == Some(HandingOver) || (mark.Some? && mark.value.Resend?) {
            todo := [Decide(d), SetMark(c, Sent)];
          } else {
            return false;
          }
        case DecidedResend =>
          if mark != Some(HandingOver) || waiting.None? || e.Session(waiting.value) != Some(today) { return false; }
          todo := [Decide(d), SetMark(c, Resend(today))];
        case Retired => return false;
        case FoundAtBroker => return false;
      }
      assert todo == Resolve(e, world, c, v, today).value;
      PerformAll(todo);
      accepted := true;
    }

    /** retire: the owner's retirement of the order the relay stopped at. */
    method OwnerRetires(e: Engine, c: Cid) returns (accepted: bool)
      requires e.OneRelease() && Safe(e) && sent == {}
      modifies this
      ensures Safe(e) && Bounded(e, world)
      ensures match OwnerRetire(old(world), c)
              case None => !accepted && acts == old(acts) && world == old(world)
              case Some(list) => accepted && acts == old(acts) + list && world == Exec(old(world), list)
      ensures accepted <==> HandoverOwner.MayRetire(old(world), c)
      ensures accepted ==> HandoverOwner.Retires(old(world), c, world)
    {
      ghost var w, before := world, acts;
      accepted := PerformRetire(c);
      HeldNow(e, first, before);
      HandoverOwner.RetireResult(w, c);
      if accepted {
        OwnerRetireLegal(e, w, c);
        HoldsOn(e, first, before, OwnerRetire(w, c).value);
      }
    }

    method PerformRetire(c: Cid) returns (accepted: bool)
      requires Valid()
      modifies this
      ensures Valid()
      ensures match OwnerRetire(old(world), c)
              case None => !accepted && acts == old(acts) && world == old(world)
              case Some(list) => accepted && acts == old(acts) + list && world == Exec(old(world), list)
    {
      if waiting.None? || c in marks || refusal.None? || refusal.value.input != waiting.value || refusal.value.cid != c
         || !refusal.value.unsendable {
        return false;
      }
      RetireOrder(c, Retirement(c), waiting.value);
      accepted := true;
    }

    /** settle_ended_run: the orders judged from the records as they stand, then the decisions, the file, the
        marks and the strike. */
    method OwnerSettlesEndedRun(e: Engine, log: EndedLog) returns (accepted: bool)
      requires e.OneRelease() && Safe(e) && sent == {}
      requires LogSound(e, log)
      modifies this
      ensures Safe(e) && Bounded(e, world)
      ensures match SettleEndedRun(old(world), log)
              case None => !accepted && acts == old(acts) && world == old(world)
              case Some(list) => accepted && acts == old(acts) + list && world == Exec(old(world), list)
      ensures accepted <==> EndedRunSettled.OfTheRun(old(world), log)
      ensures accepted ==> EndedRunSettled.LeavesSettled(old(world), log, world)
    {
      ghost var w, before := world, acts;
      accepted := PerformSettlement(log);
      HeldNow(e, first, before);
      SettlementIs(e, w, log);
      if accepted {
        SettleEndedRunLegal(e, w, log);
        HoldsOn(e, first, before, SettleEndedRun(w, log).value);
      }
    }

    method PerformSettlement(log: EndedLog) returns (accepted: bool)
      requires Valid()
      modifies this
      ensures Valid()
      ensures match SettleEndedRun(old(world), log)
              case None => !accepted && acts == old(acts) && world == old(world)
              case Some(list) => accepted && acts == old(acts) + list && world == Exec(old(world), list)
    {
      if (if waiting.Some? then runOf != Some(RunRecord(waiting.value, log.run))
          else LastRun(decisions) != Some(log.run)) {
        return false;
      }
      ghost var w := world;
      var still: seq<Cid> := [];
      var lines: seq<Settlement> := [];
      var reported := log.reported + set en | en in outbox && en.kind.Report? && en.cid.Some? :: en.cid.value;
      var i := |log.releases|;
      while i > 0
        invariant 0 <= i <= |log.releases|
        invariant still == Still(w, log, log.releases[i..]) && lines == NewLines(w, log, log.releases[i..])
      {
        i := i - 1;
        var r := log.releases[i];
        assert log.releases[i..][0] == r && log.releases[i..][1..] == log.releases[i + 1..];
        var j := Judge(r.cid, r.input, log.run, MarkOf(marks, r.cid), LastDecision(decisions, r.cid),
                       waiting == Some(r.input),
                       refusal, r.cid in reported, r.cid in log.retired, Times(log.releases, r.cid));
        assert j == Evidence(w, log, r.input, r.cid);
        if j.Shown? {
          still := Insert(r.cid, still);
          if !HasLine(neverSent, log.name, r.cid) {
            lines := [Settlement(log.name, log.run, r.input, j.evidence, r.cid)] + lines;
          }
        }
      }
      assert log.releases[0..] == log.releases;
      var todo := Decisions(log, still);
      if lines != [] || exists l :: l in neverSent && l.log == log.name && l.cid !in still {
        todo := todo + [WriteNeverSent(KeptLines(neverSent, log.name, still) + lines)];
      }
      var marking := Markings(still);
      todo := todo + marking + [Strike(RetirementsOfAll(outbox, still))];
      assert todo == SettleEndedRun(w, log).value;
      PerformAll(todo);
      accepted := true;
    }

    method Decisions(log: EndedLog, still: seq<Cid>) returns (todo: seq<Act>)
      requires Valid()
      ensures todo == DecideActs(world, log, still)
    {
      todo := [];
      var i := |still|;
      while i > 0
        invariant 0 <= i <= |still| && todo == DecideActs(world, log, still[i..])
      {
        i := i - 1;
        var c := still[i];
        assert still[i..][0] == c && still[i..][1..] == still[i + 1..];
        var lastOne := LastDecision(decisions, c);
        if !(lastOne.Some? && lastOne.value.verdict.DecidedNeverSent? && lastOne.value.log == Some(log.name)) {
          var line := LineInput(neverSent, log.name, c);
          var x := if line.Some? then line.value else ReleaseInput(log.releases, c);
          todo := [Decide(Decision(c, DecidedNeverSent, Some(x), Some(log.run), Some(log.name), true))] + todo;
        }
      }
      assert still[0..] == still;
    }

    method Markings(still: seq<Cid>) returns (todo: seq<Act>)
      requires Valid()
      ensures todo == MarkActs(world, still)
    {
      todo := [];
      var i := |still|;
      while i > 0
        invariant 0 <= i <= |still| && todo == MarkActs(world, still[i..])
      {
        i := i - 1;
        assert still[i..][0] == still[i] && still[i..][1..] == still[i + 1..];
        if still[i] !in marks {
          todo := [SetMark(still[i], NeverSent)] + todo;
        }
      }
      assert still[0..] == still;
    }

    /** resolve --run-ended: the malformed set aside, the settlement recorded, all of it struck, the input cleared. */
    method OwnerEndsRun(e: Engine, chain: Chain, run: Run, committed: set<InputId>, aside: bool)
      returns (accepted: bool)
      requires e.OneRelease() && Safe(e) && sent == {}
      requires run == world.run && committed == world.committed
      modifies this
      ensures Safe(e) && Bounded(e, world)
      ensures match ResolveRunEnded(old(world), chain, aside)
              case None => !accepted && acts == old(acts) && world == old(world)
              case Some(list) => accepted && acts == old(acts) + list && world == Exec(old(world), list)
      ensures accepted <==> EndedRunEnded.MayEnd(old(world), chain, aside)
      ensures accepted ==> EndedRunEnded.Ends(old(world), chain, old(world).waiting.value, world)
    {
      ghost var w, before := world, acts;
      accepted := PerformEnding(chain, run, committed, aside);
      HeldNow(e, first, before);
      EndedRunEnded.EndedExactly(w, chain, aside);
      if accepted {
        ResolveRunEndedLegal(e, w, chain, aside);
        HoldsOn(e, first, before, ResolveRunEnded(w, chain, aside).value);
      }
    }

    method PerformEnding(chain: Chain, run: Run, committed: set<InputId>, aside: bool) returns (accepted: bool)
      requires Valid() && run == world.run && committed == world.committed
      modifies this
      ensures Valid()
      ensures match ResolveRunEnded(old(world), chain, aside)
              case None => !accepted && acts == old(acts) && world == old(world)
              case Some(list) => accepted && acts == old(acts) + list && world == Exec(old(world), list)
    {
      ghost var w := world;
      if waiting.None? || waiting.value in committed || runOf.None? || runOf.value.input != waiting.value
         || runOf.value.run == run {
        return false;
      }
      var x := waiting.value;
      var named := set s, y | s in ended && y in {s.input} + Ids(s.outbox) :: y;
      var found := (set c | c in marks && marks[c].AtBroker?)
                   + set d | d in decisions && d.verdict.FoundAtBroker? && d.input == Some(x) :: d.cid;
      var own := chain.current - found;
      var malformed := MalformedOf(outbox);
      assert named == RunEndedIds(w) && found == FoundFor(w, x);
      if malformed != [] && !aside {
        return false;
      }
      if exists en :: en in malformed && OrdersRetired(en) * own != {} {
        return false;
      }
      var behind := BehindOf(outbox, x, named, chain.earlier, own);
      EndInput(chain, x, named, behind, malformed);
      accepted := true;
    }

    method EndInput(chain: Chain, x: InputId, named: set<InputId>, behind: seq<Entry>, malformed: seq<Entry>)
      requires Valid() && runOf.Some? && named == RunEndedIds(world)
      modifies this
      ensures Valid()
      ensures var list := EndingActs(old(world), chain, x, behind, malformed);
              acts == old(acts) + list && world == Exec(old(world), list)
    {
      var added := Excluding(malformed, setAside);
      var unnamed := Excluding(malformed, NamedAside(ended, x));
      var unsent := if chain.reply.Some? then Unsent(marks, decisions, x, chain.reply.value) else [];
      var aside: seq<Act> := if added == [] then [] else [SetAside(added)];
      var record: seq<Act> := if x !in named || behind != [] || unnamed != []
        then [RecordEnded(EndedInput(x, runOf.value.run, unsent, behind, unnamed))] else [];
      PerformAll(aside + record + [Strike({x} + Ids(behind) + Ids(malformed))] + ClearActs);
    }
  }

  // ----- The invariant at every act -----

  /** No order is handed over more often than once and once for each resend recorded, and an unmarked order of the
      input awaiting its reply not at all. */
  ghost predicate Bounded(e: Engine, w: World) {
    && (forall c :: w.sends[c] <= 1 + Resends(w.decisions, c))
    && (forall c :: Releases(e, w, c) && c !in w.marks ==> w.sends[c] == 0)
  }

  lemma InvBounds(e: Engine, w: World)
    requires Inv(e, w)
    ensures Bounded(e, w)
  {
    forall c
      ensures w.sends[c] <= 1 + Resends(w.decisions, c) && (Releases(e, w, c) && c !in w.marks ==> w.sends[c] == 0)
    {
      assert OrderInv(e, w, c);
    }
  }

  /** A stop after any of the acts leaves the invariant, and with it the bound on what was handed over. */
  lemma HeldAtEveryCut(e: Engine, w: World, acts: seq<Act>, k: nat)
    requires Held(e, w, acts) && k <= |acts|
    ensures Inv(e, Exec(w, acts[..k])) && Bounded(e, Exec(w, acts[..k]))
  {
    HeldFrom(e, w, acts, k);
    InvBounds(e, Exec(w, acts[..k]));
  }

  lemma HeldNow(e: Engine, w: World, acts: seq<Act>)
    requires Held(e, w, acts)
    ensures Inv(e, Exec(w, acts)) && Bounded(e, Exec(w, acts))
  {
    assert acts[..|acts|] == acts;
    HeldAtEveryCut(e, w, acts, |acts|);
  }

  lemma ResolveIs(e: Engine, w: World, c: Cid, v: Verdict, today: Day)
    requires Inv(e, w)
    ensures Resolve(e, w, c, v, today).Some? <==> HandoverOwner.Accepts(e, w, c, v, today)
    ensures HandoverOwner.Accepts(e, w, c, v, today) ==>
              HandoverOwner.Settles(w, c, v, today, Exec(w, Resolve(e, w, c, v, today).value))
  {
    HandoverOwner.ResolveResult(e, w, c, v, today);
  }

  lemma SettlementIs(e: Engine, w: World, log: EndedLog)
    requires e.OneRelease() && LogSound(e, log) && Inv(e, w)
    ensures SettleEndedRun(w, log).Some? <==> EndedRunSettled.OfTheRun(w, log)
    ensures EndedRunSettled.OfTheRun(w, log) ==>
              EndedRunSettled.LeavesSettled(w, log, Exec(w, SettleEndedRun(w, log).value))
  {
    EndedRunConverges.ReachableIsConsistent(e, w, log);
    EndedRunSettled.SettledExactly(e, w, log);
  }

  /** Acts that follow the discipline keep the invariant at each of them. */
  lemma HoldsOn(e: Engine, w: World, before: seq<Act>, more: seq<Act>)
    requires e.OneRelease() && Held(e, w, before) && Legal(e, Exec(w, before), more) && MarksBacked(Exec(w, before))
    ensures Held(e, w, before + more) && Exec(w, before + more) == Exec(Exec(w, before), more)
    ensures Bounded(e, Exec(w, before + more)) && MarksBacked(Exec(w, before + more))
  {
    LegalBacks(e, Exec(w, before), more, |more|);
    assert more[..|more|] == more;
    HeldNow(e, w, before);
    LegalHolds(e, Exec(w, before), more);
    HeldConcat(e, w, before, more);
    ExecConcat(w, before, more);
    HeldNow(e, w, before + more);
  }

  lemma {:induction false} HeldConcat(e: Engine, w: World, before: seq<Act>, more: seq<Act>)
    requires Held(e, w, before) && Held(e, Exec(w, before), more)
    ensures Held(e, w, before + more)
    decreases |before|
  {
    if before != [] {
      ConcatTail(before, more);
      HeldConcat(e, Apply(w, before[0]), before[1..], more);
    } else {
      assert before + more == more;
    }
  }

  lemma ConcatTail(before: seq<Act>, more: seq<Act>)
    requires before != []
    ensures (before + more)[0] == before[0] && (before + more)[1..] == before[1..] + more
  {
  }

  lemma EntryHolds(e: Engine, first: World, before: seq<Act>, x: InputId)
    requires e.OneRelease() && Held(e, first, before) && MarksBacked(Exec(first, before))
    requires var w := Exec(first, before); w.waiting.None? && exists i :: 0 <= i < |w.outbox| && w.outbox[i].id == x
    ensures var w, one := Exec(first, before), RecordRun(x, Exec(first, before).run);
            && Held(e, first, before + [Strike({x})]) && Exec(first, before + [Strike({x})]) == Exec(w, [Strike({x})])
            && Bounded(e, Exec(w, [Strike({x})]))
            && MarksBacked(Exec(w, [Strike({x})])) && MarksBacked(Exec(w, [one]))
            && Held(e, first, before + [one]) && Exec(first, before + [one]) == Exec(w, [one])
            && RunEndedIds(Exec(w, [one])) == RunEndedIds(w)
            && (x !in RunEndedIds(w) ==> Allowed(e, Exec(w, [one]), Save(x)))
  {
    var w, one := Exec(first, before), RecordRun(x, Exec(first, before).run);
    HeldNow(e, first, before);
    EntryLegal(e, w, x);
    HoldsOn(e, first, before, [Strike({x})]);
    HoldsOn(e, first, before, [one]);
    assert Exec(w, [one]) == Apply(w, one);
  }

  lemma EntryLegal(e: Engine, w: World, x: InputId)
    requires Inv(e, w) && w.waiting.None? && exists i :: 0 <= i < |w.outbox| && w.outbox[i].id == x
    ensures Legal(e, w, [Strike({x})]) && Legal(e, w, [RecordRun(x, w.run)])
    ensures var w' := Apply(w, RecordRun(x, w.run));
            RunEndedIds(w') == RunEndedIds(w) && (x !in RunEndedIds(w) ==> Allowed(e, w', Save(x)))
  {
    var i :| 0 <= i < |w.outbox| && w.outbox[i].id == x;
    assert w.outbox[i] in w.outbox;
    LegalOne(e, w, Strike({x}));
    LegalOne(e, w, RecordRun(x, w.run));
    assert RunEndedIds(Apply(w, RecordRun(x, w.run))) == RunEndedIds(w);
  }

  function TakeEntryActs(e: Engine, w: World, x: InputId, env: Env): Result {
    Append([RecordRun(x, w.run)], Pass(e, Apply(w, RecordRun(x, w.run)), x, env))
  }

  lemma DrainTakes(e: Engine, w: World, i: nat, env: Env)
    requires w.waiting.None? && i < |w.outbox|
    ensures var x := w.outbox[i].id;
            Drain(e, w, i, env) == (if x in RunEndedIds(w) || x in w.committed then Result([Strike({x})], GoOn)
                                    else TakeEntryActs(e, w, x, env))
  {
  }

  lemma Prefixed(w: World, one: Act, r: Result, before: seq<Act>)
    ensures Exec(w, [one]) == Apply(w, one)
    ensures Exec(w, Append([one], r).acts) == Exec(Apply(w, one), r.acts) && Append([one], r).outcome == r.outcome
    ensures before + Append([one], r).acts == before + [one] + r.acts
  {
    ExecConcat(w, [one], r.acts);
  }

  lemma EntryTaken(e: Engine, w: World, x: InputId, env: Env, before: seq<Act>)
    ensures var w', r := Exec(w, [RecordRun(x, w.run)]), TakeEntryActs(e, w, x, env);
            && w' == Apply(w, RecordRun(x, w.run))
            && r.outcome == Pass(e, w', x, env).outcome && Exec(w, r.acts) == Exec(w', Pass(e, w', x, env).acts)
            && before + r.acts == before + [RecordRun(x, w.run)] + Pass(e, w', x, env).acts
  {
    var one := RecordRun(x, w.run);
    Prefixed(w, one, Pass(e, Apply(w, one), x, env), before);
  }

  function RestartActs(freshRun: bool): seq<Act> {
    if freshRun then [StartFreshRun, Crash] else [Crash]
  }

  lemma RestartHolds(e: Engine, first: World, before: seq<Act>, freshRun: bool)
    requires e.OneRelease() && Held(e, first, before) && MarksBacked(Exec(first, before))
    ensures var w, list := Exec(first, before), RestartActs(freshRun);
            MarksBacked(Exec(w, list)) && Held(e, first, before + list) && Exec(first, before + list) == Exec(w, list)
                && Exec(w, list).sent == {}
  {
    var w, list := Exec(first, before), RestartActs(freshRun);
    HeldNow(e, first, before);
    FreshRunLegal(e, w);
    LegalOne(e, w, Crash);
    HoldsOn(e, first, before, list);
    ExecTwo(w, StartFreshRun, Crash);
    ExecCons(w, Crash, []);
    assert [Crash] + [] == [Crash];
  }

  lemma PassReplied(e: Engine, w: World, w': World, x: InputId, env: Env, before: seq<Act>)
    requires env.reply.Replied? && w' == Exec(w, [Save(x), Ask(x)])
    ensures var r, p := SettleOrders(e, w', w'.marks, e.Released(x), x, env), Pass(e, w, x, env);
            && p.outcome == r.outcome && Exec(w, p.acts) == Exec(w', r.acts)
            && before + p.acts == before + [Save(x), Ask(x)] + r.acts
  {
    var r := SettleOrders(e, w', w'.marks, e.Released(x), x, env);
    ExecConcat(w, [Save(x), Ask(x)], r.acts);
  }

  lemma TurnResult(e: Engine, w: World, read: map<Cid, Mark>, orders: seq<Cid>, i: nat, x: InputId, env: Env,
                   w0: World, before: seq<Act>, done: seq<Act>, whole: Result)
    returns (r: Result)
    requires i < |orders| && w == Exec(w0, done) && whole == Append(done, SettleOrders(e, w, read, orders[i..], x, env))
    ensures r == SettleOrder(e, w, MarkOf(read, orders[i]), orders[i], x, env)
    ensures Exec(w, r.acts) == Exec(w0, done + r.acts) && before + done + r.acts == before + (done + r.acts)
    ensures r.outcome.Stop? ==> whole == Result(done + r.acts, r.outcome)
    ensures r.outcome.GoOn? ==>
              whole == Append(done + r.acts, SettleOrders(e, Exec(w, r.acts), read, orders[i + 1..], x, env))
  {
    r := SettleOrder(e, w, MarkOf(read, orders[i]), orders[i], x, env);
    Unroll(e, w, read, orders, i, x, env, done, r);
    Joined(w0, before, done, r.acts);
  }

  lemma Joined(w: World, before: seq<Act>, done: seq<Act>, more: seq<Act>)
    ensures Exec(Exec(w, done), more) == Exec(w, done + more) && before + done + more == before + (done + more)
  {
    ExecConcat(w, done, more);
  }

  lemma Unroll(e: Engine, w: World, read: map<Cid, Mark>, orders: seq<Cid>, i: nat, x: InputId, env: Env,
               done: seq<Act>, r: Result)
    requires i < |orders| && r == SettleOrder(e, w, MarkOf(read, orders[i]), orders[i], x, env)
    ensures var whole := Append(done, SettleOrders(e, w, read, orders[i..], x, env));
            && (r.outcome.Stop? ==> whole == Result(done + r.acts, r.outcome))
            && (r.outcome.GoOn? ==> whole == Append(done + r.acts,
                   SettleOrders(e, Exec(w, r.acts), read, orders[i + 1..], x, env)))
  {
    assert orders[i..][0] == orders[i] && orders[i..][1..] == orders[i + 1..];
    if r.outcome.GoOn? {
      var rest := SettleOrders(e, Exec(w, r.acts), read, orders[i + 1..], x, env);
      assert done + (r.acts + rest.acts) == done + r.acts + rest.acts;
    }
  }

  lemma ExecThree(w: World, a: Act, b: Act, c: Act)
    ensures Exec(w, [a, b, c]) == Apply(Apply(Apply(w, a), b), c)
  {
    ExecCons(w, a, [b, c]);
    assert [a] + [b, c] == [a, b, c];
    ExecTwo(Apply(w, a), b, c);
  }
}
