/** What a turn of the drain takes from the outbox, and what it leaves of the world (adapter/ibkr/loop.py:405-411,
    1830-1897). */
module DeliveryTurns {
  import opened Wrappers
  import opened Delivery
  import opened DeliveryRuns
  import opened DeliveryKeeps
  import opened DeliveryLegal
  import opened DeliveryTheorems
  import opened DeliveryResults

  // ----- The turns of the loop, and the parts of a step -----

  /** The writes of one turn of _drain's loop, and whether the loop goes on after it. */
  function TurnActs(w: World, due: bool, turn: Turn): seq<Act>
    requires w.outbox != []
  {
    var e := Next(w.outbox);
    if Strikes(w, e) then [Strike({e.id})]
    else if e.run.Some? && e.run.value != w.running then [DropQueued(e.run.value), Strike(IdsOf(w.outbox, e.run.value))]
    else if e.run.Some? && (due || turn.awaitsCommission) then []
    else [Ask(e.id)] + ExchangeActs(Apply(w, Ask(e.id)), e.id, turn.answer)
  }

  predicate GoesOn(w: World, due: bool, turn: Turn)
    requires w.outbox != []
  {
    var e := Next(w.outbox);
    Strikes(w, e) || (e.run.Some? && e.run.value != w.running)
        || (!(e.run.Some? && (due || turn.awaitsCommission)) && turn.answer.Answered?)
  }

  lemma DrainUnfolds(w: World, due: bool, turns: seq<Turn>)
    requires turns != [] && w.outbox != []
    ensures var taken := TurnActs(w, due, turns[0]);
            if GoesOn(w, due, turns[0]) then
              && DrainActs(w, due, turns) == taken + DrainActs(Exec(w, taken), due, turns[1..])
              && Exec(w, DrainActs(w, due, turns)) == Exec(Exec(w, taken), DrainActs(Exec(w, taken), due, turns[1..]))
            else DrainActs(w, due, turns) == taken
  {
    var e := Next(w.outbox);
    var taken := TurnActs(w, due, turns[0]);
    ExecOne(w, Strike({e.id}));
    if !Strikes(w, e) && !(e.run.Some? && e.run.value != w.running) {
      ExecOne(w, Ask(e.id));
      ExecConcat(w, [Ask(e.id)], ExchangeActs(Apply(w, Ask(e.id)), e.id, turns[0].answer));
    }
    ExecConcat(w, taken, DrainActs(Exec(w, taken), due, turns[1..]));
    assert taken + [] == taken;
  }

  /** A delivery asks the engine for nothing. */
  lemma DeliverKeepsWaiting(w: World, d: Delivering)
    ensures var w' := Exec(w, DeliverPlan(w, d).acts); w'.waiting == w.waiting && w'.running == w.running
  {
    if LastQueuing(w) {
      var p := FinishPlan(w, d);
      FinishKeepsWaiting(w, d);
      var w' := Exec(w, p.acts);
      BeginKeepsWaiting(w', d);
      ExecConcat(w, p.acts, BeginPlan(w', d).acts);
    } else {
      BeginKeepsWaiting(w, d);
    }
  }

  lemma FinishKeepsWaiting(w: World, d: Delivering)
    requires LastQueuing(w)
    ensures var w' := Exec(w, FinishPlan(w, d).acts); w'.waiting == w.waiting && w'.running == w.running
  {
    ExecOne(w, MarkQueued);
    ExecOne(w, MarkDropped);
    ExecTwo(w, Extend(d.finishEntries), MarkQueued);
  }

  lemma BeginKeepsWaiting(w: World, d: Delivering)
    ensures var w' := Exec(w, BeginPlan(w, d).acts); w'.waiting == w.waiting && w'.running == w.running
  {
    var p := BeginPlan(w, d);
    if p.acts != [] {
      var begin := p.acts[0];
      ExecOne(w, begin);
      ExecTwo(Apply(w, begin), Extend(d.entries), MarkQueued);
      ExecConcat(w, [begin], [Extend(d.entries), MarkQueued]);
      assert p.acts == [begin] || p.acts == [begin] + [Extend(d.entries), MarkQueued];
    }
  }

  lemma DrainAllIs(w: World, due: bool, answer: Answer, turns: seq<Turn>)
    requires w.waiting.Some? ==> w.waiting.value.run == w.running
    ensures w.waiting.None? ==> DrainAll(w, due, answer, turns) == DrainActs(w, due, turns)
    ensures w.waiting.Some? ==>
              var acts := ExchangeActs(w, w.waiting.value.id, answer);
              if answer.Answered? then
                && DrainAll(w, due, answer, turns) == acts + DrainActs(Exec(w, acts), due, turns)
                && Exec(w, DrainAll(w, due, answer, turns)) == Exec(Exec(w, acts), DrainActs(Exec(w, acts), due, turns))
              else DrainAll(w, due, answer, turns) == acts
  {
    var acts := WaitingActs(w, answer);
    if w.waiting.None? {
      assert acts + DrainActs(w, due, turns) == DrainActs(w, due, turns);
    } else if answer.Answered? {
      ExecConcat(w, acts, DrainActs(Exec(w, acts), due, turns));
    }
  }

  lemma StepIs(w: World, due: bool, d: Delivering, answer: Answer, turns: seq<Turn>)
    requires MayStep(w)
    ensures var all, p := Acts(w, StepAdapter(due, d, answer, turns)), DeliverPlan(w, d);
            if due then all == DrainAll(w, due, answer, turns)
            else if p.stops then all == p.acts
            else
              var w' := Exec(w, p.acts);
              && all == p.acts + DrainAll(w', due, answer, turns)
              && Exec(w, all) == Exec(w', DrainAll(w', due, answer, turns))
              && w'.waiting == w.waiting && w'.running == w.running
  {
    var p := DeliverPlan(w, d);
    DeliverKeepsWaiting(w, d);
    ExecConcat(w, p.acts, DrainAll(Exec(w, p.acts), due, answer, turns));
  }

  // ----- What a strike leaves -----

  /** The entries of other IDs, in their order. */
  ghost predicate LeavesOthers(es: seq<Entry>, ids: set<Id>, left: seq<Entry>) {
    exists places: seq<int> :: PlacesOf(es, ids, left, places)
  }

  ghost predicate PlacesOf(es: seq<Entry>, ids: set<Id>, left: seq<Entry>, places: seq<int>) {
    && |places| == |left| && (forall i, j :: 0 <= i < j < |places| ==> places[i] < places[j])
    && (forall i :: 0 <= i < |places| ==> 0 <= places[i] < |es| && left[i] == es[places[i]] && left[i].id !in ids)
    && (forall j :: 0 <= j < |es| && es[j].id !in ids ==> j in places)
  }

  lemma {:induction false} StrikeLeaves(es: seq<Entry>, ids: set<Id>)
    ensures LeavesOthers(es, ids, Without(es, ids))
  {
    if es == [] {
      assert PlacesOf(es, ids, [], []);
    } else {
      StrikeLeaves(es[1..], ids);
      var rest := Without(es[1..], ids);
      var places: seq<int> :| PlacesOf(es[1..], ids, rest, places);
      var moved := seq(|places|, i requires 0 <= i < |places| => places[i] + 1);
      var all := if es[0].id in ids then moved else [0] + moved;
      MovedPlaces(es, ids, rest, places, moved);
      if es[0].id in ids {
        assert [] + rest == rest;
        assert PlacesOf(es, ids, rest, moved);
      } else {
        AddedPlace(es, ids, rest, moved);
      }
    }
  }

  lemma MovedPlaces(es: seq<Entry>, ids: set<Id>, rest: seq<Entry>, places: seq<int>, moved: seq<int>)
    requires es != [] && PlacesOf(es[1..], ids, rest, places)
    requires |moved| == |places| && forall i :: 0 <= i < |places| ==> moved[i] == places[i] + 1
    ensures forall i, j :: 0 <= i < j < |moved| ==> moved[i] < moved[j]
    ensures forall i :: 0 <= i < |moved| ==> 1 <= moved[i] < |es| && rest[i] == es[moved[i]] && rest[i].id !in ids
    ensures forall j :: 1 <= j < |es| && es[j].id !in ids ==> j in moved
  {
    var tail := es[1..];
    forall i, j | 0 <= i < j < |moved| ensures moved[i] < moved[j] {
      assert places[i] < places[j];
    }
    forall j | 1 <= j < |es| && es[j].id !in ids ensures j in moved {
      MovedIn(tail, ids, rest, places, moved, j - 1);
    }
    forall i | 0 <= i < |moved| ensures 1 <= moved[i] < |es| && rest[i] == es[moved[i]] && rest[i].id !in ids {
      assert rest[i] == tail[places[i]];
    }
  }

  lemma MovedIn(tail: seq<Entry>, ids: set<Id>, rest: seq<Entry>, places: seq<int>, moved: seq<int>, j: int)
    requires PlacesOf(tail, ids, rest, places) && 0 <= j < |tail| && tail[j].id !in ids
    requires |moved| == |places| && forall i :: 0 <= i < |places| ==> moved[i] == places[i] + 1
    ensures j + 1 in moved
  {
    var i :| 0 <= i < |places| && places[i] == j;
    assert moved[i] == j + 1;
  }

  lemma AddedPlace(es: seq<Entry>, ids: set<Id>, rest: seq<Entry>, moved: seq<int>)
    requires es != [] && es[0].id !in ids && |moved| == |rest|
    requires forall i, j :: 0 <= i < j < |moved| ==> moved[i] < moved[j]
    requires forall i :: 0 <= i < |moved| ==> 1 <= moved[i] < |es| && rest[i] == es[moved[i]] && rest[i].id !in ids
    requires forall j :: 1 <= j < |es| && es[j].id !in ids ==> j in moved
    ensures LeavesOthers(es, ids, [es[0]] + rest)
  {
    var all, left := [0] + moved, [es[0]] + rest;
    forall i | 0 <= i < |all| ensures 0 <= all[i] < |es| && left[i] == es[all[i]] && left[i].id !in ids {
      if i > 0 {
        assert all[i] == moved[i - 1] && left[i] == rest[i - 1];
      }
    }
    forall i, j | 0 <= i < j < |all| ensures all[i] < all[j] {
      assert all[j] == moved[j - 1];
      if i > 0 {
        assert all[i] == moved[i - 1];
      }
    }
    forall j | 0 <= j < |es| && es[j].id !in ids ensures j in all {
      InAll(es, ids, moved, j);
    }
    assert PlacesOf(es, ids, left, all);
  }

  lemma InAll(es: seq<Entry>, ids: set<Id>, moved: seq<int>, j: int)
    requires 0 <= j < |es| && es[j].id !in ids
    requires forall j :: 1 <= j < |es| && es[j].id !in ids ==> j in moved
    ensures j in [0] + moved
  {
    assert ([0] + moved)[0] == 0;
    if j > 0 {
      var i :| 0 <= i < |moved| && moved[i] == j;
      assert ([0] + moved)[i + 1] == j;
    }
  }

  // ----- Which entry a turn takes -----

  /** The oldest; but where that is an envelope, the first report or retirement behind it, if any. */
  ghost predicate TakenNext(es: seq<Entry>, i: int)
    requires es != []
  {
    if es[0].envelope && exists j :: 1 <= j < |es| && es[j].run == None then
      1 <= i < |es| && es[i].run == None && forall j :: 1 <= j < i ==> es[j].run != None
    else i == 0
  }

  lemma {:induction false} FirstOtherIs(es: seq<Entry>)
    requires exists i :: 0 <= i < |es| && es[i].run.None?
    ensures forall j :: 0 <= j < FirstOther(es) ==> es[j].run != None
  {
    if !es[0].run.None? {
      var i :| 0 <= i < |es| && es[i].run.None?;
      assert es[1..][i - 1] == es[i];
      FirstOtherIs(es[1..]);
      forall j | 1 <= j < FirstOther(es) ensures es[j].run != None {
        assert es[1..][j - 1] == es[j];
      }
    }
  }

  /** A world's entries are as the adapter records them, so a leading envelope is a batch's. */
  lemma NextIsTaken(es: seq<Entry>)
    requires es != [] && WellShapedEntry(es[0])
    ensures exists i :: 0 <= i < |es| && TakenNext(es, i) && es[i] == Next(es)
  {
    if es[0].envelope && exists j :: 1 <= j < |es| && es[j].run.None? {
      var j :| 1 <= j < |es| && es[j].run.None?;
      FirstOtherIs(es);
      var i := FirstOther(es);
      assert TakenNext(es, i);
    } else {
      assert TakenNext(es, 0);
    }
  }

  // ----- What a turn leaves -----

  /** Never sent again: settled with an ended run, or, not another run's, committed already. */
  ghost predicate DoneWith(w: World, e: Entry) {
    e.id in w.settled || ((e.run == None || e.run == Some(w.running)) && e.id in Committed(w, w.running))
  }

  ghost predicate OtherRuns(w: World, e: Entry) {
    e.run != None && e.run != Some(w.running)
  }

  ghost predicate Waits(e: Entry, due: bool, turn: Turn) {
    e.run != None && (due || turn.awaitsCommission)
  }

  ghost predicate LastFor(batches: seq<Batch>, run: Run, n: nat) {
    forall m :: n < m < |batches| ==> batches[m].run != run
  }

  /** A run's last batch is dropped if it was queued; no other batch changes. */
  ghost predicate LastDropped(batches: seq<Batch>, run: Run, left: seq<Batch>) {
    |left| == |batches| &&
    forall n :: 0 <= n < |batches| ==>
        left[n] == if batches[n].run == run && batches[n].state == Queued && LastFor(batches, run, n)
                   then batches[n].(state := Dropped) else batches[n]
  }

  /** What the engine has committed once an input that reached it is committed too. */
  ghost predicate CommitsOnce(w: World, id: Id, w': World) {
    forall run :: Committed(w', run)
                  == if run == w.running && id !in Committed(w, run) then Committed(w, run) + [id]
                     else Committed(w, run)
  }

  /** What the exchange of an input adds to what the engine committed for the running run. */
  ghost predicate Answers(w: World, id: Id, answer: Answer, w': World) {
    && w'.batches == w.batches && w'.settled == w.settled && w'.running == w.running
    && (if answer == NotReached then w'.committed == w.committed else CommitsOnce(w, id, w'))
    && w'.waiting == (if answer == Answered then None else Some(Waiting(id, w.running)))
    && if answer == Answered then LeavesOthers(w.outbox, {id}, w'.outbox) else w'.outbox == w.outbox
  }

  ghost predicate LeavesTurn(w: World, e: Entry, due: bool, turn: Turn, w': World, goesOn: bool) {
    if DoneWith(w, e) then
      goesOn && LeavesOthers(w.outbox, {e.id}, w'.outbox) && w' == w.(outbox := w'.outbox)
    else if OtherRuns(w, e) then
      && goesOn && LastDropped(w.batches, e.run.value, w'.batches)
      && (exists ids :: AllOfRun(w.outbox, e.run.value, ids) && LeavesOthers(w.outbox, ids, w'.outbox))
      && w' == w.(batches := w'.batches, outbox := w'.outbox)
    else if Waits(e, due, turn) then !goesOn && w' == w
    else (goesOn <==> turn.answer == Answered) && Answers(w, e.id, turn.answer, w')
  }

  lemma LastOfDropped(w: World, run: Run)
    ensures LastDropped(w.batches, run, Apply(w, DropQueued(run)).batches)
  {
    var n := LastOf(w.batches, run);
  }

  lemma CommitIs(w: World, id: Id)
    ensures var commit := if id in Committed(w, w.running) then [] else [Commit(id)];
            Exec(w, commit) == if id in Committed(w, w.running) then w else Apply(w, Commit(id))
  {
    ExecOne(w, Commit(id));
  }

  lemma ExchangedIs(w: World, id: Id)
    ensures var w1 := if id in Committed(w, w.running) then w else Apply(w, Commit(id));
            Exec(w, ExchangeActs(w, id, Answered)) == w1.(outbox := Without(w1.outbox, {id}), waiting := None)
  {
    var commit := if id in Committed(w, w.running) then [] else [Commit(id)];
    CommitIs(w, id);
    var w1 := Exec(w, commit);
    ExecConcat(w, commit, [Strike({id}), Clear]);
    ExecTwo(w1, Strike({id}), Clear);
  }

  lemma ReachedCommits(w: World, id: Id)
    ensures CommitsOnce(w, id, if id in Committed(w, w.running) then w else Apply(w, Commit(id)))
  {
  }

  lemma ExchangeResult(w: World, id: Id, answer: Answer)
    requires w.waiting == Some(Waiting(id, w.running))
    ensures Answers(w, id, answer, Exec(w, ExchangeActs(w, id, answer)))
  {
    var w' := Exec(w, ExchangeActs(w, id, answer));
    var w1 := if id in Committed(w, w.running) then w else Apply(w, Commit(id));
    ReachedCommits(w, id);
    match answer
    case NotReached =>
    case CommittedOnly =>
      CommitIs(w, id);
      assert w' == w1;
    case Answered =>
      ExchangedIs(w, id);
      assert w' == w1.(outbox := Without(w1.outbox, {id}), waiting := None);
      assert CommitsOnce(w, id, w');
      StrikeLeaves(w.outbox, {id});
  }

  lemma StruckTurn(w: World, due: bool, turn: Turn, e: Entry)
    requires w.outbox != [] && e == Next(w.outbox) && DoneWith(w, e)
    ensures LeavesTurn(w, e, due, turn, Exec(w, TurnActs(w, due, turn)), GoesOn(w, due, turn))
  {
    assert Strikes(w, e);
    assert TurnActs(w, due, turn) == [Strike({e.id})];
    var w' := Apply(w, Strike({e.id}));
    assert Exec(w, TurnActs(w, due, turn)) == w' by {
      ExecOne(w, Strike({e.id}));
    }
    assert LeavesOthers(w.outbox, {e.id}, w'.outbox) by {
      StrikeLeaves(w.outbox, {e.id});
    }
  }

  ghost predicate AllOfRun(es: seq<Entry>, run: Run, ids: set<Id>) {
    forall id :: id in ids <==> exists i :: 0 <= i < |es| && es[i].id == id && es[i].run == Some(run)
  }

  lemma OtherTurn(w: World, due: bool, turn: Turn, e: Entry)
    requires w.outbox != [] && e == Next(w.outbox) && !DoneWith(w, e) && OtherRuns(w, e)
    ensures LeavesTurn(w, e, due, turn, Exec(w, TurnActs(w, due, turn)), GoesOn(w, due, turn))
  {
    var run := e.run.value;
    var ids := IdsOf(w.outbox, run);
    var dropped := Apply(w, DropQueued(run)).batches;
    var w' := w.(batches := dropped, outbox := Without(w.outbox, ids));
    assert TurnActs(w, due, turn) == [DropQueued(run), Strike(ids)];
    assert Exec(w, TurnActs(w, due, turn)) == w' by {
      DropThenStrike(w, run, ids);
    }
    assert LastDropped(w.batches, run, w'.batches) by {
      LastOfDropped(w, run);
    }
    assert AllOfRun(w.outbox, run, ids) && LeavesOthers(w.outbox, ids, w'.outbox) by {
      StrikeLeaves(w.outbox, ids);
    }
  }

  lemma SentTurn(w: World, due: bool, turn: Turn, e: Entry)
    requires w.outbox != [] && e == Next(w.outbox) && !DoneWith(w, e) && !OtherRuns(w, e) && !Waits(e, due, turn)
    ensures LeavesTurn(w, e, due, turn, Exec(w, TurnActs(w, due, turn)), GoesOn(w, due, turn))
  {
    var asked := Apply(w, Ask(e.id));
    ExecOne(w, Ask(e.id));
    ExecConcat(w, [Ask(e.id)], ExchangeActs(asked, e.id, turn.answer));
    ExchangeResult(asked, e.id, turn.answer);
  }

  lemma TurnOf(w: World, due: bool, turn: Turn, e: Entry)
    requires w.outbox != [] && e == Next(w.outbox)
    ensures LeavesTurn(w, e, due, turn, Exec(w, TurnActs(w, due, turn)), GoesOn(w, due, turn))
  {
    if DoneWith(w, e) {
      StruckTurn(w, due, turn, e);
    } else if OtherRuns(w, e) {
      OtherTurn(w, due, turn, e);
    } else if !Waits(e, due, turn) {
      SentTurn(w, due, turn, e);
    }
  }

  /** One turn, from the outbox, the record and the engine's log. */
  lemma TurnResult(w: World, due: bool, turn: Turn)
    requires w.outbox != [] && WellShaped(w)
    ensures exists i :: 0 <= i < |w.outbox| && TakenNext(w.outbox, i)
              && LeavesTurn(w, w.outbox[i], due, turn, Exec(w, TurnActs(w, due, turn)), GoesOn(w, due, turn))
  {
    NextIsTaken(w.outbox);
    var i :| 0 <= i < |w.outbox| && TakenNext(w.outbox, i) && w.outbox[i] == Next(w.outbox);
    TurnOf(w, due, turn, w.outbox[i]);
  }

  // ----- A whole drain -----

  lemma {:induction false} WithoutShrinks(es: seq<Entry>, ids: set<Id>, e: Entry)
    ensures |Without(es, ids)| <= |es| && (e in es && e.id in ids ==> |Without(es, ids)| < |es|)
  {
    if es != [] {
      WithoutShrinks(es[1..], ids, e);
    }
  }

  lemma NextIn(es: seq<Entry>)
    requires es != []
    ensures Next(es) in es
  {
  }

  /** Every input of the outbox for the running run, or for none, is committed for it by then, unless settled. */
  ghost predicate AllCommitted(w: World, w': World) {
    forall e: Entry :: e in w.outbox && !OtherRuns(w, e) && e.id !in w.settled ==> e.id in Committed(w', w.running)
  }

  /** The running run's batches as they were. */
  ghost predicate SameBatches(w: World, w': World) {
    && |w'.batches| == |w.batches|
    && forall n :: 0 <= n < |w.batches| ==>
        w'.batches[n].run == w.batches[n].run && (w.batches[n].run == w.running ==> w'.batches[n] == w.batches[n])
  }

  /** The world after a turn that goes on: fewer entries, of which each one gone is another run's, settled or
      committed. */
  ghost predicate TurnTakes(w: World, w1: World) {
    && |w1.outbox| < |w.outbox| && DistinctEntries(w1.outbox) && w1.settled == w.settled && w1.running == w.running
    && (forall run, id :: id in Committed(w, run) ==> id in Committed(w1, run))
    && (forall run :: run != w.running ==> Committed(w1, run) == Committed(w, run)) && SameBatches(w, w1)
    && (forall e: Entry :: e in w.outbox && e !in w1.outbox ==>
          OtherRuns(w, e) || e.id in w.settled || e.id in Committed(w1, w.running))
  }

  lemma StrikeTakes(es: seq<Entry>, ids: set<Id>, e: Entry)
    requires DistinctEntries(es) && e in es && e.id in ids
    ensures var left := Without(es, ids);
            && |left| < |es| && DistinctEntries(left) && forall x :: x in es && x !in left ==> x.id in ids
  {
    WithoutShrinks(es, ids, e);
    WithoutDistinct(es, ids);
    WithoutIn(es, ids);
  }

  lemma SameEntry(es: seq<Entry>, a: Entry, b: Entry)
    requires DistinctEntries(es) && a in es && b in es && a.id == b.id
    ensures a == b
  {
    var i :| 0 <= i < |es| && es[i] == a;
    var j :| 0 <= j < |es| && es[j] == b;
    assert i == j;
  }

  lemma StruckTakes(w: World, e: Entry)
    requires DistinctEntries(w.outbox) && e in w.outbox && DoneWith(w, e)
    ensures TurnTakes(w, w.(outbox := Without(w.outbox, {e.id})))
  {
    StrikeTakes(w.outbox, {e.id}, e);
    forall x: Entry | x in w.outbox && x.id == e.id ensures x == e {
      SameEntry(w.outbox, x, e);
    }
  }

  lemma OthersTake(w: World, e: Entry, batches: seq<Batch>)
    requires DistinctEntries(w.outbox) && e in w.outbox && OtherRuns(w, e)
    requires LastDropped(w.batches, e.run.value, batches)
    ensures TurnTakes(w, w.(batches := batches, outbox := Without(w.outbox, IdsOf(w.outbox, e.run.value))))
  {
    var ids := IdsOf(w.outbox, e.run.value);
    assert e.id in ids by {
      var i :| 0 <= i < |w.outbox| && w.outbox[i] == e;
    }
    StrikeTakes(w.outbox, ids, e);
    forall x: Entry | x in w.outbox && x.id in ids ensures OtherRuns(w, x) {
      var i :| 0 <= i < |w.outbox| && w.outbox[i].run == e.run && w.outbox[i].id == x.id;
      SameEntry(w.outbox, x, w.outbox[i]);
    }
  }

  lemma SentTakes(w: World, e: Entry)
    requires DistinctEntries(w.outbox) && e in w.outbox
    ensures TurnTakes(w, w.(committed := w.committed[w.running := Committed(w, w.running) + [e.id]],
                            outbox := Without(w.outbox, {e.id}), waiting := None))
  {
    StrikeTakes(w.outbox, {e.id}, e);
  }

  lemma TurnTaken(w: World, turn: Turn)
    requires w.outbox != [] && DistinctEntries(w.outbox) && turn == Turn(false, Answered)
    ensures GoesOn(w, false, turn) && TurnTakes(w, Exec(w, TurnActs(w, false, turn)))
  {
    var e := Next(w.outbox);
    NextIn(w.outbox);
    if DoneWith(w, e) {
      assert Exec(w, TurnActs(w, false, turn)) == w.(outbox := Without(w.outbox, {e.id})) by {
        assert Strikes(w, e);
        ExecOne(w, Strike({e.id}));
      }
      StruckTakes(w, e);
    } else if OtherRuns(w, e) {
      OtherIs(w, turn, e);
      LastOfDropped(w, e.run.value);
      OthersTake(w, e, Apply(w, DropQueued(e.run.value)).batches);
    } else {
      SentIs(w, e);
      SentTakes(w, e);
    }
  }

  lemma OtherIs(w: World, turn: Turn, e: Entry)
    requires w.outbox != [] && e == Next(w.outbox) && !DoneWith(w, e) && OtherRuns(w, e)
    ensures Exec(w, TurnActs(w, false, turn))
            == w.(batches := Apply(w, DropQueued(e.run.value)).batches,
                  outbox := Without(w.outbox, IdsOf(w.outbox, e.run.value)))
  {
    var acts := [DropQueued(e.run.value), Strike(IdsOf(w.outbox, e.run.value))];
    assert TurnActs(w, false, turn) == acts;
    DropThenStrike(w, e.run.value, IdsOf(w.outbox, e.run.value));
  }

  lemma DropOnly(w: World, run: Run)
    ensures var w1 := Apply(w, DropQueued(run)); w1 == w.(batches := w1.batches)
  {
  }

  lemma DropThenStrike(w: World, run: Run, ids: set<Id>)
    ensures Exec(w, [DropQueued(run), Strike(ids)])
            == w.(batches := Apply(w, DropQueued(run)).batches, outbox := Without(w.outbox, ids))
  {
    ExecTwo(w, DropQueued(run), Strike(ids));
    DropOnly(w, run);
  }

  lemma SentIs(w: World, e: Entry)
    requires w.outbox != [] && e == Next(w.outbox) && !DoneWith(w, e) && !OtherRuns(w, e)
    ensures Exec(w, TurnActs(w, false, Turn(false, Answered)))
            == w.(committed := w.committed[w.running := Committed(w, w.running) + [e.id]],
                  outbox := Without(w.outbox, {e.id}), waiting := None)
  {
    var asked := Apply(w, Ask(e.id));
    var acts := ExchangeActs(asked, e.id, Answered);
    var committed := Apply(asked, Commit(e.id));
    assert acts == [Commit(e.id)] + [Strike({e.id}), Clear];
    assert TurnActs(w, false, Turn(false, Answered)) == [Ask(e.id)] + acts;
    assert Exec(asked, acts) == Exec(committed, [Strike({e.id}), Clear]) by {
      ExecConcat(asked, [Commit(e.id)], [Strike({e.id}), Clear]);
      ExecOne(asked, Commit(e.id));
    }
    assert Exec(w, [Ask(e.id)] + acts) == Exec(asked, acts) by {
      ExecConcat(w, [Ask(e.id)], acts);
      ExecOne(w, Ask(e.id));
    }
    ExecTwo(committed, Strike({e.id}), Clear);
  }

  /** A drain whose every input is answered, with nothing due and no commission awaited, empties the outbox: each of its
      inputs for the running run, and each report and retirement, is then committed for that run, unless settled with an
      ended run; no other run commits anything. */
  lemma {:induction false} DrainEmpties(w: World, turns: seq<Turn>)
    requires DistinctEntries(w.outbox) && |w.outbox| <= |turns|
    requires forall k :: 0 <= k < |turns| ==> turns[k] == Turn(false, Answered)
    ensures var w' := Exec(w, DrainActs(w, false, turns));
            && w'.outbox == [] && AllCommitted(w, w') && SameBatches(w, w') && w'.running == w.running
            && (forall run, id :: id in Committed(w, run) ==> id in Committed(w', run))
            && (forall run :: run != w.running ==> Committed(w', run) == Committed(w, run))
    decreases |turns|
  {
    if w.outbox != [] {
      var w1 := Exec(w, TurnActs(w, false, turns[0]));
      TurnTaken(w, turns[0]);
      DrainUnfolds(w, false, turns);
      DrainEmpties(w1, turns[1..]);
      var w' := Exec(w, DrainActs(w, false, turns));
      assert w' == Exec(w1, DrainActs(w1, false, turns[1..]));
      forall e: Entry | e in w.outbox && !OtherRuns(w, e) && e.id !in w.settled
        ensures e.id in Committed(w', w.running)
      {
        assert !OtherRuns(w1, e);
      }
    }
  }

  /** start: the run is taken up, and its own input that awaits a reply is asked for again; another run's is not. */
  lemma StartResult(w: World, run: Run, answer: Answer)
    ensures var started, w' := w.(running := run), Exec(w, Acts(w, StartAdapter(run, answer)));
            if w.waiting.Some? && w.waiting.value.run == run then Answers(started, w.waiting.value.id, answer, w')
            else w' == started
  {
    var started := w.(running := run);
    var acts := WaitingActs(started, answer);
    ExecOne(w, Start(run));
    ExecConcat(w, [Start(run)], acts);
    if w.waiting.Some? && w.waiting.value.run == run {
      ExchangeResult(started, w.waiting.value.id, answer);
    }
  }

  /** Every input of the batch, and every other the outbox held for the running run or for none. */
  ghost predicate AllReached(w: World, es: seq<Entry>, w': World) {
    forall i :: 0 <= i < |es| && !OtherRuns(w, es[i]) && es[i].id !in w.settled ==> es[i].id in Committed(w', w.running)
  }

  lemma DeliveredStays(w: World, w': World, f: File)
    requires SameBatches(w, w') && w'.running == w.running && NamedBy(w, f)
    ensures NamedBy(w', f)
  {
    var n :| 0 <= n < |w.batches| && w.batches[n].run == w.running && w.batches[n].state != Dropped
             && f in w.batches[n].files;
    assert w'.batches[n] == w.batches[n];
  }

  lemma AllOfBoth(w: World, all: seq<Entry>, more: seq<Entry>, w': World)
    requires AllReached(w, all, w') && (all == w.outbox || all == w.outbox + more)
    ensures AllReached(w, w.outbox, w') && (all == w.outbox + more ==> AllReached(w, more, w'))
  {
    forall i | 0 <= i < |w.outbox| && !OtherRuns(w, w.outbox[i]) && w.outbox[i].id !in w.settled
      ensures w.outbox[i].id in Committed(w', w.running)
    {
      assert all[i] == w.outbox[i];
    }
    if all == w.outbox + more {
      forall i | 0 <= i < |more| && !OtherRuns(w, more[i]) && more[i].id !in w.settled
        ensures more[i].id in Committed(w', w.running)
      {
        assert all[|w.outbox| + i] == more[i];
      }
    }
  }

  lemma DeliveredOutbox(w: World, d: Delivering)
    requires !StreamInOutbox(w) && FinishesUnread(w) && d.reading == Taken && DeliverPlan(w, d).goesOn
    ensures var w1 := Exec(w, DeliverPlan(w, d).acts);
            && w1.waiting == w.waiting && w1.running == w.running && w1.settled == w.settled
            && if exists f :: IsNew(w, d.listing, f) then w1.outbox == w.outbox + d.entries else w1.outbox == w.outbox
  {
    var w1 := Exec(w, DeliverPlan(w, d).acts);
    DeliverResult(w, d);
    var finished :| LeavesFinished(w, d, finished) && LeavesBegun(finished, d, w1);
    forall f ensures IsNew(finished, d.listing, f) <==> IsNew(w, d.listing, f) {
      SettlingKeepsNamed(w, d, finished, f);
    }
    assert finished.outbox == w.outbox;
    assert !StopsFor(finished, d);
  }

  /** A step with nothing due or awaiting a reply, no stream in the outbox and the account read, in which the engine
      answers everything: the outbox ends empty, every listed file is in a batch of the run that is not dropped, and the
      inputs the outbox held, and those of the files that were new, are committed for the run. */
  lemma StepDelivers(w: World, d: Delivering, answer: Answer, turns: seq<Turn>)
    requires Inv(w) && Sound(w, StepAdapter(false, d, answer, turns)) && w.waiting == None
    requires !StreamInOutbox(w) && FinishesUnread(w) && d.reading == Taken && DeliverPlan(w, d).goesOn
    requires |w.outbox| + |d.entries| <= |turns| && forall k :: 0 <= k < |turns| ==> turns[k] == Turn(false, Answered)
    ensures var w' := Exec(w, Acts(w, StepAdapter(false, d, answer, turns)));
            && w'.outbox == [] && (forall f :: f in d.listing ==> NamedBy(w', f)) && AllReached(w, w.outbox, w')
            && ((exists f :: IsNew(w, d.listing, f)) ==> AllReached(w, d.entries, w'))
  {
    var p := DeliverPlan(w, d);
    var w1 := Exec(w, p.acts);
    StepIs(w, false, d, answer, turns);
    DeliverResult(w, d);
    EveryFileTaken(w, d);
    DeliverLegal(w, d);
    LegalKeeps(w, p.acts);
    DeliveredOutbox(w, d);
    DrainAllIs(w1, false, answer, turns);
    DrainEmpties(w1, turns);
    var w' := Exec(w, Acts(w, StepAdapter(false, d, answer, turns)));
    assert w' == Exec(w1, DrainActs(w1, false, turns));
    assert AllReached(w, w1.outbox, w') by {
      forall i | 0 <= i < |w1.outbox| && !OtherRuns(w, w1.outbox[i]) && w1.outbox[i].id !in w.settled
        ensures w1.outbox[i].id in Committed(w', w.running)
      {
        assert w1.outbox[i] in w1.outbox && !OtherRuns(w1, w1.outbox[i]);
      }
    }
    AllOfBoth(w, w1.outbox, d.entries, w');
    forall f | f in d.listing ensures NamedBy(w', f) {
      DeliveredStays(w1, w', f);
    }
  }

  // ----- What a step leaves of the batches -----

  lemma TurnKeepsBatches(w: World, due: bool, turn: Turn)
    requires w.outbox != []
    ensures var w' := Exec(w, TurnActs(w, due, turn)); SameBatches(w, w') && w'.running == w.running
  {
    TurnOf(w, due, turn, Next(w.outbox));
  }

  lemma SameThrough(w: World, w1: World, w2: World)
    requires SameBatches(w, w1) && SameBatches(w1, w2) && w1.running == w.running
    ensures SameBatches(w, w2)
  {
  }

  lemma {:induction false} DrainKeepsBatches(w: World, due: bool, turns: seq<Turn>)
    ensures var w' := Exec(w, DrainActs(w, due, turns)); SameBatches(w, w') && w'.running == w.running
    decreases |turns|
  {
    if turns != [] && w.outbox != [] {
      var w1 := Exec(w, TurnActs(w, due, turns[0]));
      DrainUnfolds(w, due, turns);
      TurnKeepsBatches(w, due, turns[0]);
      if GoesOn(w, due, turns[0]) {
        DrainKeepsBatches(w1, due, turns[1..]);
        SameThrough(w, w1, Exec(w1, DrainActs(w1, due, turns[1..])));
      }
    }
  }

  lemma DrainAllKeepsBatches(w: World, due: bool, answer: Answer, turns: seq<Turn>)
    requires w.waiting.Some? ==> w.waiting.value.run == w.running
    ensures var w' := Exec(w, DrainAll(w, due, answer, turns)); SameBatches(w, w') && w'.running == w.running
  {
    DrainAllIs(w, due, answer, turns);
    if w.waiting.Some? {
      var acts := ExchangeActs(w, w.waiting.value.id, answer);
      ExchangeResult(w, w.waiting.value.id, answer);
      if answer.Answered? {
        DrainKeepsBatches(Exec(w, acts), due, turns);
        SameThrough(w, Exec(w, acts), Exec(w, DrainAll(w, due, answer, turns)));
      }
    } else {
      DrainKeepsBatches(w, due, turns);
    }
  }

  /** The delivery of a step takes up the run's files. */
  ghost predicate TakesFiles(w: World, d: Delivering) {
    MayStep(w) && !StreamInOutbox(w) && FinishesUnread(w) && d.reading == Taken && !DeliveryStops(w, d)
  }

  /** Whatever the engine answers: a step that neither owes a reconciliation nor stops, with no stream in the outbox and
      the account read, leaves every listed file in a batch of the running run that is not dropped. */
  lemma StepNamesFiles(w: World, d: Delivering, answer: Answer, turns: seq<Turn>)
    requires TakesFiles(w, d)
    ensures forall f :: f in d.listing ==> NamedBy(Exec(w, Acts(w, StepAdapter(false, d, answer, turns))), f)
  {
    var w1 := Exec(w, DeliverPlan(w, d).acts);
    var w' := Exec(w, Acts(w, StepAdapter(false, d, answer, turns)));
    DeliverResult(w, d);
    EveryFileTaken(w, d);
    StepIs(w, false, d, answer, turns);
    DrainAllKeepsBatches(w1, false, answer, turns);
    forall f | f in d.listing ensures NamedBy(w', f) {
      DeliveredStays(w1, w', f);
    }
  }
}
