/** When a pass over the waiting input's orders goes on, what it does with each order, and why it stops
    (adapter/ibkr/relay.py:1321-1428), in terms of the files as it begins, IBKR's lists and the sender's answers. */
module HandoverPass {
  import opened Wrappers
  import opened Handover
  import opened HandoverRuns
  import opened HandoverKeeps
  import opened HandoverLegal
  import opened EndedRunLegal
  import opened HandoverTheorems
  import opened HandoverQueued

  // ----- What the files say of an order -----

  ghost predicate LastOn(ds: seq<Decision>, c: Cid, i: int) {
    0 <= i < |ds| && ds[i].cid == c && forall j :: i < j < |ds| ==> ds[j].cid != c
  }

  ghost predicate LastRetiredOn(ds: seq<Decision>, c: Cid, i: int) {
    && 0 <= i < |ds| && ds[i].cid == c && ds[i].verdict.Retired?
    && forall j :: i < j < |ds| ==> ds[j].cid != c || !ds[j].verdict.Retired?
  }

  predicate Marked(w: World, c: Cid, m: Mark) {
    c in w.marks && w.marks[c] == m
  }

  predicate Queues(w: World, y: InputId) {
    exists en :: en in w.outbox && en.id == y
  }

  /** The relay sent it, or saw it at IBKR, since it started, or its mark says it was sent: the pass does nothing. */
  predicate Known(w: World, c: Cid) {
    c in w.sent || Marked(w, c, Sent)
  }

  /** The relay found IBKR showing it, though it was settled never sent. */
  ghost predicate FoundThere(w: World, c: Cid, x: InputId) {
    || Marked(w, c, AtBroker)
    || ((c !in w.marks || Marked(w, c, NeverSent))
        && exists i ::
             LastOn(w.decisions, c, i) && w.decisions[i].verdict.FoundAtBroker? && w.decisions[i].input == Some(x))
  }

  ghost predicate RetiredFor(w: World, c: Cid, x: InputId) {
    exists d :: d in w.decisions && d.cid == c && d.verdict.Retired? && d.input == Some(x)
  }

  /** Retired by a relay that recorded no input. */
  ghost predicate RetiredBefore(w: World, c: Cid) {
    exists i :: LastRetiredOn(w.decisions, c, i) && w.decisions[i].input.None?
  }

  /** Unmarked, and a retirement of it was recorded or queued. */
  ghost predicate RetirementBegun(w: World, c: Cid, x: InputId) {
    c !in w.marks && (RetiredFor(w, c, x) || RetiredBefore(w, c) || Queues(w, Retirement(c)))
  }

  /** The engine was told of that retirement, or it is recorded for this input. */
  ghost predicate RetirementTold(w: World, c: Cid, x: InputId) {
    RetiredFor(w, c, x) || Queues(w, Retirement(c)) || Queues(w, RetirementFor(c, x))
  }

  ghost predicate Readable(w: World, c: Cid) {
    exists i :: LastRetiredOn(w.decisions, c, i) && w.decisions[i].readable
  }

  /** Nothing says that the order was sent or must not be, so the sender is asked: unmarked, or allowed today. */
  ghost predicate Free(w: World, c: Cid, x: InputId, env: Env) {
    && !Known(w, c) && !FoundThere(w, c, x) && !RetirementBegun(w, c, x) && c !in env.broker
    && (c !in w.marks || Marked(w, c, Resend(env.today)))
  }

  /** The sender says that the order's session is over, and it is before today's. */
  predicate IsOver(e: Engine, c: Cid, x: InputId, env: Env) {
    env.check(c).SessionOver? && x in e.sessions && e.sessions[x] < env.today
  }

  ghost predicate HandedOver(w: World, c: Cid, x: InputId, env: Env) {
    Free(w, c, x, env) && env.check(c).Accepted?
  }

  /** Retired in this turn: its session over, or a retirement begun before it. */
  ghost predicate RetiredHere(e: Engine, w: World, c: Cid, x: InputId, env: Env) {
    || (Free(w, c, x, env) && IsOver(e, c, x, env))
    || (&& !Known(w, c) && !FoundThere(w, c, x) && c !in env.broker && RetirementBegun(w, c, x)
        && (RetirementTold(w, c, x) || Readable(w, c)))
  }

  // ----- Why a pass stops at an order -----

  ghost predicate StopsFor(e: Engine, w: World, c: Cid, x: InputId, env: Env, why: StopReason) {
    !Known(w, c) &&
    match why
    case AtTheBroker =>
      FoundThere(w, c, x) || (c in env.broker && (Marked(w, c, NeverSent) || RetirementBegun(w, c, x)))
    case HandoverUnconfirmed =>
      || (Marked(w, c, HandingOver) && c !in env.broker)
      || (HandedOver(w, c, x, env) && !env.handOver(c).Returned?)
    case ResendExpired =>
      c !in env.broker && c in w.marks && w.marks[c].Resend? && w.marks[c].day != env.today
    case NotSendable => Free(w, c, x, env) && !env.check(c).Accepted? && !IsOver(e, c, x, env)
    case RecordInvalid =>
      && !FoundThere(w, c, x) && c !in env.broker && RetirementBegun(w, c, x)
      && !RetirementTold(w, c, x) && !Readable(w, c)
    case NoReply => false
  }

  ghost predicate Stops(e: Engine, w: World, c: Cid, x: InputId, env: Env) {
    exists why :: StopsFor(e, w, c, x, env, why)
  }

  // ----- The records as they are read -----

  lemma {:induction false} LastDecisionAt(ds: seq<Decision>, c: Cid, i: int)
    requires LastOn(ds, c, i)
    ensures LastDecision(ds, c) == Some(ds[i])
    decreases |ds|
  {
    var n := |ds| - 1;
    if i < n { LastDecisionAt(ds[..n], c, i); }
  }

  lemma {:induction false} LastDecisionFound(ds: seq<Decision>, c: Cid) returns (i: int)
    requires LastDecision(ds, c).Some?
    ensures LastOn(ds, c, i)
    decreases |ds|
  {
    i := |ds| - 1;
    if !(ds[i].cid == c) { i := LastDecisionFound(ds[..i], c); }
  }

  lemma LastOnIs(ds: seq<Decision>, c: Cid)
    ensures forall i :: LastOn(ds, c, i) ==> LastDecision(ds, c) == Some(ds[i])
    ensures LastDecision(ds, c).Some? ==> exists i :: LastOn(ds, c, i)
  {
    forall i | LastOn(ds, c, i) ensures LastDecision(ds, c) == Some(ds[i]) { LastDecisionAt(ds, c, i); }
    if LastDecision(ds, c).Some? { var i := LastDecisionFound(ds, c); }
  }

  lemma {:induction false} LastRetiredAt(ds: seq<Decision>, c: Cid, i: int)
    requires LastRetiredOn(ds, c, i)
    ensures LastRetired(ds, c) == Some(ds[i])
    decreases |ds|
  {
    var n := |ds| - 1;
    if i < n { LastRetiredAt(ds[..n], c, i); }
  }

  lemma {:induction false} LastRetiredFound(ds: seq<Decision>, c: Cid) returns (i: int)
    requires LastRetired(ds, c).Some?
    ensures LastRetiredOn(ds, c, i)
    decreases |ds|
  {
    i := |ds| - 1;
    if !(ds[i].cid == c && ds[i].verdict.Retired?) { i := LastRetiredFound(ds[..i], c); }
  }

  lemma LastRetiredOnIs(ds: seq<Decision>, c: Cid)
    ensures forall i :: LastRetiredOn(ds, c, i) ==> LastRetired(ds, c) == Some(ds[i])
    ensures LastRetired(ds, c).Some? ==> exists i :: LastRetiredOn(ds, c, i)
  {
    forall i | LastRetiredOn(ds, c, i) ensures LastRetired(ds, c) == Some(ds[i]) { LastRetiredAt(ds, c, i); }
    if LastRetired(ds, c).Some? { var i := LastRetiredFound(ds, c); }
  }

  /** What the relay reads of an order is what its files say. */
  lemma ReadsFiles(w: World, c: Cid, x: InputId)
    ensures FoundThere(w, c, x) <==>
              var m := MarkOf(w.marks, c);
              m == Some(AtBroker) || ((m.None? || m == Some(NeverSent)) && LastDecided(w, c, FoundAtBroker, Some(x)))
    ensures RetiredBefore(w, c) <==> LastRetired(w.decisions, c).Some? && LastRetired(w.decisions, c).value.input.None?
    ensures Readable(w, c) <==> LastRetired(w.decisions, c).Some? && LastRetired(w.decisions, c).value.readable
    ensures forall y :: Queues(w, y) <==> y in Ids(w.outbox)
  {
    LastOnIs(w.decisions, c);
    LastRetiredOnIs(w.decisions, c);
  }

  lemma FinishIs(w: World, c: Cid, x: InputId, shown: bool)
    requires c !in w.marks
    ensures FinishRetirement(w, c, x, shown).Some? <==> RetirementBegun(w, c, x)
    ensures RetirementBegun(w, c, x) ==>
              FinishRetirement(w, c, x, shown).value.outcome
              == (if shown then Stop(AtTheBroker)
                  else if RetirementTold(w, c, x) || Readable(w, c) then GoOn else Stop(RecordInvalid))
  {
    ReadsFiles(w, c, x);
  }

  /** The order's turn goes on exactly when nothing stops it, and stops for exactly the reason the files, IBKR's lists
      and the sender give. */
  lemma OrderStops(e: Engine, w: World, c: Cid, x: InputId, env: Env)
    ensures var o := SettleOrder(e, w, MarkOf(w.marks, c), c, x, env).outcome;
            && (o.GoOn? <==> !Stops(e, w, c, x, env))
            && forall why :: o == Stop(why) <==> StopsFor(e, w, c, x, env, why)
  {
    ReadsFiles(w, c, x);
    if c !in w.marks { FinishIs(w, c, x, c in env.broker); }
    var o := SettleOrder(e, w, MarkOf(w.marks, c), c, x, env).outcome;
    forall why ensures o == Stop(why) <==> StopsFor(e, w, c, x, env, why) {}
    if o.Stop? { assert StopsFor(e, w, c, x, env, o.why); }
  }

  // ----- What an order's turn leaves -----

  /** IBKR shows it, and nothing settled it never sent: the relay takes it as sent. */
  ghost predicate SeenThere(w: World, c: Cid, x: InputId, env: Env) {
    && !Known(w, c) && c in env.broker && !FoundThere(w, c, x) && !RetirementBegun(w, c, x) && !Marked(w, c, NeverSent)
  }

  /** The retirement the engine is told of in this turn. */
  ghost predicate Tells(e: Engine, w: World, c: Cid, x: InputId, env: Env, id: InputId) {
    && RetiredHere(e, w, c, x, env) && !Queues(w, id)
    && if c in w.marks || !RetirementBegun(w, c, x) then id == Retirement(c)
       else !RetirementTold(w, c, x) && id == RetirementFor(c, x)
  }

  /** The mark the turn leaves on c. */
  ghost predicate LeavesMark(e: Engine, w: World, c: Cid, x: InputId, env: Env, marks: map<Cid, Mark>) {
    && (StopsFor(e, w, c, x, env, AtTheBroker) ==> marks == w.marks[c := AtBroker])
    && (StopsFor(e, w, c, x, env, ResendExpired) ==> marks == w.marks[c := HandingOver])
    && (RetiredHere(e, w, c, x, env) ==> marks == w.marks[c := NeverSent])
    && (HandedOver(w, c, x, env) ==> marks == w.marks[c := if env.handOver(c).Returned? then Sent else HandingOver])
    && (|| StopsFor(e, w, c, x, env, AtTheBroker) || StopsFor(e, w, c, x, env, ResendExpired)
        || RetiredHere(e, w, c, x, env) || HandedOver(w, c, x, env) || marks == w.marks)
  }

  /** The notes the turn leaves: which order the relay refused and why, and which reached nothing. */
  ghost predicate LeavesNotes(e: Engine, w: World, c: Cid, x: InputId, env: Env, w': World) {
    && w'.refusal == (if StopsFor(e, w, c, x, env, NotSendable) then Some(Refusal(x, c, env.check(c).Unsendable?))
                      else w.refusal)
    && w'.notHandedOver == (if !HandedOver(w, c, x, env) then w.notHandedOver
                            else if env.handOver(c).NothingHandedOver? then Some(Refusal(x, c, false)) else None)
  }

  /** What the turn hands over, and what the relay remembers as sent. */
  ghost predicate LeavesSent(w: World, c: Cid, x: InputId, env: Env, w': World) {
    && w'.sends == w.sends + (if HandedOver(w, c, x, env) then multiset{c} else multiset{})
    && w'.last == (if HandedOver(w, c, x, env) then w.last[c := env.handOver(c)] else w.last)
    && w'.sent == w.sent + (if SeenThere(w, c, x, env) || (HandedOver(w, c, x, env) && env.handOver(c).Returned?)
                            then {c} else {})
  }

  /** The entries the turn leaves queued, and what it records. */
  ghost predicate LeavesRecords(e: Engine, w: World, c: Cid, x: InputId, env: Env, w': World) {
    && (forall en :: en in w'.outbox <==>
          || (exists id :: Tells(e, w, c, x, env, id) && en == RetireEntry(id))
          || (en in w.outbox && !(StopsFor(e, w, c, x, env, AtTheBroker) && NamesRetirementOf(en.id, c))))
    && (RetiredHere(e, w, c, x, env) ==> RetiredFor(w', c, x) || RetiredBefore(w, c))
    && (forall d :: d in w.decisions ==> d in w'.decisions)
    && (forall d :: d in w'.decisions ==> d in w.decisions || (d.cid == c && d.input == Some(x)))
  }

  lemma AtBrokerLeaves(w: World, c: Cid, x: InputId)
    ensures var w' := Exec(w, AtBrokerActs(w, c, x));
            && w'.marks == w.marks[c := AtBroker] && w'.sends == w.sends && w'.last == w.last && w'.sent == w.sent
            && w'.refusal == w.refusal && w'.notHandedOver == w.notHandedOver
            && w'.outbox == Without(w.outbox, RetirementsOf(w.outbox, c))
            && (|| w'.decisions == w.decisions
                || exists d :: w'.decisions == w.decisions + [d] && d.cid == c && d.input == Some(x))
  {
    var owners := MarkOf(w.marks, c) == Some(AtBroker) && LastDecided(w, c, DecidedSent, Some(x));
    var d := Decision(c, FoundAtBroker, Some(x), None, None, true);
    var one := if owners || LastDecided(w, c, FoundAtBroker, Some(x)) then [] else [Decide(d)];
    var two := if MarkOf(w.marks, c) == Some(AtBroker) then [] else [SetMark(c, AtBroker)];
    var s := Strike(RetirementsOf(w.outbox, c));
    var w1 := if one == [] then w else Apply(w, Decide(d));
    var w2 := if two == [] then w1 else Apply(w1, SetMark(c, AtBroker));
    if one != [] { assert one[1..] == []; assert w1.decisions == w.decisions + [Tagged(w, d)]; }
    if two != [] { assert two[1..] == []; }
    assert [s][1..] == [];
    ExecConcat(w, one, two);
    ExecConcat(w, one + two, [s]);
  }

  lemma RetireLeaves(w: World, c: Cid, id: InputId, x: InputId)
    requires NamesRetirementOf(id, c)
    ensures var w' := Exec(w, RetireActs(w, c, id, x));
            && w'.marks == w.marks[c := NeverSent] && w'.sends == w.sends && w'.last == w.last && w'.sent == w.sent
            && w'.refusal == w.refusal && w'.notHandedOver == w.notHandedOver
            && w'.outbox == w.outbox + (if id in Ids(w.outbox) then [] else [RetireEntry(id)])
            && w'.decisions == w.decisions + [Tagged(w, Decision(c, Retired, Some(x), None, None, true))]
  {
    var one := if id in Ids(w.outbox) then [] else [Queue(RetireEntry(id))];
    var d := Decision(c, Retired, Some(x), None, None, true);
    var w1 := if one == [] then w else Apply(w, Queue(RetireEntry(id)));
    if one != [] { assert one[1..] == []; }
    ExecConcat(w, one, [Decide(d), SetMark(c, NeverSent)]);
    ExecTwo(w1, Decide(d), SetMark(c, NeverSent));
    assert w.outbox + [] == w.outbox;
  }

  lemma HandOverLeaves(w: World, c: Cid, x: InputId, result: SendResult)
    ensures var w' := Exec(w, HandOverActs(c, x, result).acts);
            && w'.marks == w.marks[c := if result.Returned? then Sent else HandingOver]
            && w'.sends == w.sends + multiset{c} && w'.last == w.last[c := result]
            && w'.sent == w.sent + (if result.Returned? then {c} else {})
            && w'.refusal == w.refusal && w'.outbox == w.outbox && w'.decisions == w.decisions
            && w'.notHandedOver == (if result.NothingHandedOver? then Some(Refusal(x, c, false)) else None)
  {
    var head := [ForgetNotHandedOver, SetMark(c, HandingOver)];
    var rest := [Send(c, result, x)] + AfterSend(c, x, result);
    assert HandOverActs(c, x, result).acts == head + rest;
    ExecConcat(w, head, rest);
    ExecTwo(w, head[0], head[1]);
    SendLeaves(Exec(w, head), c, x, result);
    assert w.marks[c := HandingOver][c := Sent] == w.marks[c := Sent];
  }

  lemma SendLeaves(w: World, c: Cid, x: InputId, result: SendResult)
    ensures var w' := Exec(w, [Send(c, result, x)] + AfterSend(c, x, result));
            && w'.marks == (if result.Returned? then w.marks[c := Sent] else w.marks)
            && w'.sends == w.sends + multiset{c} && w'.last == w.last[c := result]
            && w'.sent == w.sent + (if result.Returned? then {c} else {})
            && w'.refusal == w.refusal && w'.outbox == w.outbox && w'.decisions == w.decisions
            && w'.notHandedOver == (if result.NothingHandedOver? then Some(Refusal(x, c, false)) else w.notHandedOver)
  {
    var w1 := Apply(w, Send(c, result, x));
    ExecCons(w, Send(c, result, x), AfterSend(c, x, result));
    match result
    case Returned => ExecTwo(w1, SetMark(c, Sent), NoteSent(c));
    case NothingHandedOver => assert AfterSend(c, x, result)[1..] == [];
    case Unconfirmed =>
  }

  /** Only retirements are queued under a retirement's ID. */
  ghost predicate QueuedAsSuch(w: World) {
    forall en :: en in w.outbox && !en.id.Plain? ==> en.kind.Retire?
  }

  ghost predicate Leaves(e: Engine, w: World, c: Cid, x: InputId, env: Env, w': World) {
    && LeavesMark(e, w, c, x, env, w'.marks) && LeavesNotes(e, w, c, x, env, w')
    && LeavesSent(w, c, x, env, w') && LeavesRecords(e, w, c, x, env, w')
  }

  lemma LeavesAtBroker(e: Engine, w: World, c: Cid, x: InputId, env: Env)
    requires QueuedAsSuch(w) && StopsFor(e, w, c, x, env, AtTheBroker)
    ensures Leaves(e, w, c, x, env, Exec(w, AtBrokerActs(w, c, x)))
  {
    var w' := Exec(w, AtBrokerActs(w, c, x));
    AtBrokerLeaves(w, c, x);
    forall en ensures en in w'.outbox <==> en in w.outbox && !NamesRetirementOf(en.id, c) {
      WithoutMember(w.outbox, RetirementsOf(w.outbox, c), en);
    }
    MembersOf(w, w');
  }

  lemma MembersOf(w: World, w': World)
    ensures forall d :: w'.decisions == w.decisions + [d] ==>
              forall k :: k in w'.decisions <==> k in w.decisions || k == d
  {
    forall d | w'.decisions == w.decisions + [d] ensures forall k :: k in w'.decisions <==> k in w.decisions || k == d {
      MembersAppend(w.decisions, d);
    }
  }

  lemma LeavesRetired(e: Engine, w: World, c: Cid, x: InputId, env: Env, id: InputId)
    requires RetiredHere(e, w, c, x, env) && NamesRetirementOf(id, c)
    requires Queues(w, id) || Tells(e, w, c, x, env, id)
    requires Queues(w, id) ==> forall y :: !Tells(e, w, c, x, env, y)
    ensures Leaves(e, w, c, x, env, Exec(w, RetireActs(w, c, id, x)))
  {
    var w' := Exec(w, RetireActs(w, c, id, x));
    RetireLeaves(w, c, id, x);
    var d := Tagged(w, Decision(c, Retired, Some(x), None, None, true));
    MembersAppend(w.decisions, d);
    assert d in w'.decisions;
    if !Queues(w, id) { MembersAppend(w.outbox, RetireEntry(id)); }
  }

  lemma LeavesHandedOver(e: Engine, w: World, c: Cid, x: InputId, env: Env)
    requires HandedOver(w, c, x, env)
    ensures Leaves(e, w, c, x, env, Exec(w, HandOverActs(c, x, env.handOver(c)).acts))
  {
    HandOverLeaves(w, c, x, env.handOver(c));
  }

  lemma LeavesFinished(e: Engine, w: World, c: Cid, x: InputId, env: Env)
    requires !Known(w, c) && !FoundThere(w, c, x) && c !in env.broker && RetirementBegun(w, c, x)
    ensures var r := FinishRetirement(w, c, x, false); r.Some? && Leaves(e, w, c, x, env, Exec(w, r.value.acts))
  {
    ReadsFiles(w, c, x);
    FinishIs(w, c, x, false);
    var r := FinishRetirement(w, c, x, false).value;
    var told := RetirementTold(w, c, x);
    if r.outcome.GoOn? {
      if !told {
        LeavesRetired(e, w, c, x, env, RetirementFor(c, x));
      } else {
        LeavesTold(e, w, c, x, env, r.acts);
      }
    }
  }

  /** The engine was told already: what is left is recorded, and marked. */
  lemma LeavesTold(e: Engine, w: World, c: Cid, x: InputId, env: Env, acts: seq<Act>)
    requires RetiredHere(e, w, c, x, env) && RetirementBegun(w, c, x) && RetirementTold(w, c, x)
    requires var d := Decision(c, Retired, Some(x), None, None, true);
             acts == [Decide(d), SetMark(c, NeverSent)]
             || (acts == [SetMark(c, NeverSent)] && (RetiredFor(w, c, x) || RetiredBefore(w, c)))
    ensures Leaves(e, w, c, x, env, Exec(w, acts))
  {
    var d := Decision(c, Retired, Some(x), None, None, true);
    if |acts| == 2 {
      LeavesToldRecord(e, w, c, x, env, Apply(Apply(w, Decide(d)), SetMark(c, NeverSent)));
      ExecTwo(w, Decide(d), SetMark(c, NeverSent));
    } else {
      assert acts[1..] == [];
      assert Exec(w, acts) == Apply(w, SetMark(c, NeverSent));
    }
  }

  lemma LeavesToldRecord(e: Engine, w: World, c: Cid, x: InputId, env: Env, w': World)
    requires RetiredHere(e, w, c, x, env) && RetirementBegun(w, c, x) && RetirementTold(w, c, x)
    requires w' == Apply(Apply(w, Decide(Decision(c, Retired, Some(x), None, None, true))), SetMark(c, NeverSent))
    ensures Leaves(e, w, c, x, env, w')
  {
    var d := Tagged(w, Decision(c, Retired, Some(x), None, None, true));
    MembersAppend(w.decisions, d);
    assert d in w'.decisions;
  }

  lemma LeavesNothing(e: Engine, w: World, c: Cid, x: InputId, env: Env)
    requires !HandedOver(w, c, x, env) && !SeenThere(w, c, x, env) && !RetiredHere(e, w, c, x, env)
    requires forall why :: StopsFor(e, w, c, x, env, why) ==> why.HandoverUnconfirmed? || why.RecordInvalid?
    ensures Leaves(e, w, c, x, env, w)
  {
  }

  lemma LeavesOne(e: Engine, w: World, c: Cid, x: InputId, env: Env, a: Act)
    requires !HandedOver(w, c, x, env) && !RetiredHere(e, w, c, x, env)
    requires || (a == NoteSent(c) && SeenThere(w, c, x, env))
             || (a == SetMark(c, HandingOver) && StopsFor(e, w, c, x, env, ResendExpired))
             || (a == RecordRefusal(Refusal(x, c, env.check(c).Unsendable?)) && StopsFor(e, w, c, x, env, NotSendable))
    ensures Leaves(e, w, c, x, env, Exec(w, [a]))
  {
    assert [a][1..] == [];
    assert Exec(w, [a]) == Apply(w, a);
  }

  lemma LeavesTried(e: Engine, w: World, c: Cid, x: InputId, env: Env)
    requires Free(w, c, x, env)
    ensures Leaves(e, w, c, x, env, Exec(w, TrySend(e, w, c, x, env).acts))
  {
    match Check(e, x, env, c)
    case SessionOver => LeavesRetired(e, w, c, x, env, Retirement(c));
    case Unsendable => LeavesOne(e, w, c, x, env, RecordRefusal(Refusal(x, c, true)));
    case Refused => LeavesOne(e, w, c, x, env, RecordRefusal(Refusal(x, c, false)));
    case Accepted => LeavesHandedOver(e, w, c, x, env);
  }

  /** Nothing is written: sent or remembered, settled never sent, or unconfirmed and not shown. */
  ghost predicate Untouched(w: World, c: Cid, env: Env) {
    Known(w, c) || (c !in env.broker && (Marked(w, c, NeverSent) || Marked(w, c, HandingOver)))
  }

  /** What one order's turn writes, by the files, IBKR's lists and the session. */
  lemma OrderWrites(e: Engine, w: World, c: Cid, x: InputId, env: Env)
    ensures var acts := SettleOrder(e, w, MarkOf(w.marks, c), c, x, env).acts;
            if StopsFor(e, w, c, x, env, AtTheBroker) then acts == AtBrokerActs(w, c, x)
            else if Untouched(w, c, env) then acts == []
            else if RetirementBegun(w, c, x) then
              var r := FinishRetirement(w, c, x, false);
              r.Some? && acts == r.value.acts && c !in env.broker && !FoundThere(w, c, x)
            else if c in env.broker then acts == [NoteSent(c)]
            else if StopsFor(e, w, c, x, env, ResendExpired) then acts == [SetMark(c, HandingOver)]
            else Free(w, c, x, env) && acts == TrySend(e, w, c, x, env).acts
  {
    ReadsFiles(w, c, x);
    if c !in w.marks {
      FinishIs(w, c, x, c in env.broker);
      FinishIs(w, c, x, false);
    }
  }

  /** One order's turn hands it over exactly when nothing said it was sent or must not be and the sender accepts it,
      retires it exactly when its session is over or a retirement was begun, and leaves the mark, the notes, the
      records and the entries that this calls for and no others. */
  lemma OrderLeaves(e: Engine, w: World, c: Cid, x: InputId, env: Env)
    requires QueuedAsSuch(w)
    ensures Leaves(e, w, c, x, env, Exec(w, SettleOrder(e, w, MarkOf(w.marks, c), c, x, env).acts))
  {
    OrderWrites(e, w, c, x, env);
    if StopsFor(e, w, c, x, env, AtTheBroker) {
      LeavesAtBroker(e, w, c, x, env);
    } else if Untouched(w, c, env) {
      LeavesNothing(e, w, c, x, env);
    } else if RetirementBegun(w, c, x) {
      LeavesFinished(e, w, c, x, env);
    } else if c in env.broker {
      LeavesOne(e, w, c, x, env, NoteSent(c));
    } else if StopsFor(e, w, c, x, env, ResendExpired) {
      LeavesOne(e, w, c, x, env, SetMark(c, HandingOver));
    } else {
      LeavesTried(e, w, c, x, env);
    }
  }

  // ----- The whole pass -----

  ghost predicate Distinct(orders: seq<Cid>) {
    forall i, j :: 0 <= i < j < |orders| ==> orders[i] != orders[j]
  }

  /** An order stands in both worlds alike, so its turn is the same from either. */
  lemma SameStanding(e: Engine, w: World, w': World, c: Cid, x: InputId, env: Env)
    requires SameRecords(w, w', c)
    ensures forall why :: StopsFor(e, w', c, x, env, why) <==> StopsFor(e, w, c, x, env, why)
    ensures HandedOver(w', c, x, env) <==> HandedOver(w, c, x, env)
    ensures RetiredHere(e, w', c, x, env) <==> RetiredHere(e, w, c, x, env)
    ensures forall id :: Tells(e, w', c, x, env, id) <==> Tells(e, w, c, x, env, id)
    ensures RetiredBefore(w', c) <==> RetiredBefore(w, c)
    ensures RetiredFor(w', c, x) <==> RetiredFor(w, c, x)
  {
    SameReading(w, w', c, x);
    forall why ensures StopsFor(e, w', c, x, env, why) <==> StopsFor(e, w, c, x, env, why) {
      SameReason(e, w, w', c, x, env, why);
    }
  }

  lemma SameReason(e: Engine, w: World, w': World, c: Cid, x: InputId, env: Env, why: StopReason)
    requires SameRecords(w, w', c)
    ensures StopsFor(e, w', c, x, env, why) <==> StopsFor(e, w, c, x, env, why)
  {
    SameReading(w, w', c, x);
  }

  lemma SameReading(w: World, w': World, c: Cid, x: InputId)
    requires SameRecords(w, w', c)
    ensures Known(w', c) == Known(w, c) && FoundThere(w', c, x) == FoundThere(w, c, x)
    ensures RetiredFor(w', c, x) == RetiredFor(w, c, x) && RetiredBefore(w', c) == RetiredBefore(w, c)
    ensures Readable(w', c) == Readable(w, c) && MarkOf(w'.marks, c) == MarkOf(w.marks, c)
    ensures forall id :: NamesRetirementOf(id, c) ==> Queues(w', id) == Queues(w, id)
  {
    ReadsFiles(w, c, x);
    ReadsFiles(w', c, x);
    assert RetiredFor(w', c, x) == HasRetired(w'.decisions, c, x);
    assert RetiredFor(w, c, x) == HasRetired(w.decisions, c, x);
  }

  lemma SameStops(e: Engine, w: World, w': World, orders: seq<Cid>, x: InputId, env: Env)
    requires forall c :: c in orders ==> SameRecords(w, w', c)
    ensures forall c, why :: c in orders ==> (StopsFor(e, w', c, x, env, why) <==> StopsFor(e, w, c, x, env, why))
    ensures forall c :: c in orders ==> (Stops(e, w', c, x, env) <==> Stops(e, w, c, x, env))
  {
    forall c | c in orders
      ensures forall why :: StopsFor(e, w', c, x, env, why) <==> StopsFor(e, w, c, x, env, why)
    {
      SameStanding(e, w, w', c, x, env);
    }
  }

  /** What one order's turn leaves of the others, and of the input. */
  lemma TurnKeeps(e: Engine, w: World, mark: Option<Mark>, c: Cid, x: InputId, env: Env)
    ensures var w' := Exec(w, SettleOrder(e, w, mark, c, x, env).acts);
            && w'.waiting == w.waiting && w'.runOf == w.runOf && w'.run == w.run && w'.committed == w.committed
            && forall k :: k != c ==> SameRecords(w, w', k)
  {
    var acts := SettleOrder(e, w, mark, c, x, env).acts;
    OrderAbout(e, w, mark, c, x, env);
    AboutFrame(w, acts, c);
    forall k | k != c ensures SameRecords(w, Exec(w, acts), k) { OrderRecords(w, acts, c, k); }
  }

  /** The place of the order a pass stops at for this reason: none before it stops. */
  ghost predicate FirstStop(e: Engine, w: World, orders: seq<Cid>, x: InputId, env: Env, why: StopReason, i: int) {
    && 0 <= i < |orders| && StopsFor(e, w, orders[i], x, env, why)
    && forall j :: 0 <= j < i ==> !Stops(e, w, orders[j], x, env)
  }

  /** A pass goes on exactly when no order stops it, and stops for the reason of the first that does. */
  lemma {:induction false} OrdersOutcome(e: Engine, w: World, marks: map<Cid, Mark>, orders: seq<Cid>, x: InputId,
                                         env: Env)
    requires Distinct(orders) && forall k :: k in orders ==> MarkOf(marks, k) == MarkOf(w.marks, k)
    ensures var o := SettleOrders(e, w, marks, orders, x, env).outcome;
            && (o.GoOn? <==> forall c :: c in orders ==> !Stops(e, w, c, x, env))
            && (o.Stop? ==> exists i :: FirstStop(e, w, orders, x, env, o.why, i))
    decreases |orders|
  {
    if orders != [] {
      var c := orders[0];
      assert c in orders;
      OrderStops(e, w, c, x, env);
      var r := SettleOrder(e, w, MarkOf(marks, c), c, x, env);
      if r.outcome.Stop? {
        assert FirstStop(e, w, orders, x, env, r.outcome.why, 0);
      } else {
        var w' := Exec(w, r.acts);
        RestOutcome(e, w, w', marks, orders, x, env);
      }
    }
  }

  lemma {:induction false} RestOutcome(e: Engine, w: World, w': World, marks: map<Cid, Mark>, orders: seq<Cid>,
                                       x: InputId, env: Env)
    requires orders != [] && Distinct(orders) && forall k :: k in orders ==> MarkOf(marks, k) == MarkOf(w.marks, k)
    requires var r := SettleOrder(e, w, MarkOf(marks, orders[0]), orders[0], x, env);
             r.outcome.GoOn? && w' == Exec(w, r.acts) && !Stops(e, w, orders[0], x, env)
    ensures var o := SettleOrders(e, w', marks, orders[1..], x, env).outcome;
            && (o.GoOn? <==> forall c :: c in orders ==> !Stops(e, w, c, x, env))
            && (o.Stop? ==> exists i :: FirstStop(e, w, orders, x, env, o.why, i))
    decreases |orders|, 0
  {
    var rest := orders[1..];
    assert orders == [orders[0]] + rest;
    TurnKeeps(e, w, MarkOf(marks, orders[0]), orders[0], x, env);
    assert forall k :: k in rest ==> k in orders && k != orders[0] && SameRecords(w, w', k);
    SameStops(e, w, w', rest, x, env);
    OrdersOutcome(e, w', marks, rest, x, env);
    var o := SettleOrders(e, w', marks, rest, x, env).outcome;
    if o.Stop? {
      var i :| FirstStop(e, w', rest, x, env, o.why, i);
      FirstLater(e, w, w', orders, x, env, o.why, i);
    }
  }

  lemma FirstLater(e: Engine, w: World, w': World, orders: seq<Cid>, x: InputId, env: Env, why: StopReason, i: int)
    requires orders != [] && !Stops(e, w, orders[0], x, env) && FirstStop(e, w', orders[1..], x, env, why, i)
    requires forall c, r :: c in orders[1..] ==> (StopsFor(e, w', c, x, env, r) <==> StopsFor(e, w, c, x, env, r))
    requires forall c :: c in orders[1..] ==> (Stops(e, w', c, x, env) <==> Stops(e, w, c, x, env))
    ensures FirstStop(e, w, orders, x, env, why, i + 1)
  {
    assert orders[i + 1] == orders[1..][i];
    forall j | 0 <= j < i + 1 ensures !Stops(e, w, orders[j], x, env) {
      if j > 0 { assert orders[j] == orders[1..][j - 1] && orders[j] in orders[1..]; }
    }
  }

  // ----- What a pass leaves of each order -----

  /** The mark of an order after its turn. */
  ghost predicate MarkNow(e: Engine, w: World, c: Cid, x: InputId, env: Env, m: Option<Mark>) {
    && (StopsFor(e, w, c, x, env, AtTheBroker) ==> m == Some(AtBroker))
    && (StopsFor(e, w, c, x, env, ResendExpired) ==> m == Some(HandingOver))
    && (RetiredHere(e, w, c, x, env) ==> m == Some(NeverSent))
    && (HandedOver(w, c, x, env) ==> m == Some(if env.handOver(c).Returned? then Sent else HandingOver))
    && (|| StopsFor(e, w, c, x, env, AtTheBroker) || StopsFor(e, w, c, x, env, ResendExpired)
        || RetiredHere(e, w, c, x, env) || HandedOver(w, c, x, env) || m == MarkOf(w.marks, c))
  }

  /** What an order's turn did, as it stands in the history, the decisions and the outbox. */
  ghost predicate Done(e: Engine, w: World, c: Cid, x: InputId, env: Env, w': World) {
    && w'.sends[c] == w.sends[c] + (if HandedOver(w, c, x, env) then 1 else 0)
    && (if HandedOver(w, c, x, env) then c in w'.last && w'.last[c] == env.handOver(c)
        else (c in w'.last <==> c in w.last) && (c in w.last ==> w'.last[c] == w.last[c]))
    && (RetiredHere(e, w, c, x, env) ==> RetiredFor(w', c, x) || RetiredBefore(w, c))
    && (forall id :: Tells(e, w, c, x, env, id) ==> Queues(w', id))
  }

  /** No input but retirements came into the outbox or left it. */
  ghost predicate InputsKept(w: World, w': World) {
    forall en: Entry :: en.id.Plain? ==> (en in w'.outbox <==> en in w.outbox)
  }

  lemma TurnDone(e: Engine, w: World, c: Cid, x: InputId, env: Env)
    requires QueuedAsSuch(w)
    ensures var w' := Exec(w, SettleOrder(e, w, MarkOf(w.marks, c), c, x, env).acts);
            && Done(e, w, c, x, env, w') && MarkNow(e, w, c, x, env, MarkOf(w'.marks, c))
            && QueuedAsSuch(w') && InputsKept(w, w')
  {
    OrderLeaves(e, w, c, x, env);
    LeavesDone(e, w, c, x, env, Exec(w, SettleOrder(e, w, MarkOf(w.marks, c), c, x, env).acts));
  }

  lemma LeavesDone(e: Engine, w: World, c: Cid, x: InputId, env: Env, w': World)
    requires QueuedAsSuch(w) && Leaves(e, w, c, x, env, w')
    ensures Done(e, w, c, x, env, w') && MarkNow(e, w, c, x, env, MarkOf(w'.marks, c)) && QueuedAsSuch(w')
    ensures InputsKept(w, w')
  {
    forall id | Tells(e, w, c, x, env, id) ensures Queues(w', id) {
      assert RetireEntry(id) in w'.outbox;
    }
    forall en | en in w'.outbox && !en.id.Plain? ensures en.kind.Retire? {
      assert en in w.outbox || exists id :: Tells(e, w, c, x, env, id) && en == RetireEntry(id);
    }
  }

  lemma StillDone(e: Engine, w: World, c: Cid, x: InputId, env: Env, w1: World, w2: World)
    requires Done(e, w, c, x, env, w1) && SameRecords(w1, w2, c)
    ensures Done(e, w, c, x, env, w2)
  {
    SameStanding(e, w1, w2, c, x, env);
    forall id | Tells(e, w, c, x, env, id) ensures Queues(w2, id) {
      assert NamesRetirementOf(id, c) && Queues(w1, id);
    }
  }

  /** The same turn, from a world in which the order stands alike. */
  lemma DoneAlike(e: Engine, w: World, w1: World, c: Cid, x: InputId, env: Env, w2: World)
    requires SameRecords(w, w1, c) && Done(e, w1, c, x, env, w2) && MarkNow(e, w1, c, x, env, MarkOf(w2.marks, c))
    ensures Done(e, w, c, x, env, w2) && MarkNow(e, w, c, x, env, MarkOf(w2.marks, c))
  {
    SameStanding(e, w, w1, c, x, env);
  }

  /** wT is what the turns of the first n orders leave of w. */
  ghost predicate Turns(e: Engine, w: World, orders: seq<Cid>, x: InputId, env: Env, n: int, wT: World) {
    && 0 <= n <= |orders|
    && wT.waiting == w.waiting && wT.runOf == w.runOf && wT.run == w.run && wT.committed == w.committed
    && InputsKept(w, wT)
    && (forall i :: 0 <= i < n ==> Done(e, w, orders[i], x, env, wT)
                                   && MarkNow(e, w, orders[i], x, env, MarkOf(wT.marks, orders[i])))
    && (forall i :: n <= i < |orders| ==> SameRecords(w, wT, orders[i]))
    && (forall k :: k !in orders ==> SameRecords(w, wT, k))
  }

  /** After the turns of all its orders the entry is struck off and the input cleared; at a stop nothing is. */
  ghost predicate Ended(x: InputId, o: Outcome, wT: World, w': World) {
    w' == if o.GoOn? then Exec(Apply(wT, Strike({x})), ClearActs) else wT
  }

  lemma {:induction false} OrdersTurns(e: Engine, w: World, marks: map<Cid, Mark>, orders: seq<Cid>, x: InputId,
                                       env: Env)
    returns (n: int, wT: World)
    requires QueuedAsSuch(w)
    requires Distinct(orders) && forall k :: k in orders ==> MarkOf(marks, k) == MarkOf(w.marks, k)
    ensures var r := SettleOrders(e, w, marks, orders, x, env);
            && Turns(e, w, orders, x, env, n, wT) && Ended(x, r.outcome, wT, Exec(w, r.acts))
            && (if r.outcome.GoOn? then n == |orders| else FirstStop(e, w, orders, x, env, r.outcome.why, n - 1))
    decreases |orders|
  {
    if orders == [] {
      n, wT := 0, w;
      ExecCons(w, Strike({x}), ClearActs);
    } else {
      var w1, o := FirstTurn(e, w, marks, orders, x, env);
      if o.Stop? {
        n, wT := 1, w1;
        OneTurn(e, w, orders, x, env, w1);
      } else {
        RestOf(e, w, marks, orders, x, env);
        n, wT := RestTurns(e, w, w1, marks, orders, x, env);
      }
    }
  }

  lemma RestOf(e: Engine, w: World, marks: map<Cid, Mark>, orders: seq<Cid>, x: InputId, env: Env)
    requires orders != [] && SettleOrder(e, w, MarkOf(marks, orders[0]), orders[0], x, env).outcome.GoOn?
    ensures var w1 := Exec(w, SettleOrder(e, w, MarkOf(marks, orders[0]), orders[0], x, env).acts);
            var all, rest := SettleOrders(e, w, marks, orders, x, env), SettleOrders(e, w1, marks, orders[1..], x, env);
            all.outcome == rest.outcome && Exec(w, all.acts) == Exec(w1, rest.acts)
  {
    var first := SettleOrder(e, w, MarkOf(marks, orders[0]), orders[0], x, env).acts;
    OrdersGoOn(e, w, marks, orders, x, env);
    ExecConcat(w, first, SettleOrders(e, Exec(w, first), marks, orders[1..], x, env).acts);
  }

  /** What the turn of the first of the orders leaves in w1. */
  ghost predicate TurnTaken(e: Engine, w: World, c: Cid, x: InputId, env: Env, w1: World) {
    && QueuedAsSuch(w1) && Done(e, w, c, x, env, w1) && MarkNow(e, w, c, x, env, MarkOf(w1.marks, c))
    && w1.waiting == w.waiting && w1.runOf == w.runOf && w1.run == w.run && w1.committed == w.committed
    && InputsKept(w, w1) && forall k :: k != c ==> SameRecords(w, w1, k)
  }

  lemma FirstTurn(e: Engine, w: World, marks: map<Cid, Mark>, orders: seq<Cid>, x: InputId, env: Env)
    returns (w1: World, o: Outcome)
    requires QueuedAsSuch(w) && orders != [] && forall k :: k in orders ==> MarkOf(marks, k) == MarkOf(w.marks, k)
    ensures var r := SettleOrder(e, w, MarkOf(marks, orders[0]), orders[0], x, env);
            && w1 == Exec(w, r.acts) && o == r.outcome
            && (o.Stop? ==> SettleOrders(e, w, marks, orders, x, env) == r)
            && (o.Stop? ==> FirstStop(e, w, orders, x, env, o.why, 0))
    ensures o.GoOn? <==> !Stops(e, w, orders[0], x, env)
    ensures TurnTaken(e, w, orders[0], x, env, w1)
  {
    var c := orders[0];
    assert c in orders;
    var r := SettleOrder(e, w, MarkOf(marks, c), c, x, env);
    w1, o := Exec(w, r.acts), r.outcome;
    TurnDone(e, w, c, x, env);
    TurnKeeps(e, w, MarkOf(marks, c), c, x, env);
    OrderStops(e, w, c, x, env);
  }

  lemma OneTurn(e: Engine, w: World, orders: seq<Cid>, x: InputId, env: Env, w1: World)
    requires orders != [] && Distinct(orders) && TurnTaken(e, w, orders[0], x, env, w1)
    ensures Turns(e, w, orders, x, env, 1, w1)
  {
    forall i | 1 <= i < |orders| ensures SameRecords(w, w1, orders[i]) { assert orders[i] != orders[0]; }
    forall k | k !in orders ensures SameRecords(w, w1, k) { assert orders[0] in orders; }
  }

  lemma {:induction false} RestTurns(e: Engine, w: World, w1: World, marks: map<Cid, Mark>, orders: seq<Cid>,
                                     x: InputId, env: Env)
    returns (n: int, wT: World)
    requires orders != [] && Distinct(orders) && forall k :: k in orders ==> MarkOf(marks, k) == MarkOf(w.marks, k)
    requires !Stops(e, w, orders[0], x, env) && TurnTaken(e, w, orders[0], x, env, w1)
    ensures var r := SettleOrders(e, w1, marks, orders[1..], x, env);
            && Turns(e, w, orders, x, env, n, wT) && Ended(x, r.outcome, wT, Exec(w1, r.acts))
            && (if r.outcome.GoOn? then n == |orders| else FirstStop(e, w, orders, x, env, r.outcome.why, n - 1))
    decreases |orders|, 0
  {
    RestAlike(w, w1, marks, orders);
    var m;
    m, wT := OrdersTurns(e, w1, marks, orders[1..], x, env);
    n := m + 1;
    MoreTurns(e, w, w1, orders, x, env, m, wT);
    StopsLater(e, w, w1, orders, x, env, SettleOrders(e, w1, marks, orders[1..], x, env).outcome, m - 1);
  }

  lemma StopsLater(e: Engine, w: World, w1: World, orders: seq<Cid>, x: InputId, env: Env, o: Outcome, i: int)
    requires orders != [] && !Stops(e, w, orders[0], x, env)
    requires forall k :: k in orders[1..] ==> SameRecords(w, w1, k)
    requires o.Stop? ==> FirstStop(e, w1, orders[1..], x, env, o.why, i)
    ensures o.Stop? ==> FirstStop(e, w, orders, x, env, o.why, i + 1)
  {
    if o.Stop? {
      SameStops(e, w, w1, orders[1..], x, env);
      FirstLater(e, w, w1, orders, x, env, o.why, i);
    }
  }

  lemma RestAlike(w: World, w1: World, marks: map<Cid, Mark>, orders: seq<Cid>)
    requires orders != [] && Distinct(orders) && forall k :: k in orders ==> MarkOf(marks, k) == MarkOf(w.marks, k)
    requires forall k :: k != orders[0] ==> SameRecords(w, w1, k)
    ensures Distinct(orders[1..])
    ensures forall k :: k in orders[1..] ==> SameRecords(w, w1, k) && MarkOf(marks, k) == MarkOf(w1.marks, k)
  {
    forall k | k in orders[1..]
      ensures SameRecords(w, w1, k) && MarkOf(marks, k) == MarkOf(w1.marks, k)
    {
      assert k in orders && k != orders[0];
    }
  }

  lemma MoreTurns(e: Engine, w: World, w1: World, orders: seq<Cid>, x: InputId, env: Env, m: int, wT: World)
    requires orders != [] && Distinct(orders) && Turns(e, w1, orders[1..], x, env, m, wT)
    requires TurnTaken(e, w, orders[0], x, env, w1)
    ensures Turns(e, w, orders, x, env, m + 1, wT)
  {
    var rest := orders[1..];
    assert orders[0] !in rest;
    forall i | 0 <= i < m + 1
      ensures Done(e, w, orders[i], x, env, wT) && MarkNow(e, w, orders[i], x, env, MarkOf(wT.marks, orders[i]))
    {
      if i == 0 {
        StillDone(e, w, orders[0], x, env, w1, wT);
      } else {
        assert orders[i] == rest[i - 1];
        DoneAlike(e, w, w1, orders[i], x, env, wT);
      }
    }
    forall i | m + 1 <= i < |orders| ensures SameRecords(w, wT, orders[i]) {
      assert orders[i] == rest[i - 1];
      SameThrough(w, w1, wT, orders[i]);
    }
    forall k | k !in orders ensures SameRecords(w, wT, k) {
      assert k !in rest && k != orders[0];
      SameThrough(w, w1, wT, k);
    }
  }

  lemma SameThrough(w: World, w1: World, w2: World, k: Cid)
    requires SameRecords(w, w1, k) && SameRecords(w1, w2, k)
    ensures SameRecords(w, w2, k)
  {
  }

  // ----- The theorems -----

  lemma AskedAlike(e: Engine, w: World, x: InputId)
    requires e.OneRelease() && QueuedAsSuch(w)
    ensures var asked := Exec(w, [Save(x), Ask(x)]);
            && asked == w.(waiting := Some(x), committed := w.committed + {x})
            && QueuedAsSuch(asked) && InputsKept(w, asked)
            && (forall k :: SameRecords(w, asked, k)) && Distinct(e.Released(x))
  {
    ExecTwo(w, Save(x), Ask(x));
  }

  /** What a pass over an input leaves in w', with the turns of its first n orders taken: it goes on exactly when no
      order the input releases stops it. Then each order's turn is done, the entry is struck off and the input, its
      marks and its notes are cleared. Otherwise it stops for the reason of the first order that stops it: the turns up
      to that one are done, the orders behind it are left as they were, and the input goes on awaiting its reply, its
      entry in the outbox. No other input leaves the outbox. */
  ghost predicate Passed(e: Engine, w: World, x: InputId, env: Env, o: Outcome, w': World, n: int) {
    var orders := e.Released(x);
    && (o.GoOn? <==> forall c :: c in orders ==> !Stops(e, w, c, x, env))
    && (o.GoOn? ==> n == |orders| && Cleared(w, x, w'))
    && (o.Stop? ==>
          && FirstStop(e, w, orders, x, env, o.why, n - 1)
          && w'.waiting == Some(x) && w'.runOf == w.runOf && InputsKept(w, w')
          && (forall j :: 0 <= j < n ==> MarkNow(e, w, orders[j], x, env, MarkOf(w'.marks, orders[j])))
          && (forall j :: n <= j < |orders| ==> SameRecords(w, w', orders[j])))
    && (forall j :: 0 <= j < n ==> Done(e, w, orders[j], x, env, w'))
  }

  /** The input is saved and asked for: the orders and the entries stand as before. */
  ghost predicate AsksFor(w: World, x: InputId, asked: World) {
    && asked.waiting == Some(x) && asked.runOf == w.runOf && InputsKept(w, asked)
    && forall k :: SameRecords(w, asked, k)
  }

  lemma PassesOn(e: Engine, w: World, asked: World, x: InputId, env: Env, wT: World, w': World)
    requires e.OneRelease() && AsksFor(w, x, asked)
    requires Turns(e, asked, e.Released(x), x, env, |e.Released(x)|, wT) && Ended(x, GoOn, wT, w')
    requires forall c :: c in e.Released(x) ==> !Stops(e, asked, c, x, env)
    ensures Passed(e, w, x, env, GoOn, w', |e.Released(x)|)
  {
    var orders := e.Released(x);
    SameStops(e, w, asked, orders, x, env);
    TurnsFrom(e, w, asked, orders, x, env, |orders|, wT);
    assert x.Plain? || orders == [] by {
      assert |orders| > 0 ==> orders[0] in e.Released(x);
    }
    ClearedAfter(e, w, orders, x, env, wT, w');
  }

  lemma PassStops(e: Engine, w: World, asked: World, x: InputId, env: Env, why: StopReason, n: int, wT: World)
    requires AsksFor(w, x, asked)
    requires Turns(e, asked, e.Released(x), x, env, n, wT) && FirstStop(e, asked, e.Released(x), x, env, why, n - 1)
    ensures Passed(e, w, x, env, Stop(why), wT, n)
  {
    var orders := e.Released(x);
    StopsFrom(e, w, asked, orders, x, env, why, n - 1);
    TurnsFrom(e, w, asked, orders, x, env, n, wT);
    assert orders[n - 1] in orders && Stops(e, w, orders[n - 1], x, env);
  }

  lemma PassIs(e: Engine, w: World, x: InputId, env: Env)
    requires env.reply.Replied?
    ensures var asked := Exec(w, [Save(x), Ask(x)]);
            var rest, r := SettleOrders(e, asked, asked.marks, e.Released(x), x, env), Pass(e, w, x, env);
            r.outcome == rest.outcome && Exec(w, r.acts) == Exec(asked, rest.acts)
  {
    var asked := Exec(w, [Save(x), Ask(x)]);
    ExecConcat(w, [Save(x), Ask(x)], SettleOrders(e, asked, asked.marks, e.Released(x), x, env).acts);
  }

  lemma PassResult(e: Engine, w: World, x: InputId, env: Env) returns (n: int)
    requires e.OneRelease() && QueuedAsSuch(w) && env.reply.Replied?
    ensures var r := Pass(e, w, x, env); Passed(e, w, x, env, r.outcome, Exec(w, r.acts), n)
  {
    var asked, orders := Exec(w, [Save(x), Ask(x)]), e.Released(x);
    AskedAlike(e, w, x);
    PassIs(e, w, x, env);
    var o := SettleOrders(e, asked, asked.marks, orders, x, env).outcome;
    var wT;
    n, wT := OrdersTurns(e, asked, asked.marks, orders, x, env);
    if o.GoOn? {
      OrdersOutcome(e, asked, asked.marks, orders, x, env);
      PassesOn(e, w, asked, x, env, wT, Exec(w, Pass(e, w, x, env).acts));
    } else {
      PassStops(e, w, asked, x, env, o.why, n, wT);
    }
  }

  /** The input the drain's turn exchanges: the one that awaits its reply, unless it was sent to an earlier run;
      with none, the entry at i, unless a settlement names it or the running engine has committed it. */
  ghost predicate Exchanges(w: World, i: nat, x: InputId) {
    if w.waiting.Some? then
      x == w.waiting.value && (x in w.committed || (w.runOf.Some? && w.runOf.value == RunRecord(x, w.run)))
    else
      && i < |w.outbox| && x == w.outbox[i].id && x !in w.committed
      && !exists s :: s in w.ended && Names(s, x)
  }

  /** A settlement of an ended run names the input: its own, or one recorded behind it. */
  predicate Names(s: EndedInput, x: InputId) {
    s.input == x || exists en :: en in s.outbox && en.id == x
  }

  lemma NamedIs(w: World, x: InputId)
    ensures x in RunEndedIds(w) <==> exists s :: s in w.ended && Names(s, x)
  {
    if x in RunEndedIds(w) {
      var s :| s in w.ended && x in {s.input} + Ids(s.outbox);
      assert Names(s, x);
    }
    if exists s :: s in w.ended && Names(s, x) {
      var s :| s in w.ended && Names(s, x);
      assert x in {s.input} + Ids(s.outbox);
    }
  }

  /** What a turn of the drain leaves of the world the exchange begins in: the run is recorded before a new input. */
  function Recorded1(w: World, x: InputId): World {
    if w.waiting.Some? then w else w.(runOf := Some(RunRecord(x, w.run)))
  }

  /** What is left when the turn exchanges no input: nothing is written but, at most, the strike of an entry that is
      done with; an input of an earlier run stops the drain. */
  ghost predicate NotExchanged(w: World, i: nat, o: Outcome, w': World) {
    if w.waiting.Some? then o == Stop(NoReply) && w' == w
    else o.GoOn? && w' == if i >= |w.outbox| then w else w.(outbox := Without(w.outbox, {w.outbox[i].id}))
  }

  /** One turn of the drain exchanges the input it is due, and nothing else. */
  lemma DrainResult(e: Engine, w: World, i: nat, env: Env) returns (n: int)
    requires e.OneRelease() && QueuedAsSuch(w) && env.reply.Replied?
    ensures var r := Drain(e, w, i, env);
            var w' := Exec(w, r.acts);
            && (forall x :: Exchanges(w, i, x) ==> Passed(e, Recorded1(w, x), x, env, r.outcome, w', n))
            && ((forall x :: !Exchanges(w, i, x)) ==> NotExchanged(w, i, r.outcome, w'))
  {
    n := 0;
    if w.waiting.Some? {
      if !EarlierRun(w) { n := PassResult(e, w, w.waiting.value, env); }
      assert EarlierRun(w) <==> !Exchanges(w, i, w.waiting.value);
    } else if i < |w.outbox| {
      var x := w.outbox[i].id;
      NamedIs(w, x);
      if Exchanges(w, i, x) {
        n := EntryResult(e, w, i, env);
      } else {
        DoneWith(e, w, i, env);
      }
    }
  }

  lemma EntryResult(e: Engine, w: World, i: nat, env: Env) returns (n: int)
    requires e.OneRelease() && QueuedAsSuch(w) && env.reply.Replied? && w.waiting.None? && i < |w.outbox|
    requires Exchanges(w, i, w.outbox[i].id)
    ensures var r, x := Drain(e, w, i, env), w.outbox[i].id;
            Passed(e, Recorded1(w, x), x, env, r.outcome, Exec(w, r.acts), n)
  {
    var x := w.outbox[i].id;
    var one := RecordRun(x, w.run);
    NamedIs(w, x);
    n := PassResult(e, Apply(w, one), x, env);
    ExecCons(w, one, Pass(e, Apply(w, one), x, env).acts);
  }

  lemma DoneWith(e: Engine, w: World, i: nat, env: Env)
    requires w.waiting.None? && i < |w.outbox| && !Exchanges(w, i, w.outbox[i].id)
    ensures var r := Drain(e, w, i, env); NotExchanged(w, i, r.outcome, Exec(w, r.acts))
  {
    NamedIs(w, w.outbox[i].id);
    assert [Strike({w.outbox[i].id})][1..] == [];
  }

  /** Without a reply the turn stops: the input awaits one, sent to the running run, its entry in the outbox, and
      nothing is handed over, decided or marked; the engine has committed it where it got that far. */
  lemma NoReplyKeeps(e: Engine, w: World, i: nat, x: InputId, env: Env)
    requires Exchanges(w, i, x) && !env.reply.Replied?
    ensures var r := Drain(e, w, i, env);
            var w' := Exec(w, r.acts);
            && r.outcome == Stop(NoReply) && w'.waiting == Some(x) && w'.runOf == Recorded1(w, x).runOf
            && w'.marks == w.marks && w'.decisions == w.decisions && w'.outbox == w.outbox && w'.sends == w.sends
            && w'.committed == if env.reply.CommittedOnly? then w.committed + {x} else w.committed
  {
    NamedIs(w, x);
    var w1 := if w.waiting.Some? then w else Apply(w, RecordRun(x, w.run));
    var acts := Pass(e, w1, x, env).acts;
    ExecConcat(w, [RecordRun(x, w.run)], acts);
    assert Exec(w, [RecordRun(x, w.run)]) == Apply(w, RecordRun(x, w.run)) by {
      assert [RecordRun(x, w.run)][1..] == [];
    }
    assert [Save(x)][1..] == [];
    ExecTwo(w1, Save(x), Ask(x));
  }

  /** The input's entry is struck off, and nothing of it is left on file; no other input leaves the outbox. */
  ghost predicate Cleared(w: World, x: InputId, w': World) {
    && w'.waiting.None? && w'.marks == map[] && w'.refusal.None? && w'.notHandedOver.None? && w'.runOf.None?
    && forall en: Entry :: en.id.Plain? ==> (en in w'.outbox <==> en in w.outbox && en.id != x)
  }

  lemma TurnsFrom(e: Engine, w: World, w1: World, orders: seq<Cid>, x: InputId, env: Env, n: int, wT: World)
    requires Turns(e, w1, orders, x, env, n, wT) && (forall k :: SameRecords(w, w1, k)) && InputsKept(w, w1)
    ensures InputsKept(w, wT)
    ensures forall j :: 0 <= j < n ==> Done(e, w, orders[j], x, env, wT)
                                       && MarkNow(e, w, orders[j], x, env, MarkOf(wT.marks, orders[j]))
    ensures forall j :: n <= j < |orders| ==> SameRecords(w, wT, orders[j])
  {
    forall j | 0 <= j < n
      ensures Done(e, w, orders[j], x, env, wT) && MarkNow(e, w, orders[j], x, env, MarkOf(wT.marks, orders[j]))
    {
      DoneAlike(e, w, w1, orders[j], x, env, wT);
    }
    forall j | n <= j < |orders| ensures SameRecords(w, wT, orders[j]) { SameThrough(w, w1, wT, orders[j]); }
  }

  lemma StopsFrom(e: Engine, w: World, w1: World, orders: seq<Cid>, x: InputId, env: Env, why: StopReason, i: int)
    requires FirstStop(e, w1, orders, x, env, why, i) && forall k :: SameRecords(w, w1, k)
    ensures FirstStop(e, w, orders, x, env, why, i)
  {
    SameStops(e, w, w1, orders, x, env);
  }

  lemma ClearedAfter(e: Engine, w: World, orders: seq<Cid>, x: InputId, env: Env, wT: World, w': World)
    requires x.Plain? || orders == []
    requires wT.waiting == Some(x) && InputsKept(w, wT) && w' == Exec(Apply(wT, Strike({x})), ClearActs)
    requires forall j :: 0 <= j < |orders| ==> Done(e, w, orders[j], x, env, wT)
    ensures Cleared(w, x, w') && forall j :: 0 <= j < |orders| ==> Done(e, w, orders[j], x, env, w')
  {
    var struck := Apply(wT, Strike({x}));
    ClearResult(struck);
    forall en ensures en in struck.outbox <==> en in wT.outbox && en.id != x { WithoutMember(wT.outbox, {x}, en); }
    forall j | 0 <= j < |orders| ensures Done(e, w, orders[j], x, env, w') {
      DoneAfterClear(e, w, orders[j], x, env, wT, w');
    }
  }

  lemma DoneAfterClear(e: Engine, w: World, c: Cid, x: InputId, env: Env, wT: World, w': World)
    requires x.Plain? && Done(e, w, c, x, env, wT)
    requires w'.sends == wT.sends && w'.last == wT.last && w'.decisions == wT.decisions
    requires forall en :: en in w'.outbox <==> en in wT.outbox && en.id != x
    ensures Done(e, w, c, x, env, w')
  {
    forall id | Tells(e, w, c, x, env, id) ensures Queues(w', id) { assert Queues(wT, id) && id != x; }
  }

  // ----- A never-sent mark has a never-sent decision behind it, in every run -----

  ghost predicate MarksBacked(w: World) {
    forall c :: Marked(w, c, NeverSent) ==> SaidNeverSent(w, c)
  }

  lemma AllowedBacks(e: Engine, w: World, a: Act)
    requires MarksBacked(w) && Allowed(e, w, a)
    ensures MarksBacked(Apply(w, a))
  {
    var w' := Apply(w, a);
    if a.Decide? { MembersAppend(w.decisions, Tagged(w, a.d)); }
    forall c | Marked(w', c, NeverSent) ensures SaidNeverSent(w', c) {
      assert SaidNeverSent(w, c);
    }
  }

  lemma {:induction false} LegalBacks(e: Engine, w: World, acts: seq<Act>, k: nat)
    requires MarksBacked(w) && Legal(e, w, acts) && k <= |acts|
    ensures MarksBacked(Exec(w, acts[..k]))
    decreases k
  {
    if k == 0 {
      assert acts[..k] == [];
    } else {
      AllowedBacks(e, w, acts[0]);
      CutOne(w, acts, k);
      LegalBacks(e, Apply(w, acts[0]), acts[1..], k - 1);
    }
  }

  lemma StepBacks(e: Engine, w: World, ev: Event)
    requires e.OneRelease() && Inv(e, w) && OpSound(e, ev.op) && MarksBacked(w)
    ensures MarksBacked(Step(e, w, ev))
  {
    var acts := Acts(e, w, ev.op);
    var k := Min(ev.cut, |acts|);
    ActsLegal(e, w, ev.op);
    LegalBacks(e, w, acts, k);
    CrashBacks(Exec(w, acts[..k]));
  }

  lemma CrashBacks(w: World)
    ensures MarksBacked(Apply(w, Crash)) <==> MarksBacked(w)
  {
    forall c ensures SaidNeverSent(Apply(w, Crash), c) <==> SaidNeverSent(w, c) {}
  }

  lemma {:induction false} RunBacks(e: Engine, w: World, evs: seq<Event>)
    requires e.OneRelease() && Inv(e, w) && Sound(e, evs) && MarksBacked(w)
    ensures MarksBacked(RunOf(e, w, evs))
    decreases |evs|
  {
    if evs != [] {
      StepBacks(e, w, evs[0]);
      StepKeeps(e, w, evs[0]);
      RunBacks(e, Step(e, w, evs[0]), evs[1..]);
    }
  }

  lemma ReachedBacked(e: Engine, w: World, evs: seq<Event>)
    requires e.OneRelease() && Initial(w) && Sound(e, evs)
    ensures var w' := RunOf(e, w, evs); Inv(e, w') && MarksBacked(w') && QueuedAsSuch(w')
  {
    InitialInv(e, w);
    RunKeeps(e, w, evs);
    RunBacks(e, w, evs);
  }

  // ----- When a pass goes on, every order is accounted for -----

  /** The relay had sent it or seen it at IBKR, or its mark says sent; or IBKR shows it; or the sender took it in this
      pass; or it is not shown, this pass did not hand it over, and it was marked never sent or is retired in this pass,
      with a decision that says never sent. */
  ghost predicate AccountedFor(w: World, c: Cid, x: InputId, env: Env, w': World) {
    || c in w.sent || Marked(w, c, Sent)
    || (c in env.broker && !Marked(w, c, NeverSent) && !Marked(w, c, AtBroker))
    || (w'.sends[c] == w.sends[c] + 1 && c in w'.last && w'.last[c].Returned?)
    || (&& c !in env.broker && w'.sends[c] == w.sends[c] && (c !in w.marks || Marked(w, c, NeverSent))
        && SaidNeverSent(w', c))
  }

  lemma DoneAccounts(e: Engine, w: World, asked: World, c: Cid, x: InputId, env: Env, w': World)
    requires MarksBacked(w) && OrderInv(e, asked, c) && Releases(e, asked, c) && asked.waiting == Some(x)
    requires asked.marks == w.marks
    requires !Stops(e, w, c, x, env) && Done(e, w, c, x, env, w')
    requires forall d :: d in w.decisions ==> d in w'.decisions
    ensures AccountedFor(w, c, x, env, w')
  {
    assert forall why :: !StopsFor(e, w, c, x, env, why);
    assert !StopsFor(e, w, c, x, env, AtTheBroker) && !StopsFor(e, w, c, x, env, HandoverUnconfirmed);
    assert !StopsFor(e, w, c, x, env, ResendExpired) && !StopsFor(e, w, c, x, env, NotSendable);
    assert !StopsFor(e, w, c, x, env, RecordInvalid);
    if RetiredHere(e, w, c, x, env) {
      RetiredIsSaid(w, c, x, w');
    } else if !Known(w, c) && Marked(w, c, NeverSent) {
      assert SaidNeverSent(w, c);
    }
  }

  lemma RetiredIsSaid(w: World, c: Cid, x: InputId, w': World)
    requires RetiredFor(w', c, x) || RetiredBefore(w, c)
    requires forall d :: d in w.decisions ==> d in w'.decisions
    ensures SaidNeverSent(w', c)
  {
    if RetiredFor(w', c, x) {
      var d :| d in w'.decisions && d.cid == c && d.verdict.Retired? && d.input == Some(x);
    } else {
      var i :| LastRetiredOn(w.decisions, c, i) && w.decisions[i].input.None?;
      assert w.decisions[i] in w'.decisions;
    }
  }

  lemma {:induction false} DecisionsGrow(w: World, acts: seq<Act>)
    ensures forall d :: d in w.decisions ==> d in Exec(w, acts).decisions
    decreases |acts|
  {
    if acts != [] { DecisionsGrow(Apply(w, acts[0]), acts[1..]); }
  }

  /** A pass that goes on leaves no order of its input unaccounted for. */
  lemma PassAccounts(e: Engine, w: World, x: InputId, env: Env)
    requires e.OneRelease() && Inv(e, w) && MarksBacked(w) && Allowed(e, w, Save(x))
    requires w.runOf == Some(RunRecord(x, w.run)) && x !in RunEndedIds(w) && Pass(e, w, x, env).outcome.GoOn?
    ensures forall c :: c in e.Released(x) ==> AccountedFor(w, c, x, env, Exec(w, Pass(e, w, x, env).acts))
  {
    var asked, w' := Exec(w, [Save(x), Ask(x)]), Exec(w, Pass(e, w, x, env).acts);
    AskedKeeps(e, w, x);
    AskedAlike(e, w, x);
    AllDone(e, w, x, env);
    DecisionsGrow(w, Pass(e, w, x, env).acts);
    forall c | c in e.Released(x) ensures AccountedFor(w, c, x, env, w') {
      assert OrderInv(e, asked, c);
      DoneAccounts(e, w, asked, c, x, env, w');
    }
  }

  /** A pass that goes on has done every order's turn, and nothing stopped one. */
  lemma AllDone(e: Engine, w: World, x: InputId, env: Env)
    requires e.OneRelease() && QueuedAsSuch(w) && Pass(e, w, x, env).outcome.GoOn?
    ensures forall c :: c in e.Released(x) ==>
              !Stops(e, w, c, x, env) && Done(e, w, c, x, env, Exec(w, Pass(e, w, x, env).acts))
  {
    var n := PassResult(e, w, x, env);
    forall c | c in e.Released(x)
      ensures !Stops(e, w, c, x, env) && Done(e, w, c, x, env, Exec(w, Pass(e, w, x, env).acts))
    {
      var j :| 0 <= j < |e.Released(x)| && e.Released(x)[j] == c;
    }
  }

  /** In every reachable world, of the input that awaits its reply. */
  lemma GoesOnAccounted(e: Engine, w: World, evs: seq<Event>, i: nat, env: Env)
    requires e.OneRelease() && Initial(w) && Sound(e, evs)
    requires var w0 := RunOf(e, w, evs); w0.waiting.Some? && Drain(e, w0, i, env).outcome.GoOn?
    ensures var w0 := RunOf(e, w, evs);
            var x, w' := w0.waiting.value, Exec(w0, Drain(e, w0, i, env).acts);
            forall c :: c in e.Released(x) ==> AccountedFor(w0, c, x, env, w')
  {
    ReachedBacked(e, w, evs);
    PassAccounts(e, RunOf(e, w, evs), RunOf(e, w, evs).waiting.value, env);
  }

  /** An order still marked as being handed over, that the relay does not remember and IBKR does not show, stops every
      pass over its input: at it or before it, with its mark and its input kept. */
  lemma UnconfirmedStops(e: Engine, w: World, i: nat, env: Env, c: Cid)
    requires e.OneRelease() && QueuedAsSuch(w) && env.reply.Replied?
    requires w.waiting.Some? && !EarlierRun(w) && c in e.Released(w.waiting.value)
    requires Marked(w, c, HandingOver) && c !in w.sent && c !in env.broker
    ensures var r := Drain(e, w, i, env);
            var w' := Exec(w, r.acts);
            r.outcome.Stop? && Marked(w', c, HandingOver) && w'.waiting == w.waiting && InputsKept(w, w')
  {
    var x := w.waiting.value;
    var orders := e.Released(x);
    var n := PassResult(e, w, x, env);
    assert StopsFor(e, w, c, x, env, HandoverUnconfirmed);
    var j :| 0 <= j < |orders| && orders[j] == c;
    var w' := Exec(w, Drain(e, w, i, env).acts);
    assert n <= j || MarkNow(e, w, c, x, env, MarkOf(w'.marks, c));
  }
}
