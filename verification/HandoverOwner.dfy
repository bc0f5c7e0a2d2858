/** What the owner's decisions on an order require, leave and mean (adapter/ibkr/relay.py:1534-1610, 1956-2013). */
module HandoverOwner {
  import opened Wrappers
  import opened Handover
  import opened HandoverRuns
  import opened HandoverKeeps
  import opened HandoverTheorems
  import opened HandoverPass

  /** The relay noted this order of the waiting input. */
  predicate NotedFor(w: World, note: Option<Refusal>, c: Cid) {
    note.Some? && w.waiting.Some? && note.value.input == w.waiting.value && note.value.cid == c
  }

  /** When the owner's decision is accepted. */
  predicate Accepts(e: Engine, w: World, c: Cid, v: Verdict, today: Day) {
    match v
    case NotHandedOver => Marked(w, c, HandingOver) && NotedFor(w, w.notHandedOver, c)
    case DecidedNeverSent => c !in w.marks && NotedFor(w, w.refusal, c) && !w.refusal.value.unsendable
    case DecidedSent => c in w.marks && !Marked(w, c, Sent)
    case DecidedResend =>
      && Marked(w, c, HandingOver) && w.waiting.Some?
      && w.waiting.value in e.sessions && e.sessions[w.waiting.value] == today
    case Retired => false
    case FoundAtBroker => false
  }

  /** What it leaves: the mark it calls for, the decision the last one on the order, and nothing sent; an order
      marked sent after it was settled never sent has no retirement left in the outbox, and every other entry stays. */
  ghost predicate Settles(w: World, c: Cid, v: Verdict, today: Day, w': World) {
    && w'.marks == w.marks[c := if v == DecidedSent then Sent else if v == DecidedResend then Resend(today)
                                else NeverSent]
    && (exists i :: LastOn(w'.decisions, c, i) && w'.decisions[i].verdict == v && w'.decisions[i].input == w.waiting)
    && (forall d :: d in w'.decisions ==> d in w.decisions || d.cid == c)
    && (forall d :: d in w.decisions ==> d in w'.decisions)
    && (forall en :: en in w'.outbox <==>
          en in w.outbox
          && !(v.DecidedSent? && (Marked(w, c, NeverSent) || Marked(w, c, AtBroker)) && NamesRetirementOf(en.id, c)))
    && w'.sends == w.sends && w'.last == w.last && w'.waiting == w.waiting
  }

  /** The decision is accepted exactly so, and leaves exactly this. */
  lemma ResolveResult(e: Engine, w: World, c: Cid, v: Verdict, today: Day)
    requires QueuedAsSuch(w)
    ensures Resolve(e, w, c, v, today).Some? <==> Accepts(e, w, c, v, today)
    ensures Accepts(e, w, c, v, today) ==> Settles(w, c, v, today, Exec(w, Resolve(e, w, c, v, today).value))
  {
    if Accepts(e, w, c, v, today) {
      var d := Decision(c, v, w.waiting, None, None, true);
      if v.DecidedSent? && (Marked(w, c, NeverSent) || Marked(w, c, AtBroker)) {
        FindingSettles(w, c, today);
      } else {
        var m := match v case DecidedSent => Sent case DecidedResend => Resend(today) case _ => NeverSent;
        ExecTwo(w, Decide(d), SetMark(c, m));
        DecidedLast(w, d);
      }
    }
  }

  lemma DecidedLast(w: World, d: Decision)
    ensures var ds := Apply(w, Decide(d)).decisions;
            && LastOn(ds, d.cid, |w.decisions|) && ds[|w.decisions|].verdict == d.verdict
            && ds[|w.decisions|].input == d.input
            && (forall k :: k in ds ==> k in w.decisions || k.cid == d.cid)
            && (forall k :: k in w.decisions ==> k in ds)
  {
  }

  /** The owner found it at IBKR: the mark that stops the relay, the finding, the strike, and only then the mark
      sent. */
  lemma FindingSettles(w: World, c: Cid, today: Day)
    requires QueuedAsSuch(w) && (Marked(w, c, NeverSent) || Marked(w, c, AtBroker))
    ensures var d := Decision(c, DecidedSent, w.waiting, None, None, true);
            var acts := (if MarkOf(w.marks, c) == Some(AtBroker) then [] else [SetMark(c, AtBroker)])
                        + (if LastDecided(w, c, DecidedSent, w.waiting) then [] else [Decide(d)])
                        + [Strike(RetirementsOf(w.outbox, c)), SetMark(c, Sent)];
            Settles(w, c, DecidedSent, today, Exec(w, acts))
  {
    var d := Decision(c, DecidedSent, w.waiting, None, None, true);
    var ids := RetirementsOf(w.outbox, c);
    FindingWorld(w, c, d);
    if LastDecided(w, c, DecidedSent, w.waiting) {
      var i := LastDecisionFound(w.decisions, c);
      LastDecisionAt(w.decisions, c, i);
    } else {
      DecidedLast(w, d);
    }
    forall en ensures en in Without(w.outbox, ids) <==> en in w.outbox && !NamesRetirementOf(en.id, c) {
      WithoutMember(w.outbox, ids, en);
    }
  }

  lemma FindingWorld(w: World, c: Cid, d: Decision)
    ensures var one := if MarkOf(w.marks, c) == Some(AtBroker) then [] else [SetMark(c, AtBroker)];
            var two := if LastDecided(w, c, DecidedSent, w.waiting) then [] else [Decide(d)];
            var ids := RetirementsOf(w.outbox, c);
            var w' := Exec(w, one + two + [Strike(ids), SetMark(c, Sent)]);
            && w'.marks == w.marks[c := Sent] && w'.outbox == Without(w.outbox, ids)
            && w'.decisions == (if two == [] then w.decisions else Apply(w, Decide(d)).decisions)
            && w'.sends == w.sends && w'.last == w.last && w'.waiting == w.waiting
  {
    var one := if MarkOf(w.marks, c) == Some(AtBroker) then [] else [SetMark(c, AtBroker)];
    var two := if LastDecided(w, c, DecidedSent, w.waiting) then [] else [Decide(d)];
    var last := [Strike(RetirementsOf(w.outbox, c)), SetMark(c, Sent)];
    ExecThrough(w, one, two, last);
    ExecAtMostOne(w, one);
    var w1 := Exec(w, one);
    assert w1.decisions == w.decisions && w1.runOf == w.runOf && w1.outbox == w.outbox;
    ExecAtMostOne(w1, two);
    ExecTwo(Exec(w1, two), last[0], last[1]);
    assert w.marks[c := AtBroker][c := Sent] == w.marks[c := Sent];
  }

  lemma ExecThrough(w: World, a: seq<Act>, b: seq<Act>, c: seq<Act>)
    ensures Exec(w, a + b + c) == Exec(Exec(Exec(w, a), b), c)
  {
    ExecConcat(w, a, b);
    ExecConcat(w, a + b, c);
  }

  lemma ExecAtMostOne(w: World, acts: seq<Act>)
    requires |acts| <= 1
    ensures Exec(w, acts) == if acts == [] then w else Apply(w, acts[0])
  {
    if acts != [] { assert acts[1..] == []; }
  }

  /** What an accepted decision rests on, in every run: an order settled as not handed over was handed over last to a
      sender that said nothing left it; one settled never sent was never handed over; the waiting input released it. */
  lemma AcceptedIsTrue(e: Engine, w: World, evs: seq<Event>, c: Cid, v: Verdict, today: Day)
    requires e.OneRelease() && Initial(w) && Sound(e, evs)
    requires Accepts(e, RunOf(e, w, evs), c, v, today)
    ensures var w' := RunOf(e, w, evs);
            && (v.NotHandedOver? ==> Releases(e, w', c) && c in w'.last && w'.last[c].NothingHandedOver?)
            && (v.DecidedNeverSent? ==> Releases(e, w', c) && w'.sends[c] == 0)
  {
    ReachedBacked(e, w, evs);
    assert OrderInv(e, RunOf(e, w, evs), c);
  }

  // ----- retire -----

  /** The relay stopped at the order as one IBKR can never accept. */
  predicate MayRetire(w: World, c: Cid) {
    c !in w.marks && NotedFor(w, w.refusal, c) && w.refusal.value.unsendable
  }

  /** The order is marked never sent and its retirement recorded for the input, and queued unless it is already. */
  ghost predicate Retires(w: World, c: Cid, w': World)
    requires w.waiting.Some?
  {
    && w'.marks == w.marks[c := NeverSent] && RetiredFor(w', c, w.waiting.value)
    && (forall en :: en in w'.outbox <==>
          en in w.outbox || (!Queues(w, Retirement(c)) && en == RetireEntry(Retirement(c))))
    && w'.sends == w.sends && w'.last == w.last && w'.waiting == w.waiting
  }

  /** The owner's retirement is accepted exactly so, and leaves exactly this. */
  lemma RetireResult(w: World, c: Cid)
    ensures OwnerRetire(w, c).Some? <==> MayRetire(w, c)
    ensures MayRetire(w, c) ==> Retires(w, c, Exec(w, OwnerRetire(w, c).value))
  {
    if OwnerRetire(w, c).Some? {
      var x := w.waiting.value;
      RetireLeaves(w, c, Retirement(c), x);
      RetireWaits(w, RetireActs(w, c, Retirement(c), x));
      var d := Tagged(w, Decision(c, Retired, Some(x), None, None, true));
      assert d in Exec(w, RetireActs(w, c, Retirement(c), x)).decisions;
      MembersAppend(w.outbox, RetireEntry(Retirement(c)));
    }
  }

  lemma {:induction false} RetireWaits(w: World, acts: seq<Act>)
    requires forall i :: 0 <= i < |acts| ==> acts[i].Queue? || acts[i].Decide? || acts[i].SetMark?
    ensures Exec(w, acts).waiting == w.waiting
    decreases |acts|
  {
    if acts != [] { RetireWaits(Apply(w, acts[0]), acts[1..]); }
  }

  /** In every run it is of an order never handed over. */
  lemma RetiredUnsent(e: Engine, w: World, evs: seq<Event>, c: Cid)
    requires e.OneRelease() && Initial(w) && Sound(e, evs) && OwnerRetire(RunOf(e, w, evs), c).Some?
    ensures var w' := RunOf(e, w, evs); Releases(e, w', c) && w'.sends[c] == 0
  {
    ReachedBacked(e, w, evs);
    assert OrderInv(e, RunOf(e, w, evs), c);
  }
}
