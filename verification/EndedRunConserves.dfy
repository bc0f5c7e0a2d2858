/** resolve --run-ended loses no queued input (adapter/ibkr/relay.py:2223-2298). */
module EndedRunConserves {
  import opened Wrappers
  import opened Handover
  import opened EndedRun
  import opened HandoverRuns
  import opened HandoverKeeps
  import opened EndedRunLegal

  /** An entry of the outbox is still there, set aside, or named by a recorded settlement. */
  predicate Accounted(w: World, x: InputId, en: Entry) {
    || en in w.outbox
    || en in w.setAside
    || (exists s :: s in w.ended && en in s.outbox)
    || (en.id == x && x in RunEndedIds(w))
  }

  predicate EndingSteps(w: World, x: InputId, a: Act) {
    match a
    case SetAside(_) => true
    case RecordEnded(_) => true
    case Strike(ids) => forall en :: en in w.outbox && en.id in ids ==>
      en in w.setAside || (exists s :: s in w.ended && en in s.outbox) || (en.id == x && x in RunEndedIds(w))
    case RemoveInput => true
    case RemoveMarks => true
    case RemoveRefusal => true
    case ForgetNotHandedOver => true
    case RemoveRun => true
    case _ => false
  }

  lemma StepAccounts(w: World, x: InputId, a: Act, en: Entry)
    requires EndingSteps(w, x, a) && Accounted(w, x, en)
    ensures Accounted(Apply(w, a), x, en)
  {
    match a
    case Strike(ids) => WithoutMember(w.outbox, ids, en);
    case RecordEnded(s) =>
      MembersAppend(w.ended, s);
    case _ =>
  }

  ghost predicate AllEnding(w: World, x: InputId, acts: seq<Act>)
    decreases |acts|
  {
    acts != [] ==> EndingSteps(w, x, acts[0]) && AllEnding(Apply(w, acts[0]), x, acts[1..])
  }

  lemma {:induction false} AllEndingConcat(w: World, x: InputId, a: seq<Act>, b: seq<Act>)
    requires AllEnding(w, x, a) && AllEnding(Exec(w, a), x, b)
    ensures AllEnding(w, x, a + b)
    decreases |a|
  {
    if a == [] {
      assert a + b == b;
    } else {
      assert (a + b)[1..] == a[1..] + b;
      AllEndingConcat(Apply(w, a[0]), x, a[1..], b);
    }
  }

  lemma {:induction false} CutAccounts(w: World, x: InputId, acts: seq<Act>, k: nat, en: Entry)
    requires AllEnding(w, x, acts) && k <= |acts| && Accounted(w, x, en)
    ensures Accounted(Exec(w, acts[..k]), x, en)
    decreases k
  {
    if k == 0 {
      assert acts[..k] == [];
    } else {
      StepAccounts(w, x, acts[0], en);
      assert acts[..k][0] == acts[0] && acts[..k][1..] == acts[1..][..k - 1];
      CutAccounts(Apply(w, acts[0]), x, acts[1..], k - 1, en);
    }
  }

  lemma OneEnding(w: World, x: InputId, a: Act)
    requires EndingSteps(w, x, a)
    ensures AllEnding(w, x, [a]) && Exec(w, [a]) == Apply(w, a)
  {
    assert [a][1..] == [];
  }

  lemma ClearEnding(w: World, x: InputId)
    ensures AllEnding(w, x, ClearActs)
  {
    var t := [RemoveRefusal, ForgetNotHandedOver, RemoveRun];
    assert ClearActs == [RemoveInput, RemoveMarks] + t;
    OneEnding(Apply(w, RemoveInput), x, RemoveMarks);
    assert [RemoveInput, RemoveMarks][1..] == [RemoveMarks];
    ForgetEnding(Exec(w, [RemoveInput, RemoveMarks]), x);
    AllEndingConcat(w, x, [RemoveInput, RemoveMarks], t);
  }

  lemma ForgetEnding(w: World, x: InputId)
    ensures AllEnding(w, x, [RemoveRefusal, ForgetNotHandedOver, RemoveRun])
  {
    var t := [ForgetNotHandedOver, RemoveRun];
    assert [RemoveRefusal, ForgetNotHandedOver, RemoveRun][1..] == t;
    assert t[1..] == [RemoveRun];
    OneEnding(Apply(Apply(w, RemoveRefusal), ForgetNotHandedOver), x, RemoveRun);
  }

  /** Set aside, then recorded, then struck: in that order nothing struck is unaccounted for. */
  lemma EndingOrder(w: World, x: InputId, added: seq<Entry>, s: EndedInput, records: bool, behind: seq<Entry>,
                    malformed: seq<Entry>)
    requires DistinctIds(w.outbox) && s.input == x && s.outbox == behind
    requires forall en :: en in behind || en in malformed ==> en in w.outbox
    requires forall en :: en in malformed ==> en in added || en in w.setAside
    requires records || (x in RunEndedIds(w) && behind == [])
    ensures AllEnding(w, x, (if added == [] then [] else [SetAside(added)]) + (if records then [RecordEnded(s)] else [])
                            + [Strike({x} + Ids(behind) + Ids(malformed))])
  {
    var one := if added == [] then [] else [SetAside(added)];
    var two := if records then [RecordEnded(s)] else [];
    var ids := {x} + Ids(behind) + Ids(malformed);
    var w1 := if added == [] then w else Apply(w, SetAside(added));
    var w2 := if records then Apply(w1, RecordEnded(s)) else w1;
    if added != [] { OneEnding(w, x, SetAside(added)); }
    if records { OneEnding(w1, x, RecordEnded(s)); MembersAppend(w1.ended, s); }
    assert x in RunEndedIds(w2);
    forall en | en in w2.outbox && en.id in ids
      ensures en in w2.setAside || (exists q :: q in w2.ended && en in q.outbox) || (en.id == x && x in RunEndedIds(w2))
    {
      SameEntry(w.outbox, behind, malformed, en);
    }
    OneEnding(w2, x, Strike(ids));
    AllEndingConcat(w, x, one, two);
    ExecConcat(w, one, two);
    AllEndingConcat(w, x, one + two, [Strike(ids)]);
  }

  lemma SameEntry(outbox: seq<Entry>, behind: seq<Entry>, malformed: seq<Entry>, en: Entry)
    requires DistinctIds(outbox) && en in outbox
    requires forall q :: q in behind || q in malformed ==> q in outbox
    ensures en.id in Ids(behind) ==> en in behind
    ensures en.id in Ids(malformed) ==> en in malformed
  {
    forall q | q in outbox && q.id == en.id ensures q == en {
      var i :| 0 <= i < |outbox| && outbox[i] == q;
      var j :| 0 <= j < |outbox| && outbox[j] == en;
      assert !(i < j) && !(j < i);
    }
  }

  /** At every stop of resolve --run-ended, every entry the outbox held is in the outbox, in the set-aside
      file, or named by a recorded settlement. */
  lemma EvidenceConserved(w: World, chain: Chain, aside: bool, k: nat, en: Entry)
    requires DistinctIds(w.outbox) && ResolveRunEnded(w, chain, aside).Some?
             && k <= |ResolveRunEnded(w, chain, aside).value|
    requires en in w.outbox
    ensures Accounted(Exec(w, ResolveRunEnded(w, chain, aside).value[..k]), w.waiting.value, en)
  {
    EndingAll(w, chain, aside);
    CutAccounts(w, w.waiting.value, ResolveRunEnded(w, chain, aside).value, k, en);
  }

  lemma EndingAll(w: World, chain: Chain, aside: bool)
    requires DistinctIds(w.outbox) && ResolveRunEnded(w, chain, aside).Some?
    ensures AllEnding(w, w.waiting.value, ResolveRunEnded(w, chain, aside).value)
  {
    var x := w.waiting.value;
    var malformed := MalformedOf(w.outbox);
    var own := chain.current - FoundFor(w, x);
    var behind := BehindOf(w.outbox, x, RunEndedIds(w), chain.earlier, own);
    MalformedMember(w.outbox);
    BehindMember(w.outbox, x, RunEndedIds(w), chain.earlier, own);
    EndingList(w, chain, x, behind, malformed);
  }

  lemma EndingList(w: World, chain: Chain, x: InputId, behind: seq<Entry>, malformed: seq<Entry>)
    requires DistinctIds(w.outbox) && w.runOf.Some? && forall en :: en in behind || en in malformed ==> en in w.outbox
    ensures AllEnding(w, x, EndingActs(w, chain, x, behind, malformed))
  {
    var added := Excluding(malformed, w.setAside);
    var unnamed := Excluding(malformed, NamedAside(w.ended, x));
    ExcludingMember(malformed, w.setAside);
    var unsent := if chain.reply.Some? then Unsent(w.marks, w.decisions, x, chain.reply.value) else [];
    var s := EndedInput(x, w.runOf.value.run, unsent, behind, unnamed);
    var records := x !in RunEndedIds(w) || behind != [] || unnamed != [];
    EndingOrder(w, x, added, s, records, behind, malformed);
    var head := (if added == [] then [] else [SetAside(added)]) + (if records then [RecordEnded(s)] else [])
                + [Strike({x} + Ids(behind) + Ids(malformed))];
    ClearEnding(Exec(w, head), x);
    AllEndingConcat(w, x, head, ClearActs);
  }

  /** Exactly which other entries the settlement strikes: earlier runs' reports, the malformed retirements
      set aside, and the retirements of no order the fresh run released, or of one IBKR showed. */
  lemma StruckExactly(w: World, chain: Chain, aside: bool, en: Entry)
    requires DistinctIds(w.outbox) && ResolveRunEnded(w, chain, aside).Some?
    requires en in w.outbox && en.id != w.waiting.value && en.id !in RunEndedIds(w)
    ensures var x := w.waiting.value;
            en !in Exec(w, ResolveRunEnded(w, chain, aside).value).outbox
            <==> if Malformed(en) then OrdersRetired(en) * chain.current <= FoundFor(w, x)
                 else en.cid.Some?
                      && (|| (en.kind.Report? && en.cid.value in chain.earlier)
                          || (IsRetirement(en) && (en.cid.value !in chain.current || en.cid.value in FoundFor(w, x))))
  {
    var x := w.waiting.value;
    var own := chain.current - FoundFor(w, x);
    var malformed := MalformedOf(w.outbox);
    var behind := BehindOf(w.outbox, x, RunEndedIds(w), chain.earlier, own);
    MalformedMember(w.outbox);
    BehindMember(w.outbox, x, RunEndedIds(w), chain.earlier, own);
    EndingOutbox(w, chain, x, behind, malformed);
    StruckListed(w.outbox, x, behind, malformed, en);
    if Malformed(en) {
      assert en in malformed && OrdersRetired(en) * own == {};
      OwnAvoided(OrdersRetired(en), chain.current, FoundFor(w, x));
    } else {
      assert en in behind <==> Behind(en, x, RunEndedIds(w), chain.earlier, own);
    }
  }

  lemma OwnAvoided(retired: set<Cid>, current: set<Cid>, found: set<Cid>)
    ensures retired * (current - found) == {} <==> retired * current <= found
  {
    forall c | c in retired * current && c !in found ensures retired * (current - found) != {} {
      assert c in retired * (current - found);
    }
    if retired * current <= found {
      forall c ensures c !in retired * (current - found) {}
    }
  }

  /** An entry is struck with an input exactly when it is listed. */
  lemma StruckListed(outbox: seq<Entry>, x: InputId, behind: seq<Entry>, malformed: seq<Entry>, en: Entry)
    requires DistinctIds(outbox) && en in outbox && en.id != x && forall o :: o in behind || o in malformed ==>
             o in outbox
    ensures en !in Without(outbox, {x} + Ids(behind) + Ids(malformed)) <==> en in behind || en in malformed
  {
    WithoutMember(outbox, {x} + Ids(behind) + Ids(malformed), en);
    SameEntry(outbox, behind, malformed, en);
  }

  lemma {:induction false} OutboxKept(w: World, acts: seq<Act>)
    requires forall i :: 0 <= i < |acts| ==> !acts[i].Queue? && !acts[i].Strike?
    ensures Exec(w, acts).outbox == w.outbox
    decreases |acts|
  {
    if acts != [] { OutboxKept(Apply(w, acts[0]), acts[1..]); }
  }

  lemma EndingOutbox(w: World, chain: Chain, x: InputId, behind: seq<Entry>, malformed: seq<Entry>)
    requires w.runOf.Some?
    ensures Exec(w, EndingActs(w, chain, x, behind, malformed)).outbox
            == Without(w.outbox, {x} + Ids(behind) + Ids(malformed))
  {
    var added := Excluding(malformed, w.setAside);
    var unnamed := Excluding(malformed, NamedAside(w.ended, x));
    var unsent := if chain.reply.Some? then Unsent(w.marks, w.decisions, x, chain.reply.value) else [];
    var s := EndedInput(x, w.runOf.value.run, unsent, behind, unnamed);
    var head := (if added == [] then [] else [SetAside(added)])
                + (if x !in RunEndedIds(w) || behind != [] || unnamed != [] then [RecordEnded(s)] else []);
    StrikeAfter(w, head, {x} + Ids(behind) + Ids(malformed));
  }

  lemma StrikeAfter(w: World, head: seq<Act>, ids: set<InputId>)
    requires forall i :: 0 <= i < |head| ==> !head[i].Queue? && !head[i].Strike?
    ensures Exec(w, head + [Strike(ids)] + ClearActs).outbox == Without(w.outbox, ids)
  {
    var tail := [Strike(ids)] + ClearActs;
    assert head + [Strike(ids)] + ClearActs == head + tail;
    ExecConcat(w, head, tail);
    var w1 := Exec(w, head);
    OutboxKept(w, head);
    ExecCons(w1, Strike(ids), ClearActs);
    OutboxKept(Apply(w1, Strike(ids)), ClearActs);
  }
}
