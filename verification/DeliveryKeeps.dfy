/** Every allowed write of a delivery keeps what every world keeps. */
module DeliveryKeeps {
  import opened Wrappers
  import opened Delivery

  // ----- The outbox's batch entries under each write -----

  lemma {:induction false} BatchesConcat(a: seq<Entry>, b: seq<Entry>)
    ensures OfBatches(a + b) == OfBatches(a) + OfBatches(b)
  {
    if a == [] {
      assert a + b == b;
    } else {
      assert (a + b)[1..] == a[1..] + b;
      BatchesConcat(a[1..], b);
    }
  }

  lemma {:induction false} AllOfBatches(es: seq<Entry>)
    requires forall i :: 0 <= i < |es| ==> es[i].run.Some?
    ensures OfBatches(es) == es
  {
    if es != [] { AllOfBatches(es[1..]); }
  }

  lemma {:induction false} BatchesWithout(es: seq<Entry>, ids: set<Id>)
    ensures OfBatches(Without(es, ids)) == Without(OfBatches(es), ids)
  {
    if es != [] {
      BatchesWithout(es[1..], ids);
      var rest, batch := Without(es[1..], ids), OfBatches(es[1..]);
      var kept := if es[0].id in ids then [] else [es[0]];
      BatchesConcat(kept, rest);
      WithoutConcat(if es[0].run.Some? then [es[0]] else [], batch, ids);
      OneEntry(es[0], ids);
    }
  }

  lemma {:induction false} WithoutConcat(a: seq<Entry>, b: seq<Entry>, ids: set<Id>)
    ensures Without(a + b, ids) == Without(a, ids) + Without(b, ids)
  {
    if a == [] {
      assert a + b == b;
    } else {
      assert (a + b)[1..] == a[1..] + b;
      WithoutConcat(a[1..], b, ids);
    }
  }

  lemma OneEntry(e: Entry, ids: set<Id>)
    ensures OfBatches([e]) == if e.run.Some? then [e] else []
    ensures Without([e], ids) == if e.id in ids then [] else [e]
  {
    assert [e][1..] == [];
  }

  lemma {:induction false} WithoutNone(es: seq<Entry>, ids: set<Id>)
    requires forall i :: 0 <= i < |es| ==> es[i].id !in ids
    ensures Without(es, ids) == es
  {
    if es != [] { WithoutNone(es[1..], ids); }
  }

  lemma {:induction false} WithoutAll(es: seq<Entry>, ids: set<Id>)
    requires forall i :: 0 <= i < |es| ==> es[i].id in ids
    ensures Without(es, ids) == []
  {
    if es != [] { WithoutAll(es[1..], ids); }
  }

  lemma {:induction false} WithoutIn(es: seq<Entry>, ids: set<Id>)
    ensures forall e :: e in Without(es, ids) <==> e in es && e.id !in ids
  {
    if es != [] {
      WithoutIn(es[1..], ids);
      assert forall e :: e in es <==> e == es[0] || e in es[1..];
    }
  }

  lemma {:induction false} WithoutDistinct(es: seq<Entry>, ids: set<Id>)
    requires DistinctEntries(es)
    ensures DistinctEntries(Without(es, ids))
  {
    if es != [] {
      WithoutDistinct(es[1..], ids);
      WithoutIn(es[1..], ids);
      var rest := Without(es[1..], ids);
      forall j | 0 <= j < |rest| ensures rest[j].id != es[0].id {
        assert rest[j] in rest;
        var k :| 0 <= k < |es[1..]| && es[1..][k] == rest[j];
        assert es[k + 1] == rest[j];
      }
    }
  }

  /** What a strike leaves of the batch entries: all of them, none, or all but the first. */
  lemma StruckLeaves(w: World, ids: set<Id>)
    requires MayStrike(w, ids)
    ensures var es, es' := OfBatches(w.outbox), OfBatches(Without(w.outbox, ids));
            || es' == es
            || (es' == [] && (w.batches == [] || !w.batches[|w.batches| - 1].state.Queued?))
            || (es != [] && es' == es[1..] && Done(w, es[0].id))
  {
    BatchesWithout(w.outbox, ids);
    var es := OfBatches(w.outbox);
    if forall i :: 0 <= i < |es| ==> es[i].id !in ids {
      WithoutNone(es, ids);
    } else if (forall i :: 0 <= i < |es| ==> es[i].id in ids)
        && (w.batches == [] || !w.batches[|w.batches| - 1].state.Queued?) {
      WithoutAll(es, ids);
    } else {
      WithoutNone(es[1..], ids);
      assert es == [es[0]] + es[1..];
    }
  }

  // ----- Each write -----

  lemma KeepsFiles(w: World, a: Act)
    requires FilesOnce(w.batches) && OnlyLastQueuing(w.batches) && Allowed(w, a)
    ensures FilesOnce(Apply(w, a).batches)
  {
  }

  lemma KeepsQueuing(w: World, a: Act)
    requires OnlyLastQueuing(w.batches) && Allowed(w, a)
    ensures OnlyLastQueuing(Apply(w, a).batches)
  {
  }

  lemma KeepsDistinct(w: World, a: Act)
    requires DistinctEntries(w.outbox) && Allowed(w, a)
    ensures DistinctEntries(Apply(w, a).outbox)
  {
    if a.Strike? { WithoutDistinct(w.outbox, a.ids); }
  }

  lemma KeepsCommitted(w: World, a: Act)
    requires CommittedOnce(w) && Allowed(w, a)
    ensures CommittedOnce(Apply(w, a))
  {
    var w' := Apply(w, a);
    forall run ensures NoRepeat(Committed(w', run)) {
      assert NoRepeat(Committed(w, run));
      assert Committed(w', run) == Committed(w, run) + if a.Commit? && run == w.running then [a.id] else [];
    }
  }

  /** The last batch as a write leaves it, for the writes that add no batch. */
  lemma SameLast(w: World, a: Act)
    requires !a.Begin? && !a.Extend?
    ensures var w' := Apply(w, a);
            && |w'.batches| == |w.batches|
            && forall n :: 0 <= n < |w.batches| ==>
                 && w'.batches[n].written == w.batches[n].written && w'.batches[n].run == w.batches[n].run
                 && w'.batches[n].snapshot == w.batches[n].snapshot
                 && (w'.batches[n].state.Queued? ==> w.batches[n].state.Queued? || a.MarkQueued?)
                 && (w'.batches[n].state.Queuing? ==> w.batches[n].state.Queuing?)
  {
  }

  lemma KeepsOutbox(w: World, a: Act)
    requires OutboxOfLast(w) && Allowed(w, a)
    ensures OutboxOfLast(Apply(w, a))
  {
    match a {
      case Begin(b) => assert Ids(OfBatches(w.outbox)) == [];
      case Extend(more) => ExtendIs(w, more);
      case Append(e) => AppendIs(w, e);
      case Strike(ids) => StrikeOutbox(w, ids);
      case _ => SameLast(w, a);
    }
  }

  lemma ExtendIs(w: World, more: seq<Entry>)
    requires Allowed(w, Extend(more))
    ensures OfBatches(Apply(w, Extend(more)).outbox) == more
  {
    BatchesConcat(w.outbox, more);
    AllOfBatches(more);
  }

  lemma AppendIs(w: World, e: Entry)
    requires e.run.None?
    ensures OfBatches(Apply(w, Append(e)).outbox) == OfBatches(w.outbox)
  {
    BatchesConcat(w.outbox, [e]);
    OneEntry(e, {});
  }

  lemma StrikeOutbox(w: World, ids: set<Id>)
    requires OutboxOfLast(w) && MayStrike(w, ids)
    ensures OutboxOfLast(Apply(w, Strike(ids)))
  {
    StruckLeaves(w, ids);
    var es := OfBatches(w.outbox);
    var es' := OfBatches(Without(w.outbox, ids));
    assert Ids([]) == [];
    if es' != es && es' != [] {
      TailOfLast(es, w.batches[|w.batches| - 1]);
    }
  }

  lemma TailOfLast(es: seq<Entry>, last: Batch)
    requires es != [] && IsSuffix(Ids(es), last.written) && EndsWithEnvelope(es)
    requires forall i :: 0 <= i < |es| ==> es[i].run == Some(last.run)
    ensures IsSuffix(Ids(es[1..]), last.written) && EndsWithEnvelope(es[1..])
    ensures forall i :: 0 <= i < |es[1..]| ==> es[1..][i].run == Some(last.run)
  {
    SuffixTail(Ids(es), last.written, es);
  }

  lemma SuffixTail(left: seq<Id>, written: seq<Id>, es: seq<Entry>)
    requires IsSuffix(left, written) && left == Ids(es) && es != []
    ensures IsSuffix(Ids(es[1..]), written)
  {
    assert Ids(es[1..]) == left[1..];
  }

  lemma UnsentStays(w: World, a: Act, snapshot: nat)
    requires Unsent(w, snapshot) && Allowed(w, a) && (a.Ask? && a.id.Made? ==> a.id.snapshot != snapshot)
    requires a.Commit? && a.id.Made? ==> a.id.snapshot != snapshot
    ensures Unsent(Apply(w, a), snapshot)
  {
    var w' := Apply(w, a);
    forall run, part ensures Made(snapshot, part) !in Committed(w', run) {
      assert Made(snapshot, part) !in Committed(w, run);
    }
  }

  /** An ID accounted for stays so, unless a batch begins or is written over. */
  lemma KeepsAccounted(w: World, a: Act, n: nat, id: Id)
    requires n < |w.batches| && Accounted(w, n, id) && Allowed(w, a) && !a.Begin? && !a.Extend?
    requires a.Strike? ==> OfBatches(Apply(w, a).outbox) != [] || (n == |w.batches| - 1 ==> w.batches[n].state.Queued?)
    ensures |Apply(w, a).batches| == |w.batches| && Accounted(Apply(w, a), n, id)
  {
    SameLast(w, a);
    match a {
      case Append(e) => AppendIs(w, e);
      case Strike(ids) => StrikeAccounts(w, ids, n, id);
      case _ =>
    }
  }

  lemma StrikeAccounts(w: World, ids: set<Id>, n: nat, id: Id)
    requires MayStrike(w, ids) && n < |w.batches| && Accounted(w, n, id)
    requires OfBatches(Without(w.outbox, ids)) != [] || (n == |w.batches| - 1 ==> w.batches[n].state.Queued?)
    ensures Accounted(Apply(w, Strike(ids)), n, id)
  {
    StruckLeaves(w, ids);
    var es, es' := OfBatches(w.outbox), OfBatches(Without(w.outbox, ids));
    if n == |w.batches| - 1 && id in Ids(es) && es' != es {
      LeftOrDone(w, es, es', id);
    }
  }

  lemma LeftOrDone(w: World, es: seq<Entry>, es': seq<Entry>, id: Id)
    requires es != [] && es' == es[1..] && Done(w, es[0].id) && id in Ids(es)
    ensures id in Ids(es') || Done(w, id)
  {
    InFirstOrRest(es, id);
  }

  lemma InFirstOrRest(es: seq<Entry>, id: Id)
    requires es != []
    ensures id in Ids(es) ==> id == es[0].id || id in Ids(es[1..])
  {
    if id in Ids(es) {
      var i :| 0 <= i < |es| && Ids(es)[i] == id;
      if i > 0 {
        assert Ids(es[1..])[i - 1] == id;
      }
    }
  }

  lemma KeepsWhole(w: World, a: Act)
    requires QueuingWhole(w) && Allowed(w, a)
    ensures QueuingWhole(Apply(w, a))
  {
    var w' := Apply(w, a);
    if LastQueuing(w') {
      if a.Begin? {
        UnsentStays(w, a, a.batch.snapshot);
      } else if a.Extend? {
        UnsentStays(w, a, w.batches[|w.batches| - 1].snapshot);
        ExtendIs(w, a.entries);
      } else {
        SameLast(w, a);
        UnsentStays(w, a, w.batches[|w.batches| - 1].snapshot);
        StillWhole(w, a);
      }
    }
  }

  lemma StillWhole(w: World, a: Act)
    requires QueuingWhole(w) && Allowed(w, a) && !a.Begin? && !a.Extend? && LastQueuing(Apply(w, a)) && LastQueuing(w)
    ensures var w' := Apply(w, a);
            |w'.batches| == |w.batches| && (OfBatches(w'.outbox) == [] || LastAccounted(w'))
  {
    var w' := Apply(w, a);
    SameLast(w, a);
    var n := |w.batches| - 1;
    if OfBatches(w'.outbox) != [] {
      assert OfBatches(w.outbox) != [] by {
        if a.Append? { AppendIs(w, a.entry); }
        if a.Strike? { StruckLeaves(w, a.ids); }
      }
      forall id | id in w.batches[n].written ensures Accounted(w', n, id) {
        KeepsAccounted(w, a, n, id);
      }
    }
  }

  lemma KeepsNothingLost(w: World, a: Act)
    requires NothingLost(w) && QueuingWhole(w) && OnlyLastQueuing(w.batches) && Allowed(w, a)
    ensures NothingLost(Apply(w, a))
  {
    var w' := Apply(w, a);
    forall n, id | 0 <= n < |w'.batches| && w'.batches[n].state.Queued? && id in w'.batches[n].written
      ensures Accounted(w', n, id)
    {
      if a.Begin? {
        BeginAccounts(w, a.batch, n, id);
      } else if a.Extend? {
        assert Accounted(w, n, id);
      } else {
        SameLast(w, a);
        assert Accounted(w, n, id);
        KeepsAccounted(w, a, n, id);
      }
    }
  }

  lemma BeginAccounts(w: World, b: Batch, n: nat, id: Id)
    requires NothingLost(w) && MayBegin(w, b) && n < |w.batches| && w.batches[n].state.Queued?
             && id in w.batches[n].written
    ensures Accounted(Apply(w, Begin(b)), n, id)
  {
    assert Accounted(w, n, id);
    assert Ids(OfBatches(w.outbox)) == [];
  }

  lemma KeepsShape(w: World, a: Act)
    requires WellShaped(w) && Allowed(w, a)
    ensures WellShaped(Apply(w, a))
  {
    var w' := Apply(w, a);
    if a.Strike? {
      WithoutIn(w.outbox, a.ids);
      forall i | 0 <= i < |w'.outbox| ensures WellShapedEntry(w'.outbox[i]) {
        assert w'.outbox[i] in w'.outbox;
      }
    }
    if !a.Begin? && !a.Extend? { SameLast(w, a); }
  }

  lemma KeepsWaiting(w: World, a: Act)
    requires WaitingFirst(w) && Allowed(w, a)
    ensures WaitingFirst(Apply(w, a))
  {
    match a {
      case Extend(more) =>
        ExtendIs(w, more);
        assert forall i :: 0 <= i < |more| ==> Ids(more)[i] == more[i].id;
      case Append(e) => AppendIs(w, e);
      case Strike(ids) => StruckLeaves(w, ids);
      case _ =>
    }
  }

  /** Every allowed write keeps every part. */
  lemma AllowedKeeps(w: World, a: Act)
    requires Inv(w) && Allowed(w, a)
    ensures Inv(Apply(w, a))
  {
    KeepsFiles(w, a);
    KeepsQueuing(w, a);
    KeepsDistinct(w, a);
    KeepsCommitted(w, a);
    KeepsOutbox(w, a);
    KeepsWhole(w, a);
    KeepsNothingLost(w, a);
    KeepsShape(w, a);
    KeepsWaiting(w, a);
  }

  // ----- Lists of writes -----

  ghost predicate Legal(w: World, acts: seq<Act>)
    decreases |acts|
  {
    acts == [] || (Allowed(w, acts[0]) && Legal(Apply(w, acts[0]), acts[1..]))
  }

  lemma {:induction false} LegalKeeps(w: World, acts: seq<Act>)
    requires Inv(w) && Legal(w, acts)
    ensures Inv(Exec(w, acts))
    decreases |acts|
  {
    if acts != [] {
      AllowedKeeps(w, acts[0]);
      LegalKeeps(Apply(w, acts[0]), acts[1..]);
    }
  }

  lemma {:induction false} LegalPrefix(w: World, acts: seq<Act>, k: nat)
    requires Legal(w, acts) && k <= |acts|
    ensures Legal(w, acts[..k])
    decreases |acts|
  {
    if k > 0 {
      assert acts[..k][1..] == acts[1..][..k - 1];
      LegalPrefix(Apply(w, acts[0]), acts[1..], k - 1);
    }
  }

  lemma {:induction false} LegalConcat(w: World, a: seq<Act>, b: seq<Act>)
    requires Legal(w, a) && Legal(Exec(w, a), b)
    ensures Legal(w, a + b) && Exec(w, a + b) == Exec(Exec(w, a), b)
    decreases |a|
  {
    if a == [] {
      assert a + b == b;
    } else {
      assert (a + b)[1..] == a[1..] + b;
      LegalConcat(Apply(w, a[0]), a[1..], b);
    }
  }

  lemma LegalOne(w: World, a: Act)
    requires Allowed(w, a)
    ensures Legal(w, [a]) && Exec(w, [a]) == Apply(w, a)
  {
    assert [a][1..] == [];
  }
}
