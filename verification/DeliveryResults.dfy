/** What a delivery and a turn of the drain leave, in terms of the run's files, the delivery record and the outbox
    (adapter/ibkr/delivery.py:616-658, 763-802, adapter/ibkr/loop.py:1830-1900). */
module DeliveryResults {
  import opened Wrappers
  import opened Delivery
  import opened DeliveryRuns
  import opened DeliveryKeeps
  import opened DeliveryLegal
  import opened DeliveryTheorems

  // ----- Which files a delivery takes -----

  /** A batch of the running run, not dropped, names the file. */
  ghost predicate NamedBy(w: World, f: File) {
    exists n :: 0 <= n < |w.batches| && w.batches[n].run == w.running && w.batches[n].state != Dropped
        && f in w.batches[n].files
  }

  /** Listed, and named by no such batch. */
  ghost predicate IsNew(w: World, listing: seq<File>, f: File) {
    f in listing && !NamedBy(w, f)
  }

  ghost predicate StreamInOutbox(w: World) {
    exists i :: 0 <= i < |w.outbox| && w.outbox[i].envelope
  }

  /** The new files' sessions follow every session delivered, and one another. */
  ghost predicate InSessionOrder(w: World, listing: seq<File>) {
    && (forall f, g :: IsNew(w, listing, f) && NamedBy(w, g) ==> g.session < f.session)
    && NewInOrder(w, listing)
  }

  ghost predicate AlreadyQueued(w: World, es: seq<Entry>) {
    exists i, j :: 0 <= i < |es| && 0 <= j < |w.outbox| && es[i].id == w.outbox[j].id
  }

  /** A batch is begun: nothing of the stream is still being sent, some listed file is new, the new ones are in
      order, and the account was read. */
  ghost predicate BeginsBatch(w: World, d: Delivering) {
    && !StreamInOutbox(w) && (exists f :: IsNew(w, d.listing, f)) && InSessionOrder(w, d.listing) && d.reading == Taken
  }

  /** The adapter stops for a person: new files are out of order or cannot be read, or an input of theirs is queued. */
  ghost predicate StopsFor(w: World, d: Delivering) {
    && !StreamInOutbox(w) && (exists f :: IsNew(w, d.listing, f))
    && (!InSessionOrder(w, d.listing) || d.reading == Unreadable || (d.reading == Taken && AlreadyQueued(w, d.entries)))
  }

  /** The batch begun: of the running run and this snapshot, naming exactly the new files, in session order. */
  ghost predicate Begun(w: World, d: Delivering, b: Batch) {
    && b.run == w.running && b.snapshot == d.snapshot && (forall f :: f in b.files <==> IsNew(w, d.listing, f))
    && (forall i, j :: 0 <= i < j < |b.files| ==> b.files[i].session < b.files[j].session)
    && if AlreadyQueued(w, d.entries) then b.state == Queuing && b.written == []
       else b.state == Queued && b.written == Ids(d.entries)
  }

  ghost predicate LeavesBegun(w: World, d: Delivering, w': World) {
    if BeginsBatch(w, d) then
      && (exists b :: w'.batches == w.batches + [b] && Begun(w, d, b))
      && w'.outbox == (if AlreadyQueued(w, d.entries) then w.outbox else w.outbox + d.entries)
      && w' == w.(batches := w'.batches, outbox := w'.outbox)
    else w' == w
  }

  lemma {:induction false} NewFilesAre(batches: seq<Batch>, run: Run, listing: seq<File>)
    ensures forall f :: f in NewFiles(batches, run, listing) <==> f in listing && !IsDelivered(batches, run, f)
  {
    if listing != [] {
      NewFilesAre(batches, run, listing[1..]);
      assert listing == [listing[0]] + listing[1..];
    }
  }

  predicate OrderedNew(batches: seq<Batch>, run: Run, listing: seq<File>) {
    forall i, j :: 0 <= i < j < |listing| && !IsDelivered(batches, run, listing[i])
                   && !IsDelivered(batches, run, listing[j]) ==>
        listing[i].session < listing[j].session
  }

  lemma OrderedFirst(batches: seq<Batch>, run: Run, listing: seq<File>)
    requires listing != []
    ensures OrderedNew(batches, run, listing) <==>
              && OrderedNew(batches, run, listing[1..])
              && (!IsDelivered(batches, run, listing[0]) ==>
                    forall f :: f in listing[1..] && !IsDelivered(batches, run, f) ==> listing[0].session < f.session)
  {
    var rest := listing[1..];
    assert forall i :: 1 <= i < |listing| ==> listing[i] == rest[i - 1];
    if OrderedNew(batches, run, listing) {
      forall i, j | 0 <= i < j < |rest| && !IsDelivered(batches, run, rest[i]) && !IsDelivered(batches, run, rest[j])
        ensures rest[i].session < rest[j].session
      {
        assert rest[i] == listing[i + 1] && rest[j] == listing[j + 1];
      }
      forall f | f in rest && !IsDelivered(batches, run, f) && !IsDelivered(batches, run, listing[0])
        ensures listing[0].session < f.session
      {
        var j :| 0 <= j < |rest| && rest[j] == f;
        assert listing[j + 1] == f;
      }
    }
  }

  lemma IncreasingFirst(f: File, files: seq<File>)
    ensures Increasing([f] + files) <==> Increasing(files) && forall g :: g in files ==> f.session < g.session
  {
    var all := [f] + files;
    assert forall i :: 1 <= i < |all| ==> all[i] == files[i - 1];
    if Increasing(all) {
      forall i, j | 0 <= i < j < |files| ensures files[i].session < files[j].session {
        assert files[i] == all[i + 1] && files[j] == all[j + 1];
      }
      forall g | g in files ensures f.session < g.session {
        var j :| 0 <= j < |files| && files[j] == g;
        assert all[0] == f && all[j + 1] == g;
        assert all[0].session < all[j + 1].session;
      }
    }
  }

  lemma {:induction false} NewFilesOrdered(batches: seq<Batch>, run: Run, listing: seq<File>)
    ensures Increasing(NewFiles(batches, run, listing)) <==> OrderedNew(batches, run, listing)
  {
    if listing != [] {
      var files := NewFiles(batches, run, listing[1..]);
      NewFilesOrdered(batches, run, listing[1..]);
      NewFilesAre(batches, run, listing[1..]);
      OrderedFirst(batches, run, listing);
      IncreasingFirst(listing[0], files);
      assert [] + files == files;
    }
  }

  /** What the deliverer reads is what the record, the listing and the outbox say. */
  lemma ReadsListing(w: World, d: Delivering)
    ensures var files := NewFiles(w.batches, w.running, d.listing);
            && (forall f :: f in files <==> IsNew(w, d.listing, f))
            && (files == [] <==> forall f :: !IsNew(w, d.listing, f))
            && (AllAfter(w.batches, w.running, files) && Increasing(files) <==> InSessionOrder(w, d.listing))
  {
    var files := NewFiles(w.batches, w.running, d.listing);
    ReadsNew(w, d.listing);
    assert |files| > 0 ==> files[0] in files;
    AfterAll(w, files);
    ReadsOrder(w, d.listing);
  }

  lemma DeliveredIsNamed(w: World, f: File)
    ensures IsDelivered(w.batches, w.running, f) <==> NamedBy(w, f)
  {
  }

  lemma ReadsNew(w: World, listing: seq<File>)
    ensures forall f :: f in NewFiles(w.batches, w.running, listing) <==> IsNew(w, listing, f)
  {
    NewFilesAre(w.batches, w.running, listing);
    forall f ensures f in NewFiles(w.batches, w.running, listing) <==> IsNew(w, listing, f) {
      DeliveredIsNamed(w, f);
    }
  }

  ghost predicate NewInOrder(w: World, listing: seq<File>) {
    forall i, j :: 0 <= i < j < |listing| && IsNew(w, listing, listing[i]) && IsNew(w, listing, listing[j]) ==>
        listing[i].session < listing[j].session
  }

  lemma ReadsOrder(w: World, listing: seq<File>)
    ensures Increasing(NewFiles(w.batches, w.running, listing)) <==> NewInOrder(w, listing)
  {
    NewFilesOrdered(w.batches, w.running, listing);
    forall f ensures IsDelivered(w.batches, w.running, f) <==> NamedBy(w, f) {
      DeliveredIsNamed(w, f);
    }
    if OrderedNew(w.batches, w.running, listing) {
      forall i, j | 0 <= i < j < |listing| && IsNew(w, listing, listing[i]) && IsNew(w, listing, listing[j])
        ensures listing[i].session < listing[j].session {}
    }
    if NewInOrder(w, listing) {
      forall i, j | 0 <= i < j < |listing| && !IsDelivered(w.batches, w.running, listing[i])
                   && !IsDelivered(w.batches, w.running, listing[j])
        ensures listing[i].session < listing[j].session
      {
        assert IsNew(w, listing, listing[i]) && IsNew(w, listing, listing[j]);
      }
    }
  }

  lemma AfterAll(w: World, files: seq<File>)
    ensures AllAfter(w.batches, w.running, files) <==>
              forall f, g :: f in files && NamedBy(w, g) ==> g.session < f.session
  {
    if AllAfter(w.batches, w.running, files) {
      forall f, g | f in files && NamedBy(w, g) ensures g.session < f.session {
        var n :| 0 <= n < |w.batches| && w.batches[n].run == w.running && w.batches[n].state != Dropped
                 && g in w.batches[n].files;
        var i :| 0 <= i < |w.batches[n].files| && w.batches[n].files[i] == g;
        var j :| 0 <= j < |files| && files[j] == f;
      }
    }
    if forall f, g :: f in files && NamedBy(w, g) ==> g.session < f.session {
      forall n | 0 <= n < |w.batches| && w.batches[n].run == w.running && !w.batches[n].state.Dropped?
        ensures AllBefore(w.batches[n].files, files)
      {
        forall i, j | 0 <= i < |w.batches[n].files| && 0 <= j < |files|
          ensures w.batches[n].files[i].session < files[j].session
        {
          assert w.batches[n].files[i] in w.batches[n].files && NamedBy(w, w.batches[n].files[i]) && files[j] in files;
        }
      }
    }
  }

  /** With no batch queuing: what a delivery writes, and whether the adapter then goes on or stops. */
  lemma BeginResult(w: World, d: Delivering)
    ensures var p := BeginPlan(w, d);
            && LeavesBegun(w, d, Exec(w, p.acts))
            && (p.stops <==> StopsFor(w, d)) && (p.goesOn <==> !StopsFor(w, d))
  {
    var p, files := BeginPlan(w, d), NewFiles(w.batches, w.running, d.listing);
    assert && (forall f :: f in files <==> IsNew(w, d.listing, f))
           && (files == [] <==> forall f :: !IsNew(w, d.listing, f))
           && (AllAfter(w.batches, w.running, files) && Increasing(files) <==> InSessionOrder(w, d.listing)) by {
      ReadsListing(w, d);
    }
    assert HoldsEnvelope(w.outbox) <==> StreamInOutbox(w);
    assert Disjoint(d.entries, w.outbox) <==> !AlreadyQueued(w, d.entries);
    if BeginsBatch(w, d) {
      BegunResult(w, d, files);
    }
  }

  lemma BegunResult(w: World, d: Delivering, files: seq<File>)
    requires files == NewFiles(w.batches, w.running, d.listing) && files != [] && !HoldsEnvelope(w.outbox)
    requires AllAfter(w.batches, w.running, files) && Increasing(files) && d.reading == Taken && BeginsBatch(w, d)
    requires forall f :: f in files <==> IsNew(w, d.listing, f)
    requires Disjoint(d.entries, w.outbox) <==> !AlreadyQueued(w, d.entries)
    ensures LeavesBegun(w, d, Exec(w, BeginPlan(w, d).acts))
  {
    var b := Batch(w.running, d.snapshot, files, Queuing, []);
    BegunWorld(w, d, b);
    if Disjoint(d.entries, w.outbox) {
      assert Begun(w, d, b.(written := Ids(d.entries), state := Queued));
    } else {
      assert Begun(w, d, b);
    }
  }

  lemma BegunWorld(w: World, d: Delivering, b: Batch)
    ensures Exec(w, [Begin(b)]) == w.(batches := w.batches + [b])
    ensures Exec(w, [Begin(b), Extend(d.entries), MarkQueued])
            == w.(batches := w.batches + [b.(written := Ids(d.entries), state := Queued)],
                  outbox := w.outbox + d.entries)
  {
    ExecOne(w, Begin(b));
    var w1 := Apply(w, Begin(b));
    assert [Begin(b), Extend(d.entries), MarkQueued][1..] == [Extend(d.entries), MarkQueued];
    ExecTwo(w1, Extend(d.entries), MarkQueued);
  }

  // ----- A batch a stop left queuing -----

  /** Its snapshot or its reconciliation is in the outbox, or committed for the running run. */
  ghost predicate WasWritten(w: World, b: Batch) {
    exists part: nat :: (part == BrokerSnapshot || part == Reconciliation) && Reached(w, Made(b.snapshot, part))
  }

  ghost predicate Reached(w: World, id: Id) {
    id in Committed(w, w.running) || exists i :: 0 <= i < |w.outbox| && w.outbox[i].id == id
  }

  /** Nothing of it was written, it is the running run's, and its account reading cannot be had or an input of its files
      is in the outbox: it stays queuing. */
  ghost predicate StaysQueuing(w: World, d: Delivering) {
    LastQueuing(w) &&
      var last := w.batches[|w.batches| - 1];
      !WasWritten(w, last) && last.run == w.running && (d.finishReading != Taken || AlreadyQueued(w, d.finishEntries))
  }

  /** The batch becomes queued where it was written, dropped where it is another run's, and is written otherwise. */
  ghost predicate LeavesFinished(w: World, d: Delivering, w': World) {
    if !LastQueuing(w) || StaysQueuing(w, d) then w' == w
    else
      var n := |w.batches| - 1;
      var last := w.batches[n];
      if WasWritten(w, last) then w' == w.(batches := w.batches[n := last.(state := Queued)])
      else if last.run != w.running then w' == w.(batches := w.batches[n := last.(state := Dropped)])
      else w' == w.(batches := w.batches[n := last.(state := Queued, written := Ids(d.finishEntries))],
                    outbox := w.outbox + d.finishEntries)
  }

  lemma ReachedIs(w: World, id: Id)
    ensures Reached(w, id) <==> id in Ids(w.outbox) || id in Committed(w, w.running)
  {
    if id in Ids(w.outbox) {
      var i :| 0 <= i < |Ids(w.outbox)| && Ids(w.outbox)[i] == id;
      assert w.outbox[i].id == id;
    }
    if i :| 0 <= i < |w.outbox| && w.outbox[i].id == id {
      assert Ids(w.outbox)[i] == id;
    }
  }

  lemma WrittenIs(w: World, b: Batch)
    ensures WasWritten(w, b) <==> Recorded(w, b.snapshot)
  {
    ReachedIs(w, Made(b.snapshot, BrokerSnapshot));
    ReachedIs(w, Made(b.snapshot, Reconciliation));
  }

  lemma FinishResult(w: World, d: Delivering)
    requires LastQueuing(w)
    ensures var p := FinishPlan(w, d);
            && LeavesFinished(w, d, Exec(w, p.acts)) && (p.goesOn <==> !StaysQueuing(w, d))
            && (p.stops <==> StaysQueuing(w, d) && d.finishReading != NotNow)
  {
    WrittenIs(w, w.batches[|w.batches| - 1]);
    ExecOne(w, MarkQueued);
    ExecOne(w, MarkDropped);
    ExecTwo(w, Extend(d.finishEntries), MarkQueued);
  }

  // ----- A delivery -----

  /** Where the batch left queuing stays so, nothing is written; otherwise it is settled first, and a batch is then
      begun or not by the record and the outbox as that leaves them. */
  ghost predicate LeavesDelivered(w: World, d: Delivering, w': World) {
    if StaysQueuing(w, d) then w' == w
    else exists settled :: LeavesFinished(w, d, settled) && LeavesBegun(settled, d, w')
  }

  ghost predicate DeliveryStops(w: World, d: Delivering) {
    if StaysQueuing(w, d) then d.finishReading != NotNow
    else exists settled :: LeavesFinished(w, d, settled) && StopsFor(settled, d)
  }

  /** A delivery, from its files: what it writes, when it stops for a person and when it goes on. */
  lemma DeliverResult(w: World, d: Delivering)
    ensures var p := DeliverPlan(w, d);
            && LeavesDelivered(w, d, Exec(w, p.acts)) && (p.stops <==> DeliveryStops(w, d))
            && (p.goesOn <==> !p.stops && !StaysQueuing(w, d))
  {
    if LastQueuing(w) {
      var p := FinishPlan(w, d);
      FinishResult(w, d);
      var settled := Exec(w, p.acts);
      BeginResult(settled, d);
      ExecConcat(w, p.acts, BeginPlan(settled, d).acts);
    } else {
      BeginResult(w, d);
      assert LeavesFinished(w, d, w);
    }
  }

  /** The delivery writes no entries of a batch a stop left queuing: there is none, or it was written, or is another
      run's. */
  ghost predicate FinishesUnread(w: World) {
    LastQueuing(w) ==>
      var last := w.batches[|w.batches| - 1];
      WasWritten(w, last) || last.run != w.running
  }

  /** A delivery that goes on with no stream in the outbox and the account read leaves every listed file in a batch
      of the running run that is not dropped, and begins a batch exactly when some listed file was in none. */
  lemma EveryFileTaken(w: World, d: Delivering)
    requires !StreamInOutbox(w) && FinishesUnread(w) && d.reading == Taken && DeliverPlan(w, d).goesOn
    ensures var w' := Exec(w, DeliverPlan(w, d).acts);
            && (forall f :: f in d.listing ==> NamedBy(w', f))
            && (|w'.batches| == |w.batches| + 1 <==> exists f :: IsNew(w, d.listing, f))
            && (|w'.batches| == |w.batches| <==> forall f :: !IsNew(w, d.listing, f))
  {
    var w' := Exec(w, DeliverPlan(w, d).acts);
    DeliverResult(w, d);
    var settled :| LeavesFinished(w, d, settled) && LeavesBegun(settled, d, w');
    forall f ensures NamedBy(settled, f) <==> NamedBy(w, f) {
      SettlingKeepsNamed(w, d, settled, f);
    }
    forall f ensures IsNew(settled, d.listing, f) <==> IsNew(w, d.listing, f) {}
    assert !StopsFor(settled, d);
    forall f | f in d.listing ensures NamedBy(w', f) {
      TakesFile(settled, d, w', f);
    }
  }

  lemma SettlingKeepsNamed(w: World, d: Delivering, settled: World, f: File)
    requires FinishesUnread(w) && LeavesFinished(w, d, settled)
    ensures NamedBy(settled, f) <==> NamedBy(w, f)
    ensures settled.outbox == w.outbox && |settled.batches| == |w.batches|
  {
    if NamedBy(w, f) {
      var n :| 0 <= n < |w.batches| && w.batches[n].run == w.running && w.batches[n].state != Dropped
               && f in w.batches[n].files;
      assert settled.batches[n].run == settled.running && settled.batches[n].state != Dropped
             && f in settled.batches[n].files;
    }
    if NamedBy(settled, f) {
      var n :| 0 <= n < |settled.batches| && settled.batches[n].run == settled.running
               && settled.batches[n].state != Dropped && f in settled.batches[n].files;
      assert w.batches[n].run == w.running && w.batches[n].state != Dropped && f in w.batches[n].files;
    }
  }

  lemma TakesFile(w: World, d: Delivering, w': World, f: File)
    requires LeavesBegun(w, d, w') && f in d.listing
    requires !StreamInOutbox(w) && d.reading == Taken && !StopsFor(w, d)
    ensures NamedBy(w', f)
  {
    if NamedBy(w, f) {
      var n :| 0 <= n < |w.batches| && w.batches[n].run == w.running && w.batches[n].state != Dropped
               && f in w.batches[n].files;
      assert w'.batches[n] == w.batches[n];
    } else {
      assert IsNew(w, d.listing, f);
      var b :| w'.batches == w.batches + [b] && Begun(w, d, b);
      assert w'.batches[|w.batches|] == b && f in b.files;
    }
  }
}
