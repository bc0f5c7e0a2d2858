/** An act that follows the discipline keeps the invariant. */
module HandoverKeeps {
  import opened Wrappers
  import opened Handover
  import opened EndedRun
  import opened HandoverRuns

  lemma {:induction false} WithoutMember(s: seq<Entry>, ids: set<InputId>, en: Entry)
    ensures en in Without(s, ids) <==> en in s && en.id !in ids
  {
    if s != [] {
      WithoutMember(s[1..], ids, en);
    }
  }

  lemma {:induction false} WithoutDistinct(s: seq<Entry>, ids: set<InputId>)
    requires DistinctIds(s)
    ensures DistinctIds(Without(s, ids))
  {
    if s != [] {
      WithoutDistinct(s[1..], ids);
      forall en | en in Without(s[1..], ids) ensures en.id != s[0].id { WithoutMember(s[1..], ids, en); }
    }
  }

  lemma LastDecisionAppend(ds: seq<Decision>, d: Decision, c: Cid)
    ensures LastDecision(ds + [d], c) == if d.cid == c then Some(d) else LastDecision(ds, c)
    ensures Resends(ds + [d], c) == Resends(ds, c) + if d.cid == c && d.verdict.DecidedResend? then 1 else 0
    ensures LastRetired(ds + [d], c) == if d.cid == c && d.verdict.Retired? then Some(d) else LastRetired(ds, c)
  {
    assert (ds + [d])[..|ds + [d]| - 1] == ds;
  }

  lemma MembersAppend<T>(s: seq<T>, t: T)
    ensures forall x :: x in s + [t] <==> x in s || x == t
  {
  }

  lemma {:induction false} LastDecisionIsOne(ds: seq<Decision>, c: Cid)
    ensures LastDecision(ds, c).Some? ==> LastDecision(ds, c).value in ds && LastDecision(ds, c).value.cid == c
  {
    if ds != [] {
      LastDecisionIsOne(ds[..|ds| - 1], c);
    }
  }

  lemma FilesFrame(e: Engine, w: World, w': World)
    requires FilesInv(e, w)
    requires w'.notHandedOver == w.notHandedOver && w'.refusal == w.refusal && w'.decisions == w.decisions
    requires w'.outbox == w.outbox && w'.neverSent == w.neverSent && w'.last == w.last
    requires forall c :: Touched(e, w, c) ==> Touched(e, w', c)
    ensures FilesInv(e, w')
  {
  }

  lemma QueueAndRunFrame(w: World, w': World)
    requires QueueInv(w) && RunInv(w)
    requires w'.outbox == w.outbox && w'.queued == w.queued && w'.closed == w.closed && w'.waiting == w.waiting
    requires w'.ended == w.ended && w'.committed == w.committed && w'.run == w.run && w'.runOf == w.runOf
    ensures QueueInv(w') && RunInv(w')
  {
    assert RunEndedIds(w') == RunEndedIds(w);
  }

  lemma KeepsMarkOrder(e: Engine, w: World, c: Cid, m: Mark, k: Cid)
    requires e.OneRelease() && OrderInv(e, w, k) && MarkAllowed(e, w, c, m)
    ensures OrderInv(e, Apply(w, SetMark(c, m)), k)
  {
    var w' := Apply(w, SetMark(c, m));
    assert RunEndedIds(w') == RunEndedIds(w);
    forall x ensures Begun(w', k, x) == Begun(w, k, x) {}
    assert Touched(e, w', k) == Touched(e, w, k);
    assert HasSettledMark(w, k) ==> HasSettledMark(w', k);
    assert Frozen(e, w, k) ==> Frozen(e, w', k);
    forall y ensures Kept(e, w, k, y) ==> Kept(e, w', k, y) {}
    forall x ensures SaysNeverSent(w', k, x) == SaysNeverSent(w, k, x) {}
  }

  lemma KeepsMark(e: Engine, w: World, c: Cid, m: Mark)
    requires e.OneRelease() && CoreInv(e, w) && MarkAllowed(e, w, c, m)
    ensures CoreInv(e, Apply(w, SetMark(c, m)))
  {
    var w' := Apply(w, SetMark(c, m));
    forall k ensures OrderInv(e, w', k) {
      assert OrderInv(e, w, k);
      KeepsMarkOrder(e, w, c, m, k);
    }
    QueueAndRunFrame(w, w');
    FilesFrame(e, w, w');
  }

  lemma RetiredAppend(ds: seq<Decision>, t: Decision, k: Cid, x: InputId)
    ensures HasRetired(ds + [t], k, x) <==>
            HasRetired(ds, k, x) || (t.cid == k && t.verdict.Retired? && t.input == Some(x))
    ensures Recorded(ds, k) ==> Recorded(ds + [t], k)
  {
    MembersAppend(ds, t);
  }

  lemma KeepsDecideRetire(e: Engine, w: World, d: Decision, k: Cid)
    requires e.OneRelease() && RetireInv(e, w, k) && DecideAllowed(e, w, d)
    ensures RetireInv(e, Apply(w, Decide(d)), k)
  {
    var w' := Apply(w, Decide(d));
    var t := Tagged(w, d);
    forall x ensures Begun(w', k, x) <==> Begun(w, k, x) || (t.cid == k && t.verdict.Retired? && t.input == Some(x)) {
      RetiredAppend(w.decisions, t, k, x);
    }
    assert RunEndedIds(w') == RunEndedIds(w);
    assert Recorded(w.decisions, k) ==> Recorded(w'.decisions, k) by { RetiredAppend(w.decisions, t, k, Plain(0)); }
    assert Frozen(e, w, k) ==> Frozen(e, w', k);
    forall y ensures Kept(e, w, k, y) ==> Kept(e, w', k, y) {}
  }

  lemma KeepsDecideOrder(e: Engine, w: World, d: Decision, k: Cid)
    requires e.OneRelease() && OrderInv(e, w, k) && DecideAllowed(e, w, d)
    ensures OrderInv(e, Apply(w, Decide(d)), k)
  {
    var w' := Apply(w, Decide(d));
    var t := Tagged(w, d);
    LastDecisionAppend(w.decisions, t, k);
    assert Touched(e, w', k) == Touched(e, w, k);
    KeepsDecideRetire(e, w, d, k);
    forall x | SaysNeverSent(w', k, x) ensures Unhanded(w', k) || k in w'.overruled {
      if t.cid != k { assert SaysNeverSent(w, k, x); }
    }
    forall x | k in w.marks && w.marks[k].Resend? ensures !SaysNeverSent(w', k, x) {
      assert !SaysNeverSent(w, k, x);
    }
  }

  lemma KeepsDecide(e: Engine, w: World, d: Decision)
    requires e.OneRelease() && CoreInv(e, w) && DecideAllowed(e, w, d)
    ensures CoreInv(e, Apply(w, Decide(d)))
  {
    var w' := Apply(w, Decide(d));
    MembersAppend(w.decisions, Tagged(w, d));
    assert RunEndedIds(w') == RunEndedIds(w);
    forall k ensures OrderInv(e, w', k) {
      assert OrderInv(e, w, k);
      KeepsDecideOrder(e, w, d, k);
    }
    forall b | b in w'.decisions && SettlesNeverSent(b.verdict) && b.input.Some?
      ensures b.cid in e.Released(b.input.value) && Touched(e, w', b.cid)
    {
      assert Touched(e, w', b.cid) == Touched(e, w, b.cid);
    }
  }

  lemma KeepsQueueOrder(e: Engine, w: World, en: Entry, k: Cid)
    requires e.OneRelease() && OrderInv(e, w, k) && QueueAllowed(e, w, en)
    ensures OrderInv(e, Apply(w, Queue(en)), k)
  {
    var w' := Apply(w, Queue(en));
    MembersAppend(w.outbox, en);
    assert Ids(w'.outbox) == Ids(w.outbox) + {en.id};
    assert RunEndedIds(w') == RunEndedIds(w);
    assert Touched(e, w', k) == Touched(e, w, k);
    forall x ensures Begun(w', k, x) <==> Begun(w, k, x) || NamesRetirementOf(en.id, k) {
      assert en in w'.outbox;
    }
    assert SendInv(e, w', k);
    assert Frozen(e, w, k) ==> Frozen(e, w', k);
    forall y ensures Kept(e, w, k, y) ==> Kept(e, w', k, y) {}
    if NamesRetirementOf(en.id, k) {
      assert Frozen(e, w', k);
      assert Kept(e, w', k, en.id);
    }
    assert RetireInv(e, w', k);
    forall x ensures SaysNeverSent(w', k, x) == SaysNeverSent(w, k, x) {}
  }

  lemma KeepsQueue(e: Engine, w: World, en: Entry)
    requires e.OneRelease() && CoreInv(e, w) && QueueAllowed(e, w, en)
    ensures CoreInv(e, Apply(w, Queue(en)))
  {
    KeepsQueueFiles(e, w, en);
    KeepsQueueIds(e, w, en);
    forall k ensures OrderInv(e, Apply(w, Queue(en)), k) {
      assert OrderInv(e, w, k);
      KeepsQueueOrder(e, w, en, k);
    }
  }

  lemma KeepsQueueFiles(e: Engine, w: World, en: Entry)
    requires FilesInv(e, w) && RunInv(w) && QueueAllowed(e, w, en)
    ensures FilesInv(e, Apply(w, Queue(en))) && RunInv(Apply(w, Queue(en)))
  {
    var w' := Apply(w, Queue(en));
    MembersAppend(w.outbox, en);
    assert RunEndedIds(w') == RunEndedIds(w);
    forall d | d in w.decisions ensures Touched(e, w, d.cid) ==> Touched(e, w', d.cid) {}
  }

  lemma KeepsQueueIds(e: Engine, w: World, en: Entry)
    requires QueueInv(w) && QueueAllowed(e, w, en)
    ensures QueueInv(Apply(w, Queue(en)))
  {
    var w' := Apply(w, Queue(en));
    MembersAppend(w.outbox, en);
    assert Ids(w'.outbox) == Ids(w.outbox) + {en.id};
    assert RunEndedIds(w') == RunEndedIds(w);
  }

  lemma KeepsStrike(e: Engine, w: World, ids: set<InputId>)
    requires e.OneRelease() && CoreInv(e, w) && Allowed(e, w, Strike(ids))
    ensures CoreInv(e, Apply(w, Strike(ids)))
  {
    var w' := Apply(w, Strike(ids));
    forall en ensures en in w'.outbox <==> en in w.outbox && en.id !in ids { WithoutMember(w.outbox, ids, en); }
    WithoutDistinct(w.outbox, ids);
    assert Ids(w'.outbox) <= Ids(w.outbox);
    assert RunEndedIds(w') == RunEndedIds(w);
    forall k ensures OrderInv(e, w', k) {
      assert OrderInv(e, w, k);
      assert Touched(e, w', k) == Touched(e, w, k);
      forall x ensures Begun(w', k, x) ==> Begun(w, k, x) {}
      if Frozen(e, w, k) {
        forall x | k in e.Released(x) && x !in w.closed
          ensures w.waiting == Some(x) && (Begun(w', k, x) || HasSettledMark(w, k) || EarlierRun(w))
        {
          if Begun(w, k, x) && !HasRetired(w.decisions, k, x) {
            var en :| en in w.outbox && NamesRetirementOf(en.id, k);
            assert en.id in ids || en in w'.outbox;
          }
        }
        assert Frozen(e, w', k);
      }
      forall y | y in w.queued && NamesRetirementOf(y, k) ensures Kept(e, w', k, y) {
        forall x | k in e.Released(x) && x !in w.closed && y in Ids(w.outbox)
          ensures y in Ids(w'.outbox) || HasSettledMark(w, k) || y in RunEndedIds(w)
        {
          var en :| en in w.outbox && en.id == y;
          assert en.id in ids || en in w'.outbox;
        }
      }
      forall x ensures SaysNeverSent(w', k, x) == SaysNeverSent(w, k, x) {}
    }
    forall d | d in w.decisions ensures Touched(e, w, d.cid) ==> Touched(e, w', d.cid) {}
  }

  lemma KeepsSendOrder(e: Engine, w: World, c: Cid, result: SendResult, x: InputId, k: Cid)
    requires e.OneRelease() && FilesInv(e, w) && OrderInv(e, w, k) && Allowed(e, w, Send(c, result, x))
    ensures OrderInv(e, Apply(w, Send(c, result, x)), k)
  {
    var w' := Apply(w, Send(c, result, x));
    assert RunEndedIds(w') == RunEndedIds(w);
    assert Touched(e, w', k) == Touched(e, w, k);
    forall y ensures Begun(w', k, y) == Begun(w, k, y) {}
    assert Frozen(e, w', k) == Frozen(e, w, k);
    forall y ensures Kept(e, w', k, y) == Kept(e, w, k, y) {}
    forall y ensures SaysNeverSent(w', k, y) == SaysNeverSent(w, k, y) {}
    if k == c {
      LastDecisionIsOne(w.decisions, c);
      forall y | SaysNeverSent(w', c, y) ensures Unhanded(w', c) || c in w'.overruled {
        assert y == x;
      }
    }
  }

  lemma KeepsSend(e: Engine, w: World, c: Cid, result: SendResult, x: InputId)
    requires e.OneRelease() && CoreInv(e, w) && Allowed(e, w, Send(c, result, x))
    ensures CoreInv(e, Apply(w, Send(c, result, x)))
  {
    var w' := Apply(w, Send(c, result, x));
    forall k ensures OrderInv(e, w', k) {
      assert OrderInv(e, w, k);
      KeepsSendOrder(e, w, c, result, x, k);
    }
    QueueAndRunFrame(w, w');
    forall d | d in w.decisions ensures Touched(e, w, d.cid) ==> Touched(e, w', d.cid) {}
    assert FilesInv(e, w');
  }

  lemma KeepsSave(e: Engine, w: World, x: InputId)
    requires e.OneRelease() && CoreInv(e, w) && Allowed(e, w, Save(x))
    ensures CoreInv(e, Apply(w, Save(x)))
  {
    var w' := Apply(w, Save(x));
    if w.waiting == Some(x) {
      assert w' == w;
    } else {
      assert RunEndedIds(w') == RunEndedIds(w);
      assert x.Plain? ==> x !in w.closed;
      forall k ensures OrderInv(e, w', k) {
        assert OrderInv(e, w, k);
        assert Touched(e, w, k) ==> Touched(e, w', k);
        forall y ensures Begun(w', k, y) == Begun(w, k, y) {}
        assert Frozen(e, w, k) ==> Frozen(e, w', k);
        forall y ensures Kept(e, w, k, y) ==> Kept(e, w', k, y) {}
        if k in e.Released(x) {
          assert !Touched(e, w, k);
          LastDecisionIsOne(w.decisions, k);
        }
        forall y ensures SaysNeverSent(w', k, y) == SaysNeverSent(w, k, y) {}
      }
      FilesFrame(e, w, w');
    }
  }

  lemma KeepsRemoveInput(e: Engine, w: World)
    requires e.OneRelease() && CoreInv(e, w) && Allowed(e, w, RemoveInput)
    ensures CoreInv(e, Apply(w, RemoveInput))
  {
    var w' := Apply(w, RemoveInput);
    assert RunEndedIds(w') == RunEndedIds(w);
    forall k ensures OrderInv(e, w', k) {
      assert OrderInv(e, w, k);
      assert Touched(e, w, k) ==> Touched(e, w', k);
      assert Frozen(e, w, k) ==> Frozen(e, w', k);
      forall y ensures Kept(e, w, k, y) ==> Kept(e, w', k, y) {}
      forall y ensures SaysNeverSent(w', k, y) == SaysNeverSent(w, k, y) {}
    }
    FilesFrame(e, w, w');
  }

  lemma KeepsRemoveMarksOrder(e: Engine, w: World, k: Cid)
    requires OrderInv(e, w, k) && w.waiting.None?
    ensures OrderInv(e, Apply(w, RemoveMarks), k)
  {
    var w' := Apply(w, RemoveMarks);
    assert RunEndedIds(w') == RunEndedIds(w);
    assert Touched(e, w, k) ==> Touched(e, w', k);
    assert Frozen(e, w, k) ==> Frozen(e, w', k);
    forall y | y in w.queued && NamesRetirementOf(y, k) ensures Kept(e, w', k, y) {}
    forall y ensures SaysNeverSent(w', k, y) == SaysNeverSent(w, k, y) {}
  }

  lemma KeepsRemoveMarks(e: Engine, w: World)
    requires CoreInv(e, w) && w.waiting.None?
    ensures CoreInv(e, Apply(w, RemoveMarks))
  {
    var w' := Apply(w, RemoveMarks);
    assert forall k :: OrderInv(e, w', k) by {
      forall k ensures OrderInv(e, w', k) {
        assert OrderInv(e, w, k);
        KeepsRemoveMarksOrder(e, w, k);
      }
    }
    QueueAndRunFrame(w, w');
    FilesFrame(e, w, w');
  }

  /** Ask and a fresh run change only what the engine committed and which run it is. */
  lemma KeepsEngine(e: Engine, w: World, a: Act)
    requires a.Ask? || a.StartFreshRun? || a.RecordRun? || a.RemoveRun? || a.RecordEnded?
    requires e.OneRelease() && CoreInv(e, w) && Allowed(e, w, a)
    ensures CoreInv(e, Apply(w, a))
  {
    var w' := Apply(w, a);
    if a.RecordEnded? {
      MembersAppend(w.ended, a.s);
    }
    assert RunEndedIds(w) <= RunEndedIds(w');
    assert !a.RecordEnded? ==> RunEndedIds(w') == RunEndedIds(w);
    EngineRunInv(e, w, a);
    forall k ensures OrderInv(e, w', k) {
      assert OrderInv(e, w, k);
      EngineOrderInv(e, w, w', k);
    }
    FilesFrame(e, w, w');
  }

  lemma EngineRunInv(e: Engine, w: World, a: Act)
    requires a.Ask? || a.StartFreshRun? || a.RecordRun? || a.RemoveRun? || a.RecordEnded?
    requires RunInv(w) && Allowed(e, w, a)
    requires !a.RecordEnded? ==> RunEndedIds(Apply(w, a)) == RunEndedIds(w)
    ensures RunInv(Apply(w, a))
    ensures w.waiting.Some? && EarlierRun(w) ==> EarlierRun(Apply(w, a))
  {
  }

  lemma EngineOrderInv(e: Engine, w: World, w': World, k: Cid)
    requires OrderInv(e, w, k)
    requires w'.waiting == w.waiting && (EarlierRun(w) ==> EarlierRun(w')) && RunEndedIds(w) <= RunEndedIds(w')
    requires w'.marks == w.marks && w'.decisions == w.decisions && w'.outbox == w.outbox && w'.closed == w.closed
    requires w'.sends == w.sends && w'.last == w.last && w'.overruled == w.overruled && w'.queued == w.queued
    requires k in w'.sent ==> k in w.sent || k !in w.marks || (!w.marks[k].NeverSent? && !w.marks[k].AtBroker?)
    ensures OrderInv(e, w', k)
  {
    assert Touched(e, w', k) == Touched(e, w, k);
    forall y ensures Begun(w', k, y) == Begun(w, k, y) {}
    assert Frozen(e, w, k) ==> Frozen(e, w', k);
    forall y ensures Kept(e, w, k, y) ==> Kept(e, w', k, y) {}
    forall y ensures SaysNeverSent(w', k, y) == SaysNeverSent(w, k, y) {}
  }

  lemma KeepsNotes(e: Engine, w: World, a: Act)
    requires a.RecordRefusal? || a.ForgetNotHandedOver? || a.RecordNotHandedOver? || a.NoteSent? || a.SetAside?
             || a.WriteNeverSent? || a.RemoveRefusal? || a.Crash?
    requires CoreInv(e, w) && Allowed(e, w, a)
    ensures CoreInv(e, Apply(w, a))
  {
    var w' := Apply(w, a);
    assert RunEndedIds(w') == RunEndedIds(w);
    forall k ensures OrderInv(e, w', k) {
      assert OrderInv(e, w, k);
      EngineOrderInv(e, w, w', k);
    }
    QueueAndRunFrame(w, w');
    NotesFiles(e, w, a);
  }

  lemma NotesFiles(e: Engine, w: World, a: Act)
    requires a.RecordRefusal? || a.ForgetNotHandedOver? || a.RecordNotHandedOver? || a.NoteSent? || a.SetAside?
             || a.WriteNeverSent? || a.RemoveRefusal? || a.Crash?
    requires FilesInv(e, w) && Allowed(e, w, a)
    ensures FilesInv(e, Apply(w, a))
  {
    var w' := Apply(w, a);
    forall d | d in w.decisions ensures Touched(e, w, d.cid) ==> Touched(e, w', d.cid) {}
  }

  lemma LastRunAppend(ds: seq<Decision>, d: Decision)
    ensures LastRun(ds + [d]) == if d.run.Some? then d.run else LastRun(ds)
  {
    assert (ds + [d])[..|ds + [d]| - 1] == ds;
  }

  lemma KeepsDecidedInRun(e: Engine, w: World, a: Act)
    requires e.OneRelease() && FilesInv(e, w) && QueueInv(w) && RunInv(w) && DecidedInRun(w) && Allowed(e, w, a)
    ensures DecidedInRun(Apply(w, a))
  {
    match a
    case Decide(d) =>
      MembersAppend(w.decisions, Tagged(w, d));
      LastRunAppend(w.decisions, Tagged(w, d));
    case Save(x) => if w.waiting != Some(x) { NewInputUnsettled(e, w, x); }
    case _ =>
  }

  /** An input saved only now was settled by no decision. */
  lemma NewInputUnsettled(e: Engine, w: World, x: InputId)
    requires e.OneRelease() && FilesInv(e, w) && QueueInv(w) && Allowed(e, w, Save(x)) && w.waiting != Some(x)
    ensures forall d :: d in w.decisions && SettlesNeverSent(d.verdict) ==> d.input != Some(x)
  {
    forall d | d in w.decisions && SettlesNeverSent(d.verdict) ensures d.input != Some(x) {
      assert d.input.Some? ==> d.cid in e.Released(d.input.value) && Touched(e, w, d.cid);
    }
  }

  /** One act that follows the discipline keeps the invariant, whichever it is. */
  lemma AllowedKeeps(e: Engine, w: World, a: Act)
    requires e.OneRelease() && Inv(e, w) && Allowed(e, w, a)
    ensures Inv(e, Apply(w, a))
  {
    KeepsDecidedInRun(e, w, a);
    AllowedKeepsCore(e, w, a);
  }

  lemma AllowedKeepsCore(e: Engine, w: World, a: Act)
    requires e.OneRelease() && CoreInv(e, w) && Allowed(e, w, a)
    ensures CoreInv(e, Apply(w, a))
  {
    match a
    case Save(x) => KeepsSave(e, w, x);
    case SetMark(c, m) => KeepsMark(e, w, c, m);
    case Decide(d) => KeepsDecide(e, w, d);
    case Queue(en) => KeepsQueue(e, w, en);
    case Strike(ids) => KeepsStrike(e, w, ids);
    case Send(c, result, x) => KeepsSend(e, w, c, result, x);
    case RemoveInput => KeepsRemoveInput(e, w);
    case RemoveMarks => KeepsRemoveMarks(e, w);
    case Ask(_) => KeepsEngine(e, w, a);
    case StartFreshRun => KeepsEngine(e, w, a);
    case RecordRun(_, _) => KeepsEngine(e, w, a);
    case RemoveRun => KeepsEngine(e, w, a);
    case RecordEnded(_) => KeepsEngine(e, w, a);
    case _ => KeepsNotes(e, w, a);
  }

  /** The invariant holds in w and after each of the acts. */
  ghost predicate Held(e: Engine, w: World, acts: seq<Act>)
    decreases |acts|
  {
    Inv(e, w) && (acts != [] ==> Held(e, Apply(w, acts[0]), acts[1..]))
  }

  lemma {:induction false} LegalHolds(e: Engine, w: World, more: seq<Act>)
    requires e.OneRelease() && Inv(e, w) && Legal(e, w, more)
    ensures Held(e, w, more)
    decreases |more|
  {
    if more != [] {
      AllowedKeeps(e, w, more[0]);
      LegalHolds(e, Apply(w, more[0]), more[1..]);
    }
  }

  lemma CutOne(w: World, acts: seq<Act>, k: nat)
    requires 0 < k <= |acts|
    ensures acts[k..] == acts[1..][k - 1..] && Exec(w, acts[..k]) == Exec(Apply(w, acts[0]), acts[1..][..k - 1])
  {
    assert acts[..k][0] == acts[0] && acts[..k][1..] == acts[1..][..k - 1];
  }

  lemma {:induction false} HeldFrom(e: Engine, w: World, acts: seq<Act>, k: nat)
    requires Held(e, w, acts) && k <= |acts|
    ensures Held(e, Exec(w, acts[..k]), acts[k..])
    decreases k
  {
    if k == 0 {
      assert acts[..k] == [] && acts[k..] == acts;
    } else {
      CutOne(w, acts, k);
      HeldFrom(e, Apply(w, acts[0]), acts[1..], k - 1);
    }
  }

  /** A stop after any act of a legal list leaves the invariant. */
  lemma LegalKeeps(e: Engine, w: World, acts: seq<Act>, k: nat)
    requires e.OneRelease() && Inv(e, w) && Legal(e, w, acts) && k <= |acts|
    ensures Inv(e, Exec(w, acts[..k]))
  {
    LegalHolds(e, w, acts);
    HeldFrom(e, w, acts, k);
  }
}
