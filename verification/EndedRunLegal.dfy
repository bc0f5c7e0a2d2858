/** The settlements of an ended run follow the hand-over's discipline at every act. */
module EndedRunLegal {
  import opened Wrappers
  import opened Handover
  import opened EndedRun
  import opened HandoverRuns
  import opened HandoverKeeps
  import opened HandoverLegal

  // ----- settle_ended_run -----

  lemma {:induction false} InsertMember(c: Cid, s: seq<Cid>)
    ensures forall k :: k in Insert(c, s) <==> k == c || k in s
  {
    if s != [] {
      InsertMember(c, s[1..]);
      assert s == [s[0]] + s[1..];
    }
  }

  /** Still holds exactly the orders some release of which the records show never sent. */
  lemma {:induction false} StillMember(w: World, log: EndedLog, releases: seq<Release>, c: Cid)
    ensures c in Still(w, log, releases)
            <==> exists r :: r in releases && r.cid == c && Evidence(w, log, r.input, c).Shown?
  {
    if releases != [] {
      var r := releases[0];
      StillMember(w, log, releases[1..], c);
      assert releases == [r] + releases[1..];
      assert forall q :: q in releases <==> q == r || q in releases[1..];
      InsertMember(r.cid, Still(w, log, releases[1..]));
    }
  }

  /** What the records must say of an order that is settled as never sent. */
  ghost predicate Settleable(e: Engine, w: World, c: Cid) {
    && Touched(e, w, c)
    && (Unhanded(w, c) || c in w.overruled)
    && (c !in w.marks || w.marks[c].NeverSent?)
  }

  lemma EvidenceSettleable(e: Engine, w: World, log: EndedLog, x: InputId, c: Cid)
    requires e.OneRelease() && Inv(e, w) && c in e.Released(x) && Evidence(w, log, x, c).Shown?
    ensures Settleable(e, w, c)
  {
    assert OrderInv(e, w, c);
    LastDecisionIsOne(w.decisions, c);
    if c !in w.marks && w.waiting == Some(x) {
    } else {
      assert SaysNeverSent(w, c, x);
    }
  }

  lemma StillSettleable(e: Engine, w: World, log: EndedLog, c: Cid)
    requires e.OneRelease() && Inv(e, w) && LogSound(e, log) && c in Still(w, log, log.releases)
    ensures Settleable(e, w, c) && c in e.Released(InputOf(w, log, c))
  {
    StillMember(w, log, log.releases, c);
    var r :| r in log.releases && r.cid == c && Evidence(w, log, r.input, c).Shown?;
    EvidenceSettleable(e, w, log, r.input, c);
    LineInputIsOne(w.neverSent, log.name, c);
    ReleaseInputIsOne(log.releases, c);
  }

  lemma {:induction false} LineInputIsOne(lines: seq<Settlement>, name: nat, c: Cid)
    ensures LineInput(lines, name, c).Some? <==> HasLine(lines, name, c)
    ensures LineInput(lines, name, c).Some? ==>
              exists l :: l in lines && l.log == name && l.cid == c && l.input == LineInput(lines, name, c).value
  {
    if lines != [] {
      var n := |lines| - 1;
      LineInputIsOne(lines[..n], name, c);
      assert lines == lines[..n] + [lines[n]];
      MembersAppend(lines[..n], lines[n]);
    }
  }

  lemma {:induction false} ReleaseInputIsOne(releases: seq<Release>, c: Cid)
    requires exists r :: r in releases && r.cid == c
    ensures Release(ReleaseInput(releases, c), c) in releases
  {
    if releases[0].cid != c {
      assert releases == [releases[0]] + releases[1..];
      ReleaseInputIsOne(releases[1..], c);
    } else {
      assert releases[0] == Release(ReleaseInput(releases, c), c);
    }
  }

  /** Two worlds that differ only in decisions, in the settlement file or in never-sent marks. */
  ghost predicate SameOrders(w: World, w': World) {
    w'.waiting == w.waiting && w'.closed == w.closed && w'.last == w.last && w'.overruled == w.overruled
    && w'.sent == w.sent && w'.outbox == w.outbox && w'.runOf == w.runOf && w'.run == w.run
    && w'.committed == w.committed && w'.ended == w.ended
  }

  lemma {:induction false} DecideActsLegal(e: Engine, w: World, w': World, log: EndedLog, still: seq<Cid>)
    requires SameOrders(w, w') && w'.marks == w.marks
    requires w.waiting.Some? ==> w.runOf == Some(RunRecord(w.waiting.value, log.run))
    requires forall c :: c in still ==> Settleable(e, w, c) && c in e.Released(InputOf(w, log, c))
    ensures Legal(e, w', DecideActs(w, log, still))
    ensures SameOrders(w, Exec(w', DecideActs(w, log, still))) && Exec(w', DecideActs(w, log, still)).marks == w.marks
    ensures Exec(w', DecideActs(w, log, still)).neverSent == w'.neverSent
    decreases |still|
  {
    if still != [] {
      var c := still[0];
      assert Settleable(e, w, c);
      assert Touched(e, w', c) == Touched(e, w, c);
      if DecidedForLog(w, log, c) {
        assert DecideActs(w, log, still) == DecideActs(w, log, still[1..]);
        DecideActsLegal(e, w, w', log, still[1..]);
      } else {
        var a := Decide(Decision(c, DecidedNeverSent, Some(InputOf(w, log, c)), Some(log.run), Some(log.name), true));
        DecideActsLegal(e, w, Apply(w', a), log, still[1..]);
        LegalCons(e, w', a, DecideActs(w, log, still[1..]));
      }
    }
  }

  /** After its decisions, every order settled has one that says never sent. */
  lemma {:induction false} DecideActsSay(w: World, w': World, log: EndedLog, still: seq<Cid>)
    requires forall d :: d in w.decisions ==> d in w'.decisions
    ensures forall c :: c in still ==> SaidNeverSent(Exec(w', DecideActs(w, log, still)), c)
    ensures forall d :: d in w'.decisions ==> d in Exec(w', DecideActs(w, log, still)).decisions
    decreases |still|
  {
    if still != [] {
      var c := still[0];
      assert still == [c] + still[1..];
      if DecidedForLog(w, log, c) {
        LastDecisionIsOne(w.decisions, c);
        assert DecideActs(w, log, still) == DecideActs(w, log, still[1..]);
        DecideActsSay(w, w', log, still[1..]);
      } else {
        var a := Decide(Decision(c, DecidedNeverSent, Some(InputOf(w, log, c)), Some(log.run), Some(log.name), true));
        MembersAppend(w'.decisions, Tagged(w', a.d));
        DecideActsSay(w, Apply(w', a), log, still[1..]);
        assert DecideActs(w, log, still)[1..] == DecideActs(w, log, still[1..]);
      }
    }
  }

  lemma {:induction false} MarkActsLegal(e: Engine, w: World, w': World, still: seq<Cid>)
    requires SameOrders(w, w') && w.sent == {} && w.marks.Keys <= w'.marks.Keys
    requires forall c :: c in w'.marks && c !in w.marks ==> w'.marks[c].NeverSent?
    requires forall c :: c in w.marks ==> w'.marks[c] == w.marks[c]
    requires forall c :: c in still ==> Settleable(e, w, c) && SaidNeverSent(w', c)
    ensures Legal(e, w', MarkActs(w, still))
    ensures var w'' := Exec(w', MarkActs(w, still));
            && SameOrders(w, w'')
            && (forall c :: c in still ==> c in w''.marks && w''.marks[c].NeverSent?)
            && (forall c :: c in w'.marks ==> c in w''.marks && w''.marks[c] == w'.marks[c])
    decreases |still|
  {
    if still != [] {
      var c := still[0];
      assert Settleable(e, w, c);
      assert Touched(e, w', c) == Touched(e, w, c);
      assert still == [c] + still[1..];
      if c in w.marks {
        assert MarkActs(w, still) == MarkActs(w, still[1..]);
        MarkActsLegal(e, w, w', still[1..]);
      } else {
        var a := SetMark(c, NeverSent);
        assert forall k :: SaidNeverSent(Apply(w', a), k) == SaidNeverSent(w', k);
        MarkActsLegal(e, w, Apply(w', a), still[1..]);
        LegalCons(e, w', a, MarkActs(w, still[1..]));
      }
    }
  }

  lemma {:induction false} NewLinesSound(e: Engine, w: World, log: EndedLog, releases: seq<Release>)
    requires forall r :: r in releases ==> r.cid in e.Released(r.input)
    ensures forall l :: l in NewLines(w, log, releases) ==> l.cid in e.Released(l.input)
  {
    if releases != [] {
      assert releases == [releases[0]] + releases[1..];
      NewLinesSound(e, w, log, releases[1..]);
    }
  }

  lemma {:induction false} KeptLinesAmong(lines: seq<Settlement>, name: nat, still: seq<Cid>)
    ensures forall l :: l in KeptLines(lines, name, still) <==> l in lines && (l.log != name || l.cid in still)
  {
    if lines != [] {
      assert lines == [lines[0]] + lines[1..];
      KeptLinesAmong(lines[1..], name, still);
    }
  }

  lemma FileActsLegal(e: Engine, w: World, w': World, log: EndedLog)
    requires LogSound(e, log) && forall l :: l in w.neverSent ==> l.cid in e.Released(l.input)
    ensures Legal(e, w', FileActs(w, log))
    ensures SameOrders(w, w') ==> SameOrders(w, Exec(w', FileActs(w, log)))
    ensures Exec(w', FileActs(w, log)).marks == w'.marks && Exec(w', FileActs(w, log)).decisions == w'.decisions
  {
    NewLinesSound(e, w, log, log.releases);
    KeptLinesAmong(w.neverSent, log.name, Still(w, log, log.releases));
    if FileActs(w, log) != [] { LegalOne(e, w', FileActs(w, log)[0]); }
  }

  lemma StrikeAllLegal(e: Engine, w: World, still: seq<Cid>, ids: set<InputId>)
    requires forall c :: c in still ==> HasSettledMark(w, c)
    requires forall x :: x in ids ==> exists c :: c in still && NamesRetirementOf(x, c)
    ensures Legal(e, w, [Strike(ids)])
  {
    LegalOne(e, w, Strike(ids));
  }

  lemma SettleActsLegal(e: Engine, w: World, log: EndedLog, still: seq<Cid>)
    requires still == Still(w, log, log.releases) && w.sent == {} && IsTheEndedRun(w, log)
    requires LogSound(e, log) && forall l :: l in w.neverSent ==> l.cid in e.Released(l.input)
    requires forall c :: c in still ==> Settleable(e, w, c) && c in e.Released(InputOf(w, log, c))
    ensures Legal(e, w, DecideActs(w, log, still) + FileActs(w, log) + MarkActs(w, still)
                        + [Strike(RetirementsOfAll(w.outbox, still))])
  {
    var a, b, m := DecideActs(w, log, still), FileActs(w, log), MarkActs(w, still);
    var s := [Strike(RetirementsOfAll(w.outbox, still))];
    DecideActsLegal(e, w, w, log, still);
    var w1 := Exec(w, a);
    DecideActsSay(w, w, log, still);
    FileActsLegal(e, w, w1, log);
    var w2 := Exec(w1, b);
    assert forall c :: SaidNeverSent(w2, c) == SaidNeverSent(w1, c);
    MarkActsLegal(e, w, w2, still);
    var w3 := Exec(w2, m);
    StrikeAllLegal(e, w3, still, RetirementsOfAll(w.outbox, still));
    LegalConcat(e, w, a, b);
    ExecConcat(w, a, b);
    LegalConcat(e, w, a + b, m);
    ExecConcat(w, a + b, m);
    LegalConcat(e, w, a + b + m, s);
  }

  lemma SettleEndedRunLegal(e: Engine, w: World, log: EndedLog)
    requires e.OneRelease() && Inv(e, w) && LogSound(e, log) && w.sent == {} && SettleEndedRun(w, log).Some?
    ensures Legal(e, w, SettleEndedRun(w, log).value)
  {
    var still := Still(w, log, log.releases);
    forall c | c in still ensures Settleable(e, w, c) && c in e.Released(InputOf(w, log, c)) {
      StillSettleable(e, w, log, c);
    }
    SettleActsLegal(e, w, log, still);
  }

  // ----- resolve_run_ended -----

  lemma {:induction false} MalformedMember(s: seq<Entry>)
    ensures forall en :: en in MalformedOf(s) <==> en in s && Malformed(en)
  {
    if s != [] {
      assert s == [s[0]] + s[1..];
      MalformedMember(s[1..]);
    }
  }

  lemma {:induction false} BehindMember(s: seq<Entry>, x: InputId, named: set<InputId>, earlier: set<Cid>,
                                        own: set<Cid>)
    ensures forall en :: en in BehindOf(s, x, named, earlier, own) <==> en in s && Behind(en, x, named, earlier, own)
  {
    if s != [] {
      assert s == [s[0]] + s[1..];
      BehindMember(s[1..], x, named, earlier, own);
    }
  }

  lemma {:induction false} ExcludingMember(s: seq<Entry>, t: seq<Entry>)
    ensures forall en :: en in Excluding(s, t) <==> en in s && en !in t
  {
    if s != [] {
      assert s == [s[0]] + s[1..];
      ExcludingMember(s[1..], t);
    }
  }

  lemma StrikeAndClearLegal(e: Engine, w: World, x: InputId, ids: set<InputId>)
    requires e.OneRelease() && w.waiting == Some(x) && x in ids && EarlierRun(w)
    requires forall y :: y in ids && !y.Plain? ==> y == x || y in RunEndedIds(w)
    ensures Legal(e, w, [Strike(ids)] + ClearActs)
  {
    var w1 := Apply(w, Strike(ids));
    forall en ensures en in w1.outbox <==> en in w.outbox && en.id !in ids { WithoutMember(w.outbox, ids, en); }
    ClearLegal(e, w1);
    LegalCons(e, w, Strike(ids), ClearActs);
  }

  lemma RecordLegal(e: Engine, w: World, one: seq<Act>, two: seq<Act>, s: EndedInput)
    requires EarlierRun(w) && w.runOf.Some? && w.runOf.value.run < w.run && NamesQueued(w, s)
    requires one == [] || (|one| == 1 && one[0].SetAside?)
    requires two == [] || two == [RecordEnded(s)]
    ensures Legal(e, w, one + two)
    ensures var w' := Exec(w, one + two);
            w'.waiting == w.waiting && w'.outbox == w.outbox && EarlierRun(w')
            && RunEndedIds(w) <= RunEndedIds(w') && (two != [] ==> {s.input} + Ids(s.outbox) <= RunEndedIds(w'))
  {
    var w1 := Exec(w, one);
    if one != [] { LegalOne(e, w, one[0]); }
    if two != [] {
      LegalOne(e, w1, two[0]);
      MembersAppend(w1.ended, s);
    }
    LegalConcat(e, w, one, two);
    ExecConcat(w, one, two);
  }

  lemma EndingActsLegal(e: Engine, w: World, x: InputId, one: seq<Act>, two: seq<Act>, s: EndedInput, ids: set<InputId>)
    requires e.OneRelease() && EarlierRun(w) && w.waiting == Some(x) && w.runOf.Some? && w.runOf.value.run < w.run
    requires NamesQueued(w, s)
    requires one == [] || (|one| == 1 && one[0].SetAside?)
    requires two == [] || two == [RecordEnded(s)]
    requires x in ids
    requires forall y :: y in ids && !y.Plain? ==> y == x || y in RunEndedIds(w) || (two != [] && y in Ids(s.outbox))
    ensures Legal(e, w, one + two + [Strike(ids)] + ClearActs)
  {
    RecordLegal(e, w, one, two, s);
    StrikeAndClearLegal(e, Exec(w, one + two), x, ids);
    LegalConcat(e, w, one + two, [Strike(ids)] + ClearActs);
    assert one + two + [Strike(ids)] + ClearActs == one + two + ([Strike(ids)] + ClearActs);
  }

  lemma OnlyPlainMalformed(e: Engine, w: World)
    requires FilesInv(e, w)
    ensures forall y :: y in Ids(MalformedOf(w.outbox)) ==> y.Plain?
  {
    MalformedMember(w.outbox);
  }

  lemma BehindQueued(w: World, x: InputId, named: set<InputId>, earlier: set<Cid>, own: set<Cid>)
    requires QueueInv(w)
    ensures forall y :: y in Ids(BehindOf(w.outbox, x, named, earlier, own)) ==> y in w.queued
  {
    BehindMember(w.outbox, x, named, earlier, own);
  }

  lemma ResolveRunEndedLegal(e: Engine, w: World, chain: Chain, aside: bool)
    requires e.OneRelease() && Inv(e, w) && ResolveRunEnded(w, chain, aside).Some?
    ensures Legal(e, w, ResolveRunEnded(w, chain, aside).value)
  {
    EndingLegal(e, w, chain, aside);
  }

  lemma EndingLegal(e: Engine, w: World, chain: Chain, aside: bool)
    requires e.OneRelease() && FilesInv(e, w) && QueueInv(w) && RunInv(w) && ResolveRunEnded(w, chain, aside).Some?
    ensures Legal(e, w, ResolveRunEnded(w, chain, aside).value)
  {
    var x := w.waiting.value;
    var malformed := MalformedOf(w.outbox);
    var behind := BehindOf(w.outbox, x, RunEndedIds(w), chain.earlier, chain.current - FoundFor(w, x));
    OnlyPlainMalformed(e, w);
    BehindQueued(w, x, RunEndedIds(w), chain.earlier, chain.current - FoundFor(w, x));
    EndingListLegal(e, w, chain, x, behind, malformed);
  }

  lemma EndingListLegal(e: Engine, w: World, chain: Chain, x: InputId, behind: seq<Entry>, malformed: seq<Entry>)
    requires e.OneRelease() && EarlierRun(w) && w.waiting == Some(x) && w.runOf.Some? && w.runOf.value.run < w.run
    requires x in w.queued && (forall y :: y in Ids(behind) ==> y in w.queued)
    requires forall y :: y in Ids(malformed) ==> y.Plain?
    ensures Legal(e, w, EndingActs(w, chain, x, behind, malformed))
  {
    var added := Excluding(malformed, w.setAside);
    var unnamed := Excluding(malformed, NamedAside(w.ended, x));
    var unsent := if chain.reply.Some? then Unsent(w.marks, w.decisions, x, chain.reply.value) else [];
    var one := if added == [] then [] else [SetAside(added)];
    var s := EndedInput(x, w.runOf.value.run, unsent, behind, unnamed);
    var two := if x !in RunEndedIds(w) || behind != [] || unnamed != [] then [RecordEnded(s)] else [];
    EndingActsLegal(e, w, x, one, two, s, {x} + Ids(behind) + Ids(malformed));
  }

  // ----- Every operation -----

  /** Every operation follows the discipline at every act, whatever the outside answers. */
  lemma ActsLegal(e: Engine, w: World, op: Op)
    requires e.OneRelease() && Inv(e, w) && OpSound(e, op)
    ensures Legal(e, w, Acts(e, w, op))
  {
    match op
    case DrainOnce(i, env) => DrainLegal(e, w, i, env);
    case Produces(en) => ProducesLegal(e, w, en);
    case Restarts => LegalOne(e, w, Crash);
    case FreshRun => FreshRunLegal(e, w);
    case _ => OwnersLegal(e, w, op);
  }

  lemma ProducesLegal(e: Engine, w: World, en: Entry)
    requires QueueInv(w)
    ensures Legal(e, w, Acts(e, w, Produces(en)))
  {
    if Acts(e, w, Produces(en)) != [] {
      assert QueueAllowed(e, w, en);
      LegalOne(e, w, Queue(en));
    }
  }

  lemma OwnersLegal(e: Engine, w: World, op: Op)
    requires e.OneRelease() && Inv(e, w) && OpSound(e, op)
    ensures Legal(e, w, [Crash] + Command(e, Apply(w, Crash), op))
  {
    var w' := Apply(w, Crash);
    AllowedKeeps(e, w, Crash);
    CommandLegal(e, w', op);
    LegalCons(e, w, Crash, Command(e, w', op));
  }

  lemma FreshRunLegal(e: Engine, w: World)
    ensures Legal(e, w, [StartFreshRun, Crash])
  {
    LegalOne(e, Apply(w, StartFreshRun), Crash);
    LegalCons(e, w, StartFreshRun, [Crash]);
    assert [StartFreshRun] + [Crash] == [StartFreshRun, Crash];
  }

  lemma CommandLegal(e: Engine, w: World, op: Op)
    requires e.OneRelease() && Inv(e, w) && OpSound(e, op) && w.sent == {}
    ensures Legal(e, w, Command(e, w, op))
  {
    match op
    case OwnerResolves(c, v, today) => if Resolve(e, w, c, v, today).Some? { ResolveLegal(e, w, c, v, today); }
    case OwnerRetires(c) => if OwnerRetire(w, c).Some? { OwnerRetireLegal(e, w, c); }
    case _ => EndedCommandLegal(e, w, op);
  }

  lemma EndedCommandLegal(e: Engine, w: World, op: Op)
    requires e.OneRelease() && Inv(e, w) && OpSound(e, op) && w.sent == {}
    requires !op.OwnerResolves? && !op.OwnerRetires?
    ensures Legal(e, w, Command(e, w, op))
  {
    match op
    case OwnerSettlesEndedRun(log) => if SettleEndedRun(w, log).Some? { SettleEndedRunLegal(e, w, log); }
    case OwnerEndsRun(chain, aside) =>
      if ResolveRunEnded(w, chain, aside).Some? { ResolveRunEndedLegal(e, w, chain, aside); }
    case _ =>
  }
}
