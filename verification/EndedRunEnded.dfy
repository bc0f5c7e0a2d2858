/** When resolve --run-ended is accepted, and what it strikes, sets aside and records, as the outbox, the files and the
    runs' logs say (adapter/ibkr/relay.py:2078-2118, 2137-2300). */
module EndedRunEnded {
  import opened Wrappers
  import opened Handover
  import opened EndedRun
  import opened HandoverRuns
  import opened HandoverKeeps
  import opened EndedRunLegal
  import opened EndedRunConserves
  import opened EndedRunReruns
  import opened HandoverPass

  // ----- What the files say -----

  /** The relay found IBKR showing the order: its mark says so, or a decision for this input. */
  predicate ShownFor(w: World, c: Cid, x: InputId) {
    || Marked(w, c, AtBroker)
    || exists d :: d in w.decisions && d.cid == c && d.verdict.FoundAtBroker? && d.input == Some(x)
  }

  /** The running engine released the order and IBKR was not found showing it, so a retirement of it is that run's
      own. */
  predicate OwnOrder(w: World, chain: Chain, c: Cid, x: InputId) {
    c in chain.current && !ShownFor(w, c, x)
  }

  /** Queued as a retirement, by its kind or its name. */
  predicate Retires(en: Entry) {
    en.kind.Retire? || en.id.Retirement? || en.id.RetirementFor?
  }

  ghost predicate RetiresOwn(w: World, chain: Chain, en: Entry, x: InputId) {
    exists c: Cid :: OwnOrder(w, chain, c, x) && (en.cid == Some(c) || NamesRetirementOf(en.id, c))
  }

  predicate NamedBefore(w: World, y: InputId) {
    exists s :: s in w.ended && Names(s, y)
  }

  /** The entry goes with the ended run's input: an earlier run's report, or a retirement of no order of the running
      run. */
  predicate GoesWith(w: World, chain: Chain, en: Entry, x: InputId) {
    && en in w.outbox && en.id != x && !NamedBefore(w, en.id) && !(Retires(en) && !en.sound)
    && en.cid.Some?
    && ((en.kind.Report? && en.cid.value in chain.earlier) || (Retires(en) && !OwnOrder(w, chain, en.cid.value, x)))
  }

  predicate IsMalformed(w: World, en: Entry) {
    en in w.outbox && Retires(en) && !en.sound
  }

  /** Accepted: the waiting input was sent to a run on record, not the running one, which has not committed it; and no
      malformed retirement is queued, unless the owner sets them aside, none of which may be the running run's own. */
  ghost predicate MayEnd(w: World, chain: Chain, aside: bool) {
    && w.waiting.Some? && w.waiting.value !in w.committed
    && w.runOf.Some? && w.runOf.value.input == w.waiting.value && w.runOf.value.run != w.run
    && (forall en :: IsMalformed(w, en) ==> aside && !RetiresOwn(w, chain, en, w.waiting.value))
  }

  /** The order the input's committed reply released was never sent: not marked sent or at the broker, and its last
      decision, if for this input, is no finding at IBKR. */
  ghost predicate NotSent(w: World, c: Cid, x: InputId) {
    && !Marked(w, c, Sent) && !Marked(w, c, AtBroker)
    && forall i :: LastOn(w.decisions, c, i) ==>
         !(w.decisions[i].verdict.FoundAtBroker? && w.decisions[i].input == Some(x))
  }

  predicate SetAsideFor(w: World, en: Entry, x: InputId) {
    exists s :: s in w.ended && s.input == x && en in s.setAside
  }

  /** The settlement recorded: the input and its run, the orders its reply released and the adapter never sent, in
      order, the entries that go with it, and the malformed entries no settlement of it names yet. */
  ghost predicate RecordsEnding(w: World, chain: Chain, x: InputId, s: EndedInput) {
    && s.input == x && w.runOf.Some? && s.run == w.runOf.value.run
    && (forall c :: c in s.unsent <==> chain.reply.Some? && c in chain.reply.value && NotSent(w, c, x))
    && (forall en :: en in s.outbox <==> GoesWith(w, chain, en, x))
    && (forall en :: en in s.setAside <==> IsMalformed(w, en) && !SetAsideFor(w, en, x))
  }

  ghost predicate Ends(w: World, chain: Chain, x: InputId, w': World) {
    && w'.waiting.None? && w'.marks == map[] && w'.refusal.None? && w'.notHandedOver.None? && w'.runOf.None?
    && (forall en :: en in w'.outbox <==>
          en in w.outbox && en.id != x && !IsMalformed(w, en) && !GoesWith(w, chain, en, x))
    && (forall en :: en in w'.setAside <==> en in w.setAside || IsMalformed(w, en))
    && (if && NamedBefore(w, x) && (forall en :: !GoesWith(w, chain, en, x))
           && (forall en :: IsMalformed(w, en) ==> SetAsideFor(w, en, x))
        then w'.ended == w.ended
        else exists s :: w'.ended == w.ended + [s] && RecordsEnding(w, chain, x, s))
    && w'.sends == w.sends && w'.last == w.last && w'.decisions == w.decisions
  }

  // ----- What the command reads is what they say -----

  lemma FoundIs(w: World, chain: Chain, x: InputId)
    ensures forall c :: c in FoundFor(w, x) <==> ShownFor(w, c, x)
    ensures forall c :: c in chain.current - FoundFor(w, x) <==> OwnOrder(w, chain, c, x)
  {
  }

  lemma MalformedIs(w: World)
    ensures forall en :: en in MalformedIn(w) <==> IsMalformed(w, en)
  {
    MalformedMember(w.outbox);
  }

  lemma BehindIs(w: World, chain: Chain, x: InputId)
    ensures forall en :: en in BehindIn(w, chain, x) <==> GoesWith(w, chain, en, x)
  {
    FoundIs(w, chain, x);
    BehindMember(w.outbox, x, RunEndedIds(w), chain.earlier, chain.current - FoundFor(w, x));
    forall en: Entry ensures en.id in RunEndedIds(w) <==> NamedBefore(w, en.id) { NamedIs(w, en.id); }
  }

  lemma OwnIs(w: World, chain: Chain, en: Entry, x: InputId)
    ensures OrdersRetired(en) * (chain.current - FoundFor(w, x)) != {} <==> RetiresOwn(w, chain, en, x)
  {
    FoundIs(w, chain, x);
    var own := chain.current - FoundFor(w, x);
    if RetiresOwn(w, chain, en, x) {
      var c: Cid :| OwnOrder(w, chain, c, x) && (en.cid == Some(c) || NamesRetirementOf(en.id, c));
      assert c in OrdersRetired(en) * own;
    }
    if OrdersRetired(en) * own != {} {
      var c :| c in OrdersRetired(en) * own;
      assert OwnOrder(w, chain, c, x);
    }
  }

  lemma MayEndIs(w: World, chain: Chain, aside: bool)
    ensures ResolveRunEnded(w, chain, aside).Some? <==> MayEnd(w, chain, aside)
  {
    if w.waiting.Some? {
      var x := w.waiting.value;
      MalformedIs(w);
      SomeMember(MalformedIn(w));
      forall en: Entry
        ensures OrdersRetired(en) * (chain.current - FoundFor(w, x)) != {} <==> RetiresOwn(w, chain, en, x)
      {
        OwnIs(w, chain, en, x);
      }
    }
  }

  lemma {:induction false} UnsentIs(w: World, x: InputId, orders: seq<Cid>)
    ensures forall c :: c in Unsent(w.marks, w.decisions, x, orders) <==> c in orders && NotSent(w, c, x)
  {
    if orders != [] {
      var c := orders[0];
      UnsentIs(w, x, orders[1..]);
      LastOnIs(w.decisions, c);
      assert orders == [c] + orders[1..];
      assert NotSent(w, c, x) <==>
             [c] + Unsent(w.marks, w.decisions, x, orders[1..]) == Unsent(w.marks, w.decisions, x, orders);
    }
  }

  lemma {:induction false} NamedAsideIs(ended: seq<EndedInput>, x: InputId)
    ensures forall en :: en in NamedAside(ended, x) <==> exists s :: s in ended && s.input == x && en in s.setAside
  {
    if ended != [] {
      NamedAsideIs(ended[1..], x);
      assert ended == [ended[0]] + ended[1..];
    }
  }

  lemma RecordIs(w: World, chain: Chain, x: InputId)
    requires w.runOf.Some?
    ensures RecordsEnding(w, chain, x, RecordOf(w, chain, x, BehindIn(w, chain, x), MalformedIn(w)))
  {
    BehindIs(w, chain, x);
    MalformedIs(w);
    NamedAsideIs(w.ended, x);
    ExcludingMember(MalformedIn(w), NamedAside(w.ended, x));
    if chain.reply.Some? { UnsentIs(w, x, chain.reply.value); }
  }

  // ----- What the command leaves -----

  predicate OfEnding(a: Act) {
    a.SetAside? || a.RecordEnded? || a.Strike?
  }

  lemma {:induction false} EndingLeaves(w: World, acts: seq<Act>)
    requires forall i :: 0 <= i < |acts| ==> OfEnding(acts[i])
    ensures var w' := Exec(w, acts);
            && w'.sends == w.sends && w'.last == w.last && w'.decisions == w.decisions && w'.waiting == w.waiting
    decreases |acts|
  {
    if acts != [] { EndingLeaves(Apply(w, acts[0]), acts[1..]); }
  }

  lemma EndingClears(w: World, chain: Chain, x: InputId, behind: seq<Entry>, malformed: seq<Entry>)
    requires w.waiting.Some? && w.runOf.Some?
    ensures var w' := Exec(w, EndingActs(w, chain, x, behind, malformed));
            && w'.waiting.None? && w'.marks == map[] && w'.refusal.None? && w'.notHandedOver.None? && w'.runOf.None?
            && w'.sends == w.sends && w'.last == w.last && w'.decisions == w.decisions
  {
    var head := AsideActs(w, malformed) + RecordActs(w, chain, x, behind, malformed)
                + [Strike(Struck(x, behind, malformed))];
    EndingForm(w, chain, x, behind, malformed);
    ExecConcat(w, head, ClearActs);
    EndingLeaves(w, head);
    ClearResult(Exec(w, head));
  }

  /** Which entries are struck: with no two under one ID, those of the input, those set aside and those that go with
      it. */
  lemma StruckIs(w: World, chain: Chain, x: InputId)
    requires DistinctIds(w.outbox)
    ensures forall en :: en in Without(w.outbox, Struck(x, BehindIn(w, chain, x), MalformedIn(w))) <==>
              en in w.outbox && en.id != x && !IsMalformed(w, en) && !GoesWith(w, chain, en, x)
  {
    var behind, malformed := BehindIn(w, chain, x), MalformedIn(w);
    BehindIs(w, chain, x);
    MalformedIs(w);
    forall en ensures en in Without(w.outbox, Struck(x, behind, malformed)) <==>
                        en in w.outbox && en.id != x && !IsMalformed(w, en) && !GoesWith(w, chain, en, x)
    {
      WithoutMember(w.outbox, Struck(x, behind, malformed), en);
      if en in w.outbox { SameEntry(w.outbox, behind, malformed, en); }
    }
  }

  lemma AsideIs(w: World)
    ensures forall en :: en in w.setAside + Excluding(MalformedIn(w), w.setAside) <==>
            en in w.setAside || IsMalformed(w, en)
  {
    MalformedIs(w);
    ExcludingMember(MalformedIn(w), w.setAside);
  }

  lemma NoneIs(s: seq<Entry>)
    ensures s == [] <==> forall en :: en !in s
  {
    SomeMember(s);
  }

  /** Whether anything is recorded. */
  lemma RecordsIf(w: World, chain: Chain, x: InputId)
    requires w.runOf.Some?
    ensures RecordActs(w, chain, x, BehindIn(w, chain, x), MalformedIn(w)) == [] <==>
              && NamedBefore(w, x) && (forall en :: !GoesWith(w, chain, en, x))
              && (forall en :: IsMalformed(w, en) ==> SetAsideFor(w, en, x))
  {
    var s := RecordOf(w, chain, x, BehindIn(w, chain, x), MalformedIn(w));
    RecordIs(w, chain, x);
    NamedIs(w, x);
    BehindIs(w, chain, x);
    NoneIs(BehindIn(w, chain, x));
    NoneIs(s.setAside);
  }

  /** resolve --run-ended is accepted exactly so, strikes exactly the input, what goes with it and the malformed it sets
      aside, records exactly that, and clears the input; it hands nothing over and decides nothing. */
  lemma EndedExactly(w: World, chain: Chain, aside: bool)
    requires DistinctIds(w.outbox)
    ensures ResolveRunEnded(w, chain, aside).Some? <==> MayEnd(w, chain, aside)
    ensures MayEnd(w, chain, aside) ==> Ends(w, chain, w.waiting.value, Exec(w, ResolveRunEnded(w, chain, aside).value))
  {
    MayEndIs(w, chain, aside);
    if MayEnd(w, chain, aside) {
      var x := w.waiting.value;
      FirstForm(w, chain, aside);
      EndingResult(w, chain, x, BehindIn(w, chain, x), MalformedIn(w));
      EndingClears(w, chain, x, BehindIn(w, chain, x), MalformedIn(w));
      StruckIs(w, chain, x);
      AsideIs(w);
      RecordsIf(w, chain, x);
      RecordIs(w, chain, x);
    }
  }
}
