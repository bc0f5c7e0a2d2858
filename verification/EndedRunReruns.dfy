/** resolve --run-ended run again after a stop at any of its writes (adapter/ibkr/relay.py:2137-2300). */
module EndedRunReruns {
  import opened Wrappers
  import opened Handover
  import opened EndedRun
  import opened HandoverRuns
  import opened HandoverKeeps
  import opened EndedRunLegal
  import opened EndedRunConserves

  // ----- The command's writes, one by one -----

  function AsideActs(w: World, malformed: seq<Entry>): seq<Act> {
    var added := Excluding(malformed, w.setAside);
    if added == [] then [] else [SetAside(added)]
  }

  function RecordOf(w: World, chain: Chain, x: InputId, behind: seq<Entry>, malformed: seq<Entry>): EndedInput
    requires w.runOf.Some?
  {
    EndedInput(x, w.runOf.value.run,
               if chain.reply.Some? then Unsent(w.marks, w.decisions, x, chain.reply.value) else [],
               behind, Excluding(malformed, NamedAside(w.ended, x)))
  }

  function RecordActs(w: World, chain: Chain, x: InputId, behind: seq<Entry>, malformed: seq<Entry>): seq<Act>
    requires w.runOf.Some?
  {
    var s := RecordOf(w, chain, x, behind, malformed);
    if x !in RunEndedIds(w) || behind != [] || s.setAside != [] then [RecordEnded(s)] else []
  }

  function Struck(x: InputId, behind: seq<Entry>, malformed: seq<Entry>): set<InputId> {
    {x} + Ids(behind) + Ids(malformed)
  }

  lemma EndingForm(w: World, chain: Chain, x: InputId, behind: seq<Entry>, malformed: seq<Entry>)
    requires w.runOf.Some?
    ensures EndingActs(w, chain, x, behind, malformed)
            == AsideActs(w, malformed) + RecordActs(w, chain, x, behind, malformed)
               + [Strike(Struck(x, behind, malformed))] + ClearActs
  {
  }

  function MalformedIn(w: World): seq<Entry> {
    MalformedOf(w.outbox)
  }

  function BehindIn(w: World, chain: Chain, x: InputId): seq<Entry> {
    BehindOf(w.outbox, x, RunEndedIds(w), chain.earlier, chain.current - FoundFor(w, x))
  }

  /** The command run on w, which changes nothing when it is refused. */
  function Again(w: World, chain: Chain, aside: bool): World {
    var acts := ResolveRunEnded(w, chain, aside);
    if acts.Some? then Exec(w, acts.value) else w
  }

  // ----- What the writes leave -----

  /** What the command reads beside the outbox, the settlements and the set-aside file. */
  ghost predicate SameInput(w: World, w1: World) {
    && w1.waiting == w.waiting && w1.runOf == w.runOf && w1.run == w.run && w1.committed == w.committed
    && w1.marks == w.marks && w1.decisions == w.decisions
  }

  predicate Clears(a: Act) {
    a.RemoveInput? || a.RemoveMarks? || a.RemoveRefusal? || a.ForgetNotHandedOver? || a.RemoveRun?
  }

  lemma {:induction false} ClearingKeeps(w: World, acts: seq<Act>)
    requires forall i :: 0 <= i < |acts| ==> Clears(acts[i])
    ensures var w' := Exec(w, acts);
            && w'.outbox == w.outbox && w'.ended == w.ended && w'.setAside == w.setAside
            && (w.waiting.None? || (acts != [] && acts[0].RemoveInput?) ==> w'.waiting.None?)
    decreases |acts|
  {
    if acts != [] { ClearingKeeps(Apply(w, acts[0]), acts[1..]); }
  }

  /** One after another: the malformed set aside, the settlement recorded. */
  lemma Written(w: World, one: seq<Act>, two: seq<Act>, s: EndedInput, added: seq<Entry>)
    requires one == if added == [] then [] else [SetAside(added)]
    requires two == [] || two == [RecordEnded(s)]
    ensures var w1, w2 := Exec(w, one), Exec(Exec(w, one), two);
            && SameInput(w, w1) && w1.outbox == w.outbox && w1.ended == w.ended && w1.setAside == w.setAside + added
            && SameInput(w, w2) && w2.outbox == w.outbox && w2.setAside == w.setAside + added
            && w2.ended == if two == [] then w.ended else w.ended + [s]
  {
    var w1 := Exec(w, one);
    if one != [] { assert one[1..] == []; }
    if two != [] { assert two[1..] == []; }
    assert w.setAside + [] == w.setAside;
  }

  /** What is left once the outbox is struck, however much of the clear is done. */
  lemma StruckAndCleared(w: World, ids: set<InputId>, j: nat)
    requires j <= |ClearActs|
    ensures var w' := Exec(Apply(w, Strike(ids)), ClearActs[..j]);
            && w'.outbox == Without(w.outbox, ids) && w'.ended == w.ended && w'.setAside == w.setAside
            && (if j == 0 then w' == Apply(w, Strike(ids)) else w'.waiting.None?)
  {
    ClearingKeeps(Apply(w, Strike(ids)), ClearActs[..j]);
  }

  lemma EndingResult(w: World, chain: Chain, x: InputId, behind: seq<Entry>, malformed: seq<Entry>)
    requires w.runOf.Some?
    ensures var w' := Exec(w, EndingActs(w, chain, x, behind, malformed));
            && w'.waiting.None? && w'.setAside == w.setAside + Excluding(malformed, w.setAside)
            && w'.outbox == Without(w.outbox, Struck(x, behind, malformed))
            && w'.ended == (if RecordActs(w, chain, x, behind, malformed) == [] then w.ended
                            else w.ended + [RecordOf(w, chain, x, behind, malformed)])
  {
    var one, two := AsideActs(w, malformed), RecordActs(w, chain, x, behind, malformed);
    var ids := Struck(x, behind, malformed);
    EndingForm(w, chain, x, behind, malformed);
    Written(w, one, two, RecordOf(w, chain, x, behind, malformed), Excluding(malformed, w.setAside));
    var w2 := Exec(Exec(w, one), two);
    StruckAndCleared(w2, ids, |ClearActs|);
    assert ClearActs[..|ClearActs|] == ClearActs;
    WrittenWhole(w, one, two, ids);
  }

  lemma WrittenWhole(w: World, one: seq<Act>, two: seq<Act>, ids: set<InputId>)
    ensures Exec(w, one + two + [Strike(ids)] + ClearActs)
            == Exec(Apply(Exec(Exec(w, one), two), Strike(ids)), ClearActs)
  {
    ExecConcat(w, one, two);
    assert one + two + [Strike(ids)] + ClearActs == (one + two) + ([Strike(ids)] + ClearActs);
    ExecConcat(w, one + two, [Strike(ids)] + ClearActs);
    ExecCons(Exec(w, one + two), Strike(ids), ClearActs);
  }

  // ----- Where a stop can fall -----

  lemma CutStage(w: World, one: seq<Act>, two: seq<Act>, ids: set<InputId>, k: nat)
    requires |one| <= 1 && |two| <= 1 && k <= |one| + |two| + 1 + |ClearActs|
    ensures var acts := one + two + [Strike(ids)] + ClearActs;
            var w1, n := Exec(w, acts[..k]), |one| + |two|;
            && (k < |one| ==> w1 == w)
            && (|one| <= k < n ==> w1 == Exec(w, one))
            && (k == n ==> w1 == Exec(Exec(w, one), two))
            && (n < k ==> w1 == Exec(Apply(Exec(Exec(w, one), two), Strike(ids)), ClearActs[..k - n - 1]))
  {
    var acts, n := one + two + [Strike(ids)] + ClearActs, |one| + |two|;
    var rest := [Strike(ids)] + ClearActs;
    assert acts == (one + two) + rest;
    ExecCut(w, one + two, rest, k);
    if k <= n {
      ExecCut(w, one, two, k);
      assert k < |one| ==> one[..k] == [];
      assert k == |one| ==> one[..k] == one;
      assert |one| < k ==> two[..k - |one|] == two;
      ExecConcat(w, one, two);
      assert two[..|two|] == two;
      assert (one + two)[..n] == one + two;
    } else {
      assert rest[..k - n] == [Strike(ids)] + ClearActs[..k - n - 1];
      ExecConcat(w, one, two);
      ExecCons(Exec(w, one + two), Strike(ids), ClearActs[..k - n - 1]);
    }
  }

  // ----- The rerun from each -----

  /** Run again on w1, the command is accepted exactly while the input awaits, and leaves the same settlement, the same
      set-aside entries and the same entries for the fresh run as run once on w. */
  ghost predicate Converges(w: World, chain: Chain, aside: bool, w1: World) {
    var once, again := Again(w, chain, aside), Again(w1, chain, aside);
    && (ResolveRunEnded(w1, chain, aside).Some? <==> w1.waiting == w.waiting)
    && once.waiting.None? && again.waiting.None?
    && again.ended == once.ended && again.setAside == once.setAside
    && Without(again.outbox, RunEndedIds(again)) == Without(once.outbox, RunEndedIds(once))
  }

  lemma SameBooksConverge(w: World, chain: Chain, aside: bool, w1: World)
    requires ResolveRunEnded(w1, chain, aside).Some? <==> w1.waiting == w.waiting
    requires Again(w, chain, aside).waiting.None? && Again(w1, chain, aside).waiting.None?
    requires SameBooks(Again(w1, chain, aside), Again(w, chain, aside))
    ensures Converges(w, chain, aside, w1)
  {
    assert RunEndedIds(Again(w1, chain, aside)) == RunEndedIds(Again(w, chain, aside));
  }

  /** While the same input awaits, and the outbox holds no other malformed retirement, the command is accepted again. */
  lemma AcceptedAgain(w: World, chain: Chain, aside: bool, w1: World)
    requires ResolveRunEnded(w, chain, aside).Some? && SameInput(w, w1)
    requires forall en :: en in MalformedIn(w1) ==> en in MalformedIn(w)
    ensures var x := w.waiting.value;
            ResolveRunEnded(w1, chain, aside) == Some(EndingActs(w1, chain, x, BehindIn(w1, chain, x), MalformedIn(w1)))
  {
    var x := w.waiting.value;
    assert EarlierRun(w1) && FoundFor(w1, x) == FoundFor(w, x);
    if MalformedIn(w1) != [] { assert MalformedIn(w1)[0] in MalformedIn(w); }
  }

  lemma FirstForm(w: World, chain: Chain, aside: bool)
    requires ResolveRunEnded(w, chain, aside).Some?
    ensures var x := w.waiting.value;
            ResolveRunEnded(w, chain, aside) == Some(EndingActs(w, chain, x, BehindIn(w, chain, x), MalformedIn(w)))
  {
  }

  lemma NoneExcluded(s: seq<Entry>, t: seq<Entry>)
    requires forall en :: en in s ==> en in t
    ensures Excluding(s, t) == []
  {
    ExcludingMember(s, t);
    if Excluding(s, t) != [] { assert Excluding(s, t)[0] in Excluding(s, t); }
  }

  lemma AllAside(malformed: seq<Entry>, setAside: seq<Entry>)
    ensures Excluding(malformed, setAside + Excluding(malformed, setAside)) == []
  {
    ExcludingMember(malformed, setAside);
    NoneExcluded(malformed, setAside + Excluding(malformed, setAside));
  }

  lemma {:induction false} NamedAsideMore(ended: seq<EndedInput>, s: EndedInput, x: InputId)
    ensures NamedAside(ended + [s], x) == NamedAside(ended, x) + if s.input == x then s.setAside else []
  {
    var more := if s.input == x then s.setAside else [];
    if ended == [] {
      assert ended + [s] == [s] && [s][1..] == [];
      assert more + [] == more == [] + more;
    } else {
      assert (ended + [s])[1..] == ended[1..] + [s];
      NamedAsideMore(ended[1..], s, x);
      Regroup(if ended[0].input == x then ended[0].setAside else [], NamedAside(ended[1..], x), more);
    }
  }

  lemma FromNothing(w: World, chain: Chain, aside: bool)
    requires ResolveRunEnded(w, chain, aside).Some?
    ensures Converges(w, chain, aside, w)
  {
    OnceIs(w, chain, aside);
  }

  /** After the set-aside: the same settlement is recorded, struck and cleared. */
  lemma FromAside(w: World, chain: Chain, aside: bool, w1: World)
    requires ResolveRunEnded(w, chain, aside).Some? && w1 == Exec(w, AsideActs(w, MalformedIn(w)))
    ensures Converges(w, chain, aside, w1) && SameBooks(Again(w1, chain, aside), Again(w, chain, aside))
  {
    var x, malformed := w.waiting.value, MalformedIn(w);
    var behind := BehindIn(w, chain, x);
    Written(w, AsideActs(w, malformed), [], RecordOf(w, chain, x, behind, malformed), Excluding(malformed, w.setAside));
    assert RunEndedIds(w1) == RunEndedIds(w) && FoundFor(w1, x) == FoundFor(w, x);
    AcceptedAgain(w, chain, aside, w1);
    FirstForm(w, chain, aside);
    AllAside(malformed, w.setAside);
    EndingResult(w, chain, x, behind, malformed);
    EndingResult(w1, chain, x, behind, malformed);
    assert w1.setAside + [] == w1.setAside;
    SameBooksConverge(w, chain, aside, w1);
  }

  ghost predicate SameBooks(a: World, b: World) {
    a.outbox == b.outbox && a.ended == b.ended && a.setAside == b.setAside
  }

  /** After the record: nothing is recorded or set aside again, and the strike leaves what the settlement names. */
  lemma FromRecord(w: World, chain: Chain, aside: bool, w1: World)
    requires ResolveRunEnded(w, chain, aside).Some? && DistinctIds(w.outbox)
    requires w1 == Recorded(w, chain)
    ensures Converges(w, chain, aside, w1)
    ensures Again(w1, chain, aside).outbox == Again(w, chain, aside).outbox
            <==> BehindIn(w, chain, w.waiting.value) == []
  {
    var x, malformed := w.waiting.value, MalformedIn(w);
    var behind := BehindIn(w, chain, x);
    OnceIs(w, chain, aside);
    RecordedIs(w, chain);
    AcceptedAgain(w, chain, aside, w1);
    NothingBehind(w, chain, w1);
    AllAside(malformed, w.setAside);
    NoneUnnamed(w, chain, w1);
    EndingResult(w1, chain, x, [], malformed);
    assert w1.setAside + [] == w1.setAside;
    StrikeMissed(w, chain, Again(w1, chain, aside), Again(w, chain, aside));
  }

  /** The world with the malformed set aside and the settlement recorded. */
  function Recorded(w: World, chain: Chain): World
    requires w.waiting.Some? && w.runOf.Some?
  {
    var x := w.waiting.value;
    Exec(Exec(w, AsideActs(w, MalformedIn(w))), RecordActs(w, chain, x, BehindIn(w, chain, x), MalformedIn(w)))
  }

  lemma RecordedIs(w: World, chain: Chain)
    requires w.waiting.Some? && w.runOf.Some?
    ensures var x, malformed := w.waiting.value, MalformedIn(w);
            var behind, w1 := BehindIn(w, chain, x), Recorded(w, chain);
            && SameInput(w, w1) && w1.outbox == w.outbox
            && w1.setAside == w.setAside + Excluding(malformed, w.setAside)
            && w1.ended == (if RecordActs(w, chain, x, behind, malformed) == [] then w.ended
                            else w.ended + [RecordOf(w, chain, x, behind, malformed)])
  {
    var x, malformed := w.waiting.value, MalformedIn(w);
    var behind := BehindIn(w, chain, x);
    Written(w, AsideActs(w, malformed), RecordActs(w, chain, x, behind, malformed),
            RecordOf(w, chain, x, behind, malformed), Excluding(malformed, w.setAside));
  }

  lemma NamedOnce(w: World, chain: Chain, w1: World)
    requires w.waiting.Some? && w.runOf.Some? && w1 == Recorded(w, chain)
    ensures var x := w.waiting.value;
            && RunEndedIds(w) <= RunEndedIds(w1) && x in RunEndedIds(w1)
            && Ids(BehindIn(w, chain, x)) <= RunEndedIds(w1)
  {
    var x, malformed := w.waiting.value, MalformedIn(w);
    RecordedIs(w, chain);
    var s := RecordOf(w, chain, x, BehindIn(w, chain, x), malformed);
    MembersAppend(w.ended, s);
    if RecordActs(w, chain, x, BehindIn(w, chain, x), malformed) != [] {
      forall y | y in {s.input} + Ids(s.outbox) ensures y in RunEndedIds(w1) { assert s in w1.ended; }
      assert x in {s.input} + Ids(s.outbox);
    } else {
      assert w1.ended == w.ended;
    }
  }

  lemma NothingBehind(w: World, chain: Chain, w1: World)
    requires w.waiting.Some? && w.runOf.Some? && w1 == Recorded(w, chain)
    ensures BehindIn(w1, chain, w.waiting.value) == []
  {
    var x := w.waiting.value;
    var own := chain.current - FoundFor(w, x);
    RecordedIs(w, chain);
    NamedOnce(w, chain, w1);
    assert FoundFor(w1, x) == FoundFor(w, x);
    BehindMember(w.outbox, x, RunEndedIds(w), chain.earlier, own);
    BehindMember(w.outbox, x, RunEndedIds(w1), chain.earlier, own);
    NoMember(BehindIn(w1, chain, x));
  }

  lemma NoneUnnamed(w: World, chain: Chain, w1: World)
    requires w.waiting.Some? && w.runOf.Some? && w1 == Recorded(w, chain) && w1.runOf.Some?
    ensures RecordActs(w1, chain, w.waiting.value, [], MalformedIn(w)) == []
  {
    var x, malformed := w.waiting.value, MalformedIn(w);
    var s := RecordOf(w, chain, x, BehindIn(w, chain, x), malformed);
    RecordedIs(w, chain);
    NamedOnce(w, chain, w1);
    if w1.ended != w.ended {
      NamedAsideMore(w.ended, s, x);
      AllAside(malformed, NamedAside(w.ended, x));
    }
  }

  /** After the strike: nothing is left to strike. */
  lemma FromStrike(w: World, chain: Chain, aside: bool, w1: World)
    requires ResolveRunEnded(w, chain, aside).Some? && w1 == Stricken(w, chain)
    ensures Converges(w, chain, aside, w1) && SameBooks(Again(w1, chain, aside), Again(w, chain, aside))
  {
    var x := w.waiting.value;
    var ids := Struck(x, BehindIn(w, chain, x), MalformedIn(w));
    StrickenIs(w, chain);
    NothingLeft(w, chain, w1);
    OnlyClears(w, chain, aside, w1);
    OnceIs(w, chain, aside);
    WithoutTwice(w.outbox, ids, Struck(x, [], []));
    assert ids + Struck(x, [], []) == ids;
    SameBooksConverge(w, chain, aside, w1);
  }

  /** That world with the outbox struck. */
  function Stricken(w: World, chain: Chain): World
    requires w.waiting.Some? && w.runOf.Some?
  {
    Apply(Recorded(w, chain), Strike(Struck(w.waiting.value, BehindIn(w, chain, w.waiting.value), MalformedIn(w))))
  }

  lemma StrickenIs(w: World, chain: Chain)
    requires w.waiting.Some? && w.runOf.Some?
    ensures var x, w1 := w.waiting.value, Stricken(w, chain);
            && SameInput(w, w1) && w1.outbox == Without(w.outbox, Struck(x, BehindIn(w, chain, x), MalformedIn(w)))
            && w1.ended == Recorded(w, chain).ended && w1.setAside == Recorded(w, chain).setAside
            && RunEndedIds(w) <= RunEndedIds(w1) && x in RunEndedIds(w1)
  {
    RecordedIs(w, chain);
    NamedOnce(w, chain, Recorded(w, chain));
    assert RunEndedIds(Stricken(w, chain)) == RunEndedIds(Recorded(w, chain));
  }

  /** What the command leaves when it is not stopped. */
  lemma OnceIs(w: World, chain: Chain, aside: bool)
    requires ResolveRunEnded(w, chain, aside).Some?
    ensures var x, once := w.waiting.value, Again(w, chain, aside);
            && once.waiting.None?
            && once.ended == Recorded(w, chain).ended && once.setAside == Recorded(w, chain).setAside
            && once.outbox == Without(w.outbox, Struck(x, BehindIn(w, chain, x), MalformedIn(w)))
  {
    var x := w.waiting.value;
    FirstForm(w, chain, aside);
    EndingResult(w, chain, x, BehindIn(w, chain, x), MalformedIn(w));
    RecordedIs(w, chain);
  }

  lemma OnlyClears(w: World, chain: Chain, aside: bool, w1: World)
    requires ResolveRunEnded(w, chain, aside).Some? && SameInput(w, w1) && w.waiting.value in RunEndedIds(w1)
    requires MalformedIn(w1) == [] && BehindIn(w1, chain, w.waiting.value) == []
    ensures ResolveRunEnded(w1, chain, aside).Some? && w1.waiting == w.waiting
    ensures var again := Again(w1, chain, aside);
            && again.waiting.None? && again.ended == w1.ended && again.setAside == w1.setAside
            && again.outbox == Without(w1.outbox, Struck(w.waiting.value, [], []))
  {
    AcceptedAgain(w, chain, aside, w1);
    EndingResult(w1, chain, w.waiting.value, [], []);
    assert w1.setAside + [] == w1.setAside;
  }

  lemma NothingLeft(w: World, chain: Chain, w1: World)
    requires w.waiting.Some? && SameInput(w, w1) && RunEndedIds(w) <= RunEndedIds(w1)
    requires var x := w.waiting.value;
             w1.outbox == Without(w.outbox, Struck(x, BehindIn(w, chain, x), MalformedIn(w)))
    ensures MalformedIn(w1) == [] && BehindIn(w1, chain, w.waiting.value) == []
  {
    var x := w.waiting.value;
    var own := chain.current - FoundFor(w, x);
    var ids := Struck(x, BehindIn(w, chain, x), MalformedIn(w));
    assert FoundFor(w1, x) == FoundFor(w, x);
    MalformedMember(w.outbox);
    MalformedMember(w1.outbox);
    BehindMember(w.outbox, x, RunEndedIds(w), chain.earlier, own);
    BehindMember(w1.outbox, x, RunEndedIds(w1), chain.earlier, own);
    forall en | en in w1.outbox ensures en in w.outbox && en.id !in ids { WithoutMember(w.outbox, ids, en); }
    NoMember(MalformedIn(w1));
    NoMember(BehindIn(w1, chain, x));
  }

  lemma NoMember(s: seq<Entry>)
    requires forall en :: en !in s
    ensures s == []
  {
    SomeMember(s);
  }

  lemma SomeMember(s: seq<Entry>)
    ensures s != [] ==> exists en :: en in s
  {
    if s != [] { assert s[0] in s; }
  }

  lemma {:induction false} WithoutTwice(s: seq<Entry>, a: set<InputId>, b: set<InputId>)
    ensures Without(Without(s, a), b) == Without(s, a + b)
  {
    if s != [] {
      var rest := Without(s[1..], a);
      WithoutTwice(s[1..], a, b);
      if s[0].id in a {
        assert Without(s, a) == [] + rest == rest;
      } else {
        assert Without(s, a) == [s[0]] + rest && ([s[0]] + rest)[1..] == rest;
      }
    }
  }

  // ----- The rerun -----

  /** The stop fell right before the strike. */
  predicate StopsAtStrike(w: World, chain: Chain, aside: bool, k: nat) {
    var acts := ResolveRunEnded(w, chain, aside);
    acts.Some? && k < |acts.value| && acts.value[k].Strike?
  }

  /** Run again after a stop at any write, the command is accepted again exactly while the input awaits, records
      the same settlement, sets the same entries aside and leaves the same entries for the fresh run; and it leaves the
      same outbox unless the stop fell right before the strike with other entries settled: those stay, named by the
      settlement, for the drain to strike. */
  lemma EndingConverges(w: World, chain: Chain, aside: bool, k: nat, w1: World)
    requires DistinctIds(w.outbox) && ResolveRunEnded(w, chain, aside).Some?
    requires var acts := ResolveRunEnded(w, chain, aside).value; k <= |acts| && w1 == Exec(w, acts[..k])
    ensures Converges(w, chain, aside, w1)
    ensures Again(w1, chain, aside).outbox == Again(w, chain, aside).outbox
            <==> !(StopsAtStrike(w, chain, aside, k) && BehindIn(w, chain, w.waiting.value) != [])
  {
    var n := StageOf(w, chain, aside, k, w1);
    if k == n {
      FromRecord(w, chain, aside, w1);
    } else if k > n {
      AfterStrike(w, chain, aside, k - n - 1, w1);
    } else if w1 == w {
      FromNothing(w, chain, aside);
    } else {
      FromAside(w, chain, aside, w1);
    }
  }

  /** How far the command got: to nothing, to the set-aside, to the record, or past the strike, which is its act n. */
  lemma StageOf(w: World, chain: Chain, aside: bool, k: nat, w1: World) returns (n: nat)
    requires ResolveRunEnded(w, chain, aside).Some?
    requires var acts := ResolveRunEnded(w, chain, aside).value; k <= |acts| && w1 == Exec(w, acts[..k])
    ensures StopsAtStrike(w, chain, aside, k) <==> k == n
    ensures k < n ==> w1 == w || w1 == Exec(w, AsideActs(w, MalformedIn(w)))
    ensures k == n ==> w1 == Recorded(w, chain)
    ensures k > n ==> k - n - 1 <= |ClearActs| && w1 == Exec(Stricken(w, chain), ClearActs[..k - n - 1])
  {
    var x, malformed := w.waiting.value, MalformedIn(w);
    var behind := BehindIn(w, chain, x);
    var one, two := AsideActs(w, malformed), RecordActs(w, chain, x, behind, malformed);
    FirstForm(w, chain, aside);
    EndingForm(w, chain, x, behind, malformed);
    n := StageOfActs(w, one, two, Struck(x, behind, malformed), k);
  }

  lemma StageOfActs(w: World, one: seq<Act>, two: seq<Act>, ids: set<InputId>, k: nat) returns (n: nat)
    requires (one == [] || (|one| == 1 && one[0].SetAside?)) && (two == [] || (|two| == 1 && two[0].RecordEnded?))
    requires k <= |one + two + [Strike(ids)] + ClearActs|
    ensures var acts := one + two + [Strike(ids)] + ClearActs;
            var w1, w2 := Exec(w, acts[..k]), Exec(Exec(w, one), two);
            && (k < |acts| && acts[k].Strike? <==> k == n)
            && (k < n ==> w1 == w || w1 == Exec(w, one))
            && (k == n ==> w1 == w2)
            && (k > n ==> k - n - 1 <= |ClearActs| && w1 == Exec(Apply(w2, Strike(ids)), ClearActs[..k - n - 1]))
  {
    CutStage(w, one, two, ids, k);
    StrikeAt(one, two, ids, k);
    n := |one| + |two|;
  }

  lemma StrikeAt(one: seq<Act>, two: seq<Act>, ids: set<InputId>, k: nat)
    requires (one == [] || (|one| == 1 && one[0].SetAside?)) && (two == [] || (|two| == 1 && two[0].RecordEnded?))
    ensures var acts := one + two + [Strike(ids)] + ClearActs;
            k < |acts| && acts[k].Strike? <==> k == |one| + |two|
  {
    var acts, n := one + two + [Strike(ids)] + ClearActs, |one| + |two|;
    assert acts == (one + two) + ([Strike(ids)] + ClearActs);
    assert n < k < |acts| ==> acts[k] == ClearActs[k - n - 1];
    assert acts[n] == Strike(ids);
  }

  lemma AfterStrike(w: World, chain: Chain, aside: bool, j: nat, w1: World)
    requires ResolveRunEnded(w, chain, aside).Some? && j <= |ClearActs|
    requires w1 == Exec(Stricken(w, chain), ClearActs[..j])
    ensures Converges(w, chain, aside, w1) && SameBooks(Again(w1, chain, aside), Again(w, chain, aside))
  {
    var x := w.waiting.value;
    var ids := Struck(x, BehindIn(w, chain, x), MalformedIn(w));
    RecordedIs(w, chain);
    StruckAndCleared(Recorded(w, chain), ids, j);
    if j == 0 {
      FromStrike(w, chain, aside, w1);
    } else {
      OnceIs(w, chain, aside);
      SameBooksConverge(w, chain, aside, w1);
    }
  }

  /** What the rerun leaves of the outbox is what it leaves when not stopped, and what the settlement names. */
  lemma StrikeMissed(w: World, chain: Chain, again: World, once: World)
    requires w.waiting.Some? && w.runOf.Some? && DistinctIds(w.outbox)
    requires again.ended == once.ended == Recorded(w, chain).ended
    requires var x := w.waiting.value;
             && again.outbox == Without(w.outbox, Struck(x, [], MalformedIn(w)))
             && once.outbox == Without(w.outbox, Struck(x, BehindIn(w, chain, x), MalformedIn(w)))
    ensures Without(again.outbox, RunEndedIds(again)) == Without(once.outbox, RunEndedIds(once))
    ensures again.outbox == once.outbox <==> BehindIn(w, chain, w.waiting.value) == []
  {
    var x, named := w.waiting.value, RunEndedIds(again);
    var behind, malformed := BehindIn(w, chain, x), MalformedIn(w);
    NamedOnce(w, chain, Recorded(w, chain));
    assert named == RunEndedIds(once) == RunEndedIds(Recorded(w, chain));
    WithoutTwice(w.outbox, Struck(x, [], malformed), named);
    WithoutTwice(w.outbox, Struck(x, behind, malformed), named);
    assert Struck(x, [], malformed) + named == Struck(x, behind, malformed) + named;
    if behind != [] { FirstBehindStays(w, chain, x, behind[0]); }
  }

  lemma FirstBehindStays(w: World, chain: Chain, x: InputId, en: Entry)
    requires DistinctIds(w.outbox) && en in BehindIn(w, chain, x)
    ensures en in Without(w.outbox, Struck(x, [], MalformedIn(w)))
    ensures en !in Without(w.outbox, Struck(x, BehindIn(w, chain, x), MalformedIn(w)))
  {
    var behind, malformed := BehindIn(w, chain, x), MalformedIn(w);
    BehindMember(w.outbox, x, RunEndedIds(w), chain.earlier, chain.current - FoundFor(w, x));
    MalformedMember(w.outbox);
    SameEntry(w.outbox, behind, malformed, en);
    WithoutMember(w.outbox, Struck(x, [], malformed), en);
    WithoutMember(w.outbox, Struck(x, behind, malformed), en);
  }
}
