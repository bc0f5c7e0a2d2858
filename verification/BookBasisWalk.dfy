/** The walk back through the chain and the books kept of the earlier runs, as they are read and written
    (adapter/ibkr/book_basis.py). */
module BookBasisWalk {
  import opened Wrappers
  import opened BookBasis
  import opened BookBasisChain

  /** fills_since, for a window open at its end. */
  method FillsSince(fills: seq<Fill>, after: int) returns (kept: seq<Fill>)
    ensures kept == Since(fills, after)
  {
    kept := [];
    var i := 0;
    while i < |fills|
      invariant 0 <= i <= |fills| && kept == Since(fills[..i], after)
    {
      assert fills[..i + 1] == fills[..i] + [fills[i]];
      SinceConcat(fills[..i], [fills[i]], after);
      assert [fills[i]][1..] == [];
      if ToSecond(fills[i].stamped) >= after {
        kept := kept + [fills[i]];
      }
      i := i + 1;
    }
    assert fills[..i] == fills;
  }

  method ExplainedCash(groups: seq<Group>) returns (explained: set<string>)
    ensures explained == Explained(groups)
  {
    explained := {};
    var i := 0;
    while i < |groups|
      invariant 0 <= i <= |groups| && explained + Explained(groups[i..]) == Explained(groups)
    {
      explained := explained + ExplainedBy(groups[i]);
      i := i + 1;
    }
  }

  /** _walk: newest first through the runs, stopping once both books are found. */
  method Walk(runs: seq<Run>, own: bool) returns (daily: Option<Basis>, unexplained: Option<Basis>, later: seq<Fill>)
    ensures daily == Found(Events(runs, own), Daily) && unexplained == Found(Events(runs, own), Unexplained)
    ensures BasisOf(runs, own, Daily, daily) && BasisOf(runs, own, Unexplained, unexplained)
    ensures daily.None? || unexplained.None? ==> later == FillsOf(Events(runs, own))
  {
    daily, unexplained, later := None, None, [];
    ghost var before: seq<Event> := [];
    var n := 0;
    while n < |runs|
      invariant 0 <= n <= |runs| && Events(runs, own) == before + Events(runs[n..], own && n == 0)
      invariant daily == Found(before, Daily) && unexplained == Found(before, Unexplained)
      invariant later == FillsOf(before) && (daily.None? || unexplained.None?)
    {
      var mine := own && n == 0;
      ghost var events, more := EventsOf(runs[n], mine, runs[n].groups), Events(runs[n + 1..], false);
      MoreEvents(runs, n, mine, before);
      var both;
      both, daily, unexplained, later := WalkRun(runs[n], mine, daily, unexplained, later, before);
      before := before + events;
      if both {
        BothFound(before, more);
        BooksFound(runs, own);
        return;
      }
      n := n + 1;
    }
    assert Events(runs[n..], own && n == 0) == [];
    assert before + [] == before;
    BooksFound(runs, own);
  }

  lemma BothFound(before: seq<Event>, more: seq<Event>)
    requires Found(before, Daily).Some? && Found(before, Unexplained).Some?
    ensures Found(before + more, Daily) == Found(before, Daily)
    ensures Found(before + more, Unexplained) == Found(before, Unexplained)
  {
    FoundInStages(before, more, Daily);
    FoundInStages(before, more, Unexplained);
  }

  lemma BooksFound(runs: seq<Run>, own: bool)
    ensures BasisOf(runs, own, Daily, Found(Events(runs, own), Daily))
    ensures BasisOf(runs, own, Unexplained, Found(Events(runs, own), Unexplained))
  {
    ChainBasis(runs, own, Daily);
    ChainBasis(runs, own, Unexplained);
  }

  lemma MoreEvents(runs: seq<Run>, n: nat, mine: bool, before: seq<Event>)
    requires n < |runs|
    ensures before + Events(runs[n..], mine) == before + EventsOf(runs[n], mine, runs[n].groups)
            + Events(runs[n + 1..], false)
  {
    assert runs[n..][1..] == runs[n + 1..] && runs[n..][0] == runs[n];
  }

  /** The walk of one run's groups, newest first; both when the walk is over. */
  method WalkRun(run: Run, mine: bool, daily: Option<Basis>, unexplained: Option<Basis>, later: seq<Fill>,
                 ghost before: seq<Event>)
    returns (both: bool, daily': Option<Basis>, unexplained': Option<Basis>, later': seq<Fill>)
    requires daily == Found(before, Daily) && unexplained == Found(before, Unexplained)
    requires later == FillsOf(before) && (daily.None? || unexplained.None?)
    ensures var all := before + EventsOf(run, mine, run.groups);
            && daily' == Found(all, Daily) && unexplained' == Found(all, Unexplained)
            && both == (daily'.Some? && unexplained'.Some?)
            && (!both ==> later' == FillsOf(all))
  {
    ghost var all := before + EventsOf(run, mine, run.groups);
    EventsAt(before, run, mine);
    var explained := ExplainedCash(run.groups);
    both, daily', unexplained', later' :=
      WalkGroups(run, mine, explained, daily, unexplained, later, all, |before|);
  }

  /** From there on, the events of the run's groups, newest first. */
  ghost predicate HasEvents(all: seq<Event>, from: nat, run: Run, mine: bool) {
    |all| == from + |run.groups|
    && forall i :: 0 <= i < |run.groups| ==> all[|all| - 1 - i] == EventOf(run, mine, run.groups[i])
  }

  lemma EventsAt(before: seq<Event>, run: Run, mine: bool)
    ensures var all := before + EventsOf(run, mine, run.groups);
            HasEvents(all, |before|, run, mine) && all[..|before|] == before
  {
    var events := EventsOf(run, mine, run.groups);
    forall i | 0 <= i < |run.groups|
      ensures (before + events)[|before| + |events| - 1 - i] == EventOf(run, mine, run.groups[i])
    {
      assert (before + events)[|before| + |events| - 1 - i] == events[|events| - 1 - i];
    }
  }

  lemma EventIs(all: seq<Event>, from: nat, run: Run, mine: bool, i: nat)
    requires HasEvents(all, from, run, mine) && i < |run.groups|
    ensures all[|all| - 1 - i] == EventOf(run, mine, run.groups[i])
  {
  }

  method WalkGroups(run: Run, mine: bool, explained: set<string>, daily: Option<Basis>, unexplained: Option<Basis>,
                    later: seq<Fill>, ghost all: seq<Event>, ghost from: nat)
    returns (both: bool, daily': Option<Basis>, unexplained': Option<Basis>, later': seq<Fill>)
    requires explained == Explained(run.groups)
    requires HasEvents(all, from, run, mine)
    requires WalkedTo(all, from, daily, unexplained, later) && (daily.None? || unexplained.None?)
    ensures WalkedOver(all, both, daily', unexplained', later')
  {
    both, daily', unexplained', later' := false, daily, unexplained, later;
    var i := |run.groups|;
    ghost var at := from;
    while i > 0
      invariant 0 <= i <= |run.groups| && at == |all| - i
      invariant WalkedTo(all, at, daily', unexplained', later')
      invariant daily'.None? || unexplained'.None?
    {
      i := i - 1;
      EventIs(all, from, run, mine, i);
      daily', unexplained', later' :=
        WalkGroup(run, mine, run.groups[i], explained, daily', unexplained', later', all, at);
      at := at + 1;
      if daily'.Some? && unexplained'.Some? {
        BothStay(all, at, daily', unexplained', later');
        both := true;
        return;
      }
    }
    WalkedAll(all, at, daily', unexplained', later');
  }

  /** What the walk holds at its end. */
  ghost predicate WalkedOver(all: seq<Event>, both: bool, daily: Option<Basis>, unexplained: Option<Basis>,
                             later: seq<Fill>) {
    && daily == Found(all, Daily) && unexplained == Found(all, Unexplained)
    && both == (daily.Some? && unexplained.Some?) && (!both ==> later == FillsOf(all))
  }

  lemma WalkedAll(all: seq<Event>, at: nat, daily: Option<Basis>, unexplained: Option<Basis>, later: seq<Fill>)
    requires at == |all| && WalkedTo(all, at, daily, unexplained, later) && (daily.None? || unexplained.None?)
    ensures WalkedOver(all, false, daily, unexplained, later)
  {
    assert all[..at] == all;
  }

  /** One group of that walk. */
  method WalkGroup(run: Run, mine: bool, g: Group, explained: set<string>, daily: Option<Basis>,
                   unexplained: Option<Basis>, later: seq<Fill>, ghost all: seq<Event>, ghost at: nat)
    returns (daily': Option<Basis>, unexplained': Option<Basis>, later': seq<Fill>)
    requires explained == Explained(run.groups) && WalkedTo(all, at, daily, unexplained, later)
    requires at < |all| && all[at] == EventOf(run, mine, g)
    ensures WalkedTo(all, at + 1, daily', unexplained', later')
  {
    WalkedOne(all, at, daily, unexplained, later);
    daily', unexplained', later' := TakeGroup(run, mine, g, explained, daily, unexplained, later);
  }

  lemma BothStay(all: seq<Event>, at: nat, daily: Option<Basis>, unexplained: Option<Basis>, later: seq<Fill>)
    requires WalkedTo(all, at, daily, unexplained, later) && daily.Some? && unexplained.Some?
    ensures WalkedOver(all, true, daily, unexplained, later)
  {
    FoundStays(all, at, Daily);
    FoundStays(all, at, Unexplained);
  }

  /** What the walk holds once it has reached a place. */
  ghost predicate WalkedTo(all: seq<Event>, at: nat, daily: Option<Basis>, unexplained: Option<Basis>,
                           later: seq<Fill>) {
    at <= |all| && daily == Found(all[..at], Daily) && unexplained == Found(all[..at], Unexplained)
        && later == FillsOf(all[..at])
  }

  lemma WalkedOne(all: seq<Event>, at: nat, daily: Option<Basis>, unexplained: Option<Basis>, later: seq<Fill>)
    requires at < |all| && WalkedTo(all, at, daily, unexplained, later)
    ensures WalkedTo(all, at + 1, Take(daily, later, all[at], Daily), Take(unexplained, later, all[at], Unexplained),
                     later + if all[at].Passed? then [all[at].fill] else [])
  {
    TakeFinds(all, at, Daily);
    TakeFinds(all, at, Unexplained);
  }

  /** The loop's body for one group. */
  method TakeGroup(run: Run, mine: bool, g: Group, explained: set<string>, daily: Option<Basis>,
                   unexplained: Option<Basis>, later: seq<Fill>)
    returns (daily': Option<Basis>, unexplained': Option<Basis>, later': seq<Fill>)
    requires explained == Explained(run.groups)
    ensures var e := EventOf(run, mine, g);
            && daily' == Take(daily, later, e, Daily) && unexplained' == Take(unexplained, later, e, Unexplained)
            && later' == later + if e.Passed? then [e.fill] else []
  {
    daily', unexplained', later' := daily, unexplained, later;
    match g.input {
      case None =>
      case Some(FillInput(fill)) =>
        later' := later + [fill];
      case Some(Snapshot(asOf, positions, reading)) =>
        if daily.None? {
          var cash := ReadingCash(run.groups, reading);
          var fills := FillsSince(later, asOf);
          daily' := Some(Basis(positions, cash, fills, SnapshotOf(run.name, asOf), mine, false, asOf));
        }
      case Some(Reconciliation(asOf, cash, _)) =>
        if unexplained.None? && g.id in explained {
          var fills := FillsSince(later, asOf);
          unexplained' := Some(Basis(map[], Some(cash), fills, ReconciliationOf(run.name, g.id), mine, false, asOf));
        }
      case Some(Approval(at, book)) =>
        if book.Some? {
          var fills := FillsSince(later, at);
          if daily.None? {
            daily' := Some(Basis(book.value.positions, Some(book.value.cash), fills, StartingBookOf(run.name), false,
                book.value.otherCurrency, at));
          }
          if unexplained.None? {
            unexplained' := Some(Basis(map[], Some(book.value.cash), fills, StartingBookOf(run.name), false,
                book.value.otherCurrency, at));
          }
        }
      case Some(OtherInput) =>
    }
  }

  // ----- The previous close, with the earlier runs' books kept -----

  datatype Key = Key(run: string, previousLog: string, finalHash: string)

  /** The kept file: missing, not reading, or the two books of the runs before under a key. `own` is not kept. */
  datatype KeptBasis = KeptBasis(positions: map<string, int>, cash: Option<int>, fills: seq<Fill>, source: Source,
                                 refused: bool, asOf: int)

  datatype Kept = Missing | Malformed | Kept(key: Key, daily: Option<KeptBasis>, unexplained: Option<KeptBasis>)

  function ToKept(b: Option<Basis>): Option<KeptBasis> {
    match b
    case None => None
    case Some(Basis(positions, cash, fills, source, _, refused, asOf)) =>
        Some(KeptBasis(positions, cash, fills, source, refused, asOf))
  }

  function FromKept(k: Option<KeptBasis>): Option<Basis> {
    match k
    case None => None
    case Some(KeptBasis(positions, cash, fills, source, refused, asOf)) =>
        Some(Basis(positions, cash, fills, source, false, refused, asOf))
  }

  /** No basis of an earlier run is the running run's own, so keeping it loses nothing. */
  lemma KeptRoundTrip(runs: seq<Run>, w: Which)
    ensures FromKept(ToKept(Found(Events(runs, false), w))) == Found(Events(runs, false), w)
  {
    var events := Events(runs, false);
    var i := Place(events, w);
    if i < |events| { NotOwn(runs, i, w); }
  }

  lemma {:induction false} NotOwn(runs: seq<Run>, i: nat, w: Which)
    requires i < |Events(runs, false)| && Offered(Events(runs, false)[i], w).Some?
    ensures !Offered(Events(runs, false)[i], w).value.own
    decreases |runs|
  {
    var first := EventsOf(runs[0], false, runs[0].groups);
    if i >= |first| {
      NotOwn(runs[1..], i - |first|, w);
    }
  }

  class Reader {
    /** The runs before one never change: its approval names them by their final hash. */
    ghost const sealed: Key -> seq<Run>
    var kept: Kept

    ghost predicate Valid()
      reads this
    {
      kept.Kept? ==> && kept.daily == ToKept(Found(Events(sealed(kept.key), false), Daily))
                     && kept.unexplained == ToKept(Found(Events(sealed(kept.key), false), Unexplained))
    }

    constructor (ghost sealed: Key -> seq<Run>)
      ensures Valid() && this.sealed == sealed
    {
      this.sealed, kept := sealed, Missing;
    }

    /** The file is lost, or damaged so that it does not read. */
    method Damaged(lost: bool)
      requires Valid()
      modifies this
      ensures Valid()
    {
      kept := if lost then Missing else Malformed;
    }

    /** The books of the runs before: those kept under the key, or walked again and kept. */
    method Before(earlier: seq<Run>, key: Option<Key>, readable: bool)
      returns (daily: Option<Basis>, unexplained: Option<Basis>)
      requires Valid() && (key.Some? ==> earlier == sealed(key.value))
      modifies this
      ensures Valid()
      ensures daily == Found(Events(earlier, false), Daily) && unexplained == Found(Events(earlier, false), Unexplained)
      ensures BasisOf(earlier, false, Daily, daily) && BasisOf(earlier, false, Unexplained, unexplained)
    {
      BooksFound(earlier, false);
      KeptRoundTrip(earlier, Daily);
      KeptRoundTrip(earlier, Unexplained);
      if key.Some? && readable && kept.Kept? && kept.key == key.value {
        return FromKept(kept.daily), FromKept(kept.unexplained);
      }
      var later;
      daily, unexplained, later := Walk(earlier, false);
      if key.Some? {
        kept := Kept(key.value, ToKept(daily), ToKept(unexplained));
      }
    }

    /** previous_close: over any readings of any runs, whatever became of the kept file between them, the two
        bases of one plain walk of the whole chain. */
    method PreviousClose(runs: seq<Run>, key: Option<Key>, readable: bool)
      returns (daily: Option<Basis>, unexplained: Option<Basis>)
      requires Valid() && runs != [] && (key.Some? ==> runs[1..] == sealed(key.value))
      modifies this
      ensures Valid()
      ensures (daily, unexplained) == PlainBases(runs) && PreviousCloseOf(runs, daily, unexplained)
    {
      CloseIs(runs);
      var head := runs[..1];
      var later;
      daily, unexplained, later := Walk(head, true);
      InTwoStages(runs, Daily);
      InTwoStages(runs, Unexplained);
      if daily.None? || unexplained.None? {
        var before0, before1 := Before(runs[1..], key, readable);
        if daily.None? {
          daily := After(before0, later);
        }
        if unexplained.None? {
          unexplained := After(before1, later);
        }
      }
      if daily.Some? && unexplained.None? && daily.value.cash.Some? {
        unexplained := Some(daily.value.(positions := map[]));
      }
    }
  }

  lemma InTwoStages(runs: seq<Run>, w: Which)
    requires runs != []
    ensures var head, earlier := Events(runs[..1], true), Events(runs[1..], false);
            Found(Events(runs, true), w) == if Found(head, w).Some? then Found(head, w)
                else After(Found(earlier, w), FillsOf(head))
  {
    HeadEvents(runs);
    FoundInStages(Events(runs[..1], true), Events(runs[1..], false), w);
  }

  lemma HeadEvents(runs: seq<Run>)
    requires runs != []
    ensures Events(runs, true) == Events(runs[..1], true) + Events(runs[1..], false)
  {
    assert runs[..1] == [runs[0]];
    OneRun(runs[0]);
  }

  lemma OneRun(run: Run)
    ensures Events([run], true) == EventsOf(run, true, run.groups)
  {
    assert [run][1..] == [];
    assert EventsOf(run, true, run.groups) + [] == EventsOf(run, true, run.groups);
  }
}
