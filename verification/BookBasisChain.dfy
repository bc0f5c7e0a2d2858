/** The two books of a chain of runs, from the runs' own groups: the newest one offered, and the fills committed after
    it (adapter/ibkr/book_basis.py:154-222, 318-343). */
module BookBasisChain {
  import opened Wrappers
  import opened BookBasis

  // ----- Places in a chain -----

  /** A group of a run; runs are newest first, and a run's groups oldest first. */
  datatype Pos = Pos(run: int, group: int)

  ghost predicate In(runs: seq<Run>, p: Pos) {
    0 <= p.run < |runs| && 0 <= p.group < |runs[p.run].groups|
  }

  ghost predicate Newer(p: Pos, q: Pos) {
    p.run < q.run || (p.run == q.run && p.group > q.group)
  }

  function GroupAt(runs: seq<Run>, p: Pos): Group
    requires In(runs, p)
  {
    runs[p.run].groups[p.group]
  }

  // ----- What a group offers -----

  /** Some result of the run explained the input's cash: one naming it, or one of its own group naming none. */
  ghost predicate ExplainedIn(run: Run, id: string) {
    exists k :: 0 <= k < |run.groups| && Explains(run.groups[k], id)
  }

  ghost predicate Explains(g: Group, id: string) {
    exists r :: 0 <= r < |g.results| && g.results[r].explained
        && (g.results[r].names == Some(id) || (g.results[r].names == None && g.id == id))
  }

  ghost predicate StatesBook(g: Group) {
    exists at, book :: g.input == Some(Approval(at, Some(book)))
  }

  /** The daily basis is an account snapshot or a stated book; the other a reconciliation explained, or a stated
      book. */
  ghost predicate OffersAt(runs: seq<Run>, w: Which, p: Pos)
    requires In(runs, p)
  {
    var g := GroupAt(runs, p);
    || StatesBook(g)
    || if w == Daily then g.input.Some? && g.input.value.Snapshot?
       else g.input.Some? && g.input.value.Reconciliation? && ExplainedIn(runs[p.run], g.id)
  }

  /** It offers the book, and no newer group does. */
  ghost predicate Newest(runs: seq<Run>, w: Which, p: Pos) {
    && In(runs, p) && OffersAt(runs, w, p)
    && forall q :: In(runs, q) && Newer(q, p) ==> !OffersAt(runs, w, q)
  }

  // ----- The book found -----

  /** The run's last input under an ID. */
  ghost predicate LastUnder(groups: seq<Group>, id: string, k: int) {
    && 0 <= k < |groups| && groups[k].id == id && groups[k].input.Some?
    && forall j :: k < j < |groups| && groups[j].id == id ==> groups[j].input == None
  }

  /** The total cash a reconciliation's reading holds. */
  function CashOf(input: Input): Option<int> {
    match input
    case Reconciliation(_, cash, false) => Some(cash)
    case _ => None
  }

  /** The total cash of the reading a snapshot was taken with, where the run holds it and it was read. */
  ghost predicate CashRead(groups: seq<Group>, reading: Option<string>, cash: int) {
    reading.Some? && exists k :: LastUnder(groups, reading.value, k) && CashOf(groups[k].input.value) == Some(cash)
  }

  /** The book of the group, but for its fills. */
  ghost predicate BookAt(runs: seq<Run>, own: bool, w: Which, p: Pos, b: Basis)
    requires In(runs, p)
  {
    var run, g := runs[p.run], GroupAt(runs, p);
    match g.input
    case Some(Snapshot(asOf, positions, reading)) =>
      && b.positions == positions && (forall cash :: b.cash == Some(cash) <==> CashRead(run.groups, reading, cash))
      && b.source == SnapshotOf(run.name, asOf) && b.own == (own && p.run == 0) && !b.refused && b.asOf == asOf
    case Some(Reconciliation(asOf, cash, _)) =>
      && b.positions == map[] && b.cash == Some(cash) && b.source == ReconciliationOf(run.name, g.id)
      && b.own == (own && p.run == 0) && !b.refused && b.asOf == asOf
    case Some(Approval(at, Some(book))) =>
      && b.positions == (if w == Daily then book.positions else map[]) && b.cash == Some(book.cash)
      && b.source == StartingBookOf(run.name) && !b.own && b.refused == book.otherCurrency && b.asOf == at
    case _ => false
  }

  /** A fill newer than the place, stamped to the second at or after the time. */
  ghost predicate FillAfter(runs: seq<Run>, p: Pos, asOf: int, q: Pos, f: Fill) {
    && In(runs, q) && Newer(q, p) && GroupAt(runs, q).input == Some(FillInput(f))
    && f.stamped - f.stamped % 1_000_000 >= asOf
  }

  /** Those fills, newest first. */
  ghost predicate FillsAfter(runs: seq<Run>, p: Pos, asOf: int, fills: seq<Fill>) {
    exists at: seq<Pos> :: FillsAt(runs, p, asOf, fills, at)
  }

  ghost predicate FillsAt(runs: seq<Run>, p: Pos, asOf: int, fills: seq<Fill>, at: seq<Pos>) {
    && |at| == |fills| && (forall i, j :: 0 <= i < j < |at| ==> Newer(at[i], at[j]))
    && (forall i :: 0 <= i < |at| ==> FillAfter(runs, p, asOf, at[i], fills[i]))
    && (forall q, f :: FillAfter(runs, p, asOf, q, f) ==> q in at)
  }

  /** The book the chain gives: the newest offered, with the fills after it; none exactly where none is offered. */
  ghost predicate BasisOf(runs: seq<Run>, own: bool, w: Which, basis: Option<Basis>) {
    if exists p :: In(runs, p) && OffersAt(runs, w, p) then
      && basis.Some?
      && exists p :: Newest(runs, w, p) && BookAt(runs, own, w, p, basis.value)
              && FillsAfter(runs, p, basis.value.asOf, basis.value.fills)
    else basis == None
  }

  // ----- Where each group stands among the events -----

  function Index(runs: seq<Run>, p: Pos): (i: nat)
    requires In(runs, p)
    decreases |runs|
  {
    if p.run == 0 then |runs[0].groups| - 1 - p.group
    else |runs[0].groups| + Index(runs[1..], Pos(p.run - 1, p.group))
  }

  lemma {:induction false} EventAt(runs: seq<Run>, own: bool, p: Pos)
    requires In(runs, p)
    ensures var i := Index(runs, p);
            && i < |Events(runs, own)|
            && Events(runs, own)[i] == EventOf(runs[p.run], own && p.run == 0, GroupAt(runs, p))
    decreases |runs|
  {
    if p.run > 0 {
      EventAt(runs[1..], false, Pos(p.run - 1, p.group));
    }
  }

  lemma {:induction false} EveryEvent(runs: seq<Run>, own: bool, i: nat)
    requires i < |Events(runs, own)|
    ensures exists p :: In(runs, p) && Index(runs, p) == i
    decreases |runs|
  {
    var n := |runs[0].groups|;
    if i < n {
      assert Index(runs, Pos(0, n - 1 - i)) == i;
    } else {
      EveryEvent(runs[1..], false, i - n);
      var p :| In(runs[1..], p) && Index(runs[1..], p) == i - n;
      assert Index(runs, Pos(p.run + 1, p.group)) == i;
    }
  }

  lemma {:induction false} IndexOrders(runs: seq<Run>, p: Pos, q: Pos)
    requires In(runs, p) && In(runs, q)
    ensures Newer(p, q) <==> Index(runs, p) < Index(runs, q)
    decreases |runs|
  {
    if p.run > 0 && q.run > 0 {
      IndexOrders(runs[1..], Pos(p.run - 1, p.group), Pos(q.run - 1, q.group));
    }
  }

  // ----- The events are what the groups offer -----

  lemma {:induction false} ExplainedIs(groups: seq<Group>, id: string)
    ensures id in Explained(groups) <==> exists k :: 0 <= k < |groups| && Explains(groups[k], id)
  {
    if groups != [] {
      var rest := groups[1..];
      ExplainedIs(rest, id);
      ExplainedByIs(groups[0], id);
      if k :| 0 <= k < |groups| && Explains(groups[k], id) {
        assert k > 0 ==> rest[k - 1] == groups[k];
      }
      if k :| 0 <= k < |rest| && Explains(rest[k], id) {
        assert groups[k + 1] == rest[k];
      }
    }
  }

  lemma ExplainedByIs(g: Group, id: string)
    ensures id in ExplainedBy(g) <==> Explains(g, id)
  {
    if Explains(g, id) {
      var r :| 0 <= r < |g.results| && g.results[r].explained
               && (g.results[r].names == Some(id) || (g.results[r].names == None && g.id == id));
      assert id == if g.results[r].names.Some? then g.results[r].names.value else g.id;
    }
  }

  lemma {:induction false} LookupIs(groups: seq<Group>, id: string)
    ensures match Lookup(groups, id)
            case Some(input) => exists k :: LastUnder(groups, id, k) && groups[k].input == Some(input)
            case None => forall k :: 0 <= k < |groups| && groups[k].id == id ==> groups[k].input == None
  {
    if groups != [] {
      var n := |groups| - 1;
      if groups[n].id == id && groups[n].input.Some? {
        assert LastUnder(groups, id, n);
      } else {
        LookupIs(groups[..n], id);
        if Lookup(groups, id).Some? {
          var k :| LastUnder(groups[..n], id, k) && groups[..n][k].input == Lookup(groups, id);
          assert LastUnder(groups, id, k) by {
            assert forall j :: 0 <= j < n ==> groups[..n][j] == groups[j];
          }
        }
      }
    }
  }

  lemma OneLast(groups: seq<Group>, id: string, j: int, k: int)
    requires LastUnder(groups, id, j) && LastUnder(groups, id, k)
    ensures j == k
  {
    assert !(j < k) && !(k < j);
  }

  lemma CashIs(groups: seq<Group>, reading: Option<string>, cash: int)
    ensures ReadingCash(groups, reading) == Some(cash) <==> CashRead(groups, reading, cash)
  {
    if reading.Some? {
      var id := reading.value;
      LookupIs(groups, id);
      if Lookup(groups, id).Some? {
        var k :| LastUnder(groups, id, k) && groups[k].input == Lookup(groups, id);
        if CashRead(groups, reading, cash) {
          var j :| LastUnder(groups, id, j) && CashOf(groups[j].input.value) == Some(cash);
          OneLast(groups, id, j, k);
        }
      }
    }
  }

  lemma OfferedIs(runs: seq<Run>, own: bool, w: Which, p: Pos)
    requires In(runs, p)
    ensures var offered := Offered(EventOf(runs[p.run], own && p.run == 0, GroupAt(runs, p)), w);
            && (offered.Some? <==> OffersAt(runs, w, p))
            && (offered.Some? ==> forall fills :: BookAt(runs, own, w, p, offered.value.(fills := fills)))
  {
    var run, g := runs[p.run], GroupAt(runs, p);
    match g.input
    case Some(Snapshot(asOf, positions, reading)) =>
      forall cash ensures ReadingCash(run.groups, reading) == Some(cash) <==> CashRead(run.groups, reading, cash) {
        CashIs(run.groups, reading, cash);
      }
    case Some(Reconciliation(_, _, _)) =>
      ExplainedIs(run.groups, g.id);
    case Some(Approval(at, Some(book))) =>
      assert StatesBook(g);
    case _ =>
  }

  // ----- The fills passed on the way -----

  /** The fills of the first i events stamped at or after the time, newest first. */
  ghost predicate PassedAt(runs: seq<Run>, i: int, asOf: int, fills: seq<Fill>, at: seq<Pos>) {
    && |at| == |fills| && (forall j, k :: 0 <= j < k < |at| ==> Newer(at[j], at[k]))
    && (forall j :: 0 <= j < |at| ==> PassedFill(runs, i, asOf, at[j], fills[j]))
    && (forall q, f :: PassedFill(runs, i, asOf, q, f) ==> q in at)
  }

  ghost predicate Passes(runs: seq<Run>, i: int, asOf: int, fills: seq<Fill>) {
    exists at :: PassedAt(runs, i, asOf, fills, at)
  }

  ghost predicate PassedFill(runs: seq<Run>, i: int, asOf: int, q: Pos, f: Fill) {
    && In(runs, q) && Index(runs, q) < i && GroupAt(runs, q).input == Some(FillInput(f))
    && f.stamped - f.stamped % 1_000_000 >= asOf
  }

  lemma SameIndex(runs: seq<Run>, p: Pos, q: Pos)
    requires In(runs, p) && In(runs, q) && Index(runs, p) == Index(runs, q)
    ensures p == q
  {
    IndexOrders(runs, p, q);
    IndexOrders(runs, q, p);
  }

  /** The fill an event passes, where it is stamped at or after the time. */
  function Kept(e: Event, asOf: int): seq<Fill> {
    if e.Passed? && e.fill.stamped - e.fill.stamped % 1_000_000 >= asOf then [e.fill] else []
  }

  lemma KeptNext(events: seq<Event>, i: nat, asOf: int)
    requires i < |events|
    ensures Since(FillsOf(events[..i + 1]), asOf) == Since(FillsOf(events[..i]), asOf) + Kept(events[i], asOf)
  {
    assert events[..i + 1] == events[..i] + [events[i]];
    FillsConcat(events[..i], [events[i]]);
    OneEvent(events[i], Daily);
    SinceConcat(FillsOf(events[..i]), FillsOf([events[i]]), asOf);
    assert Since(FillsOf([events[i]]), asOf) == Kept(events[i], asOf);
  }

  lemma {:induction false} FillsPassed(runs: seq<Run>, own: bool, events: seq<Event>, i: nat, asOf: int)
    requires events == Events(runs, own) && i <= |events|
    ensures Passes(runs, i, asOf, Since(FillsOf(events[..i]), asOf))
    decreases i
  {
    if i == 0 {
      assert Since(FillsOf(events[..0]), asOf) == [];
      assert PassedAt(runs, 0, asOf, [], []);
    } else {
      FillsPassed(runs, own, events, i - 1, asOf);
      EveryEvent(runs, own, i - 1);
      var p :| In(runs, p) && Index(runs, p) == i - 1;
      KeptNext(events, i - 1, asOf);
      KeptIs(runs, own, p, i, asOf, events[i - 1]);
      NextPassed(runs, i, asOf, Since(FillsOf(events[..i - 1]), asOf), p, Kept(events[i - 1], asOf));
    }
  }

  lemma KeptIs(runs: seq<Run>, own: bool, p: Pos, i: nat, asOf: int, e: Event)
    requires In(runs, p) && Index(runs, p) + 1 == i <= |Events(runs, own)| && e == Events(runs, own)[i - 1]
    ensures |Kept(e, asOf)| <= 1 && forall f :: Kept(e, asOf) == [f] <==> PassedFill(runs, i, asOf, p, f)
  {
    EventAt(runs, own, p);
  }

  lemma NextPassed(runs: seq<Run>, i: nat, asOf: int, before: seq<Fill>, p: Pos, more: seq<Fill>)
    requires In(runs, p) && Index(runs, p) + 1 == i && Passes(runs, i - 1, asOf, before)
    requires |more| <= 1 && forall f :: more == [f] <==> PassedFill(runs, i, asOf, p, f)
    ensures Passes(runs, i, asOf, before + more)
  {
    var at :| PassedAt(runs, i - 1, asOf, before, at);
    OneMore(runs, i, asOf, before, at, p, more);
  }

  lemma OneMore(runs: seq<Run>, i: nat, asOf: int, before: seq<Fill>, at: seq<Pos>, p: Pos, more: seq<Fill>)
    requires In(runs, p) && Index(runs, p) + 1 == i && PassedAt(runs, i - 1, asOf, before, at)
    requires |more| <= 1 && forall f :: more == [f] <==> PassedFill(runs, i, asOf, p, f)
    ensures Passes(runs, i, asOf, before + more)
  {
    if more == [] {
      assert before + more == before;
      forall q, f | PassedFill(runs, i, asOf, q, f) ensures q in at {
        InMore(runs, i, asOf, before, at, p, q, f);
        assert q == p ==> more == [f];
      }
      forall j | 0 <= j < |at| ensures PassedFill(runs, i, asOf, at[j], before[j]) {
        assert PassedFill(runs, i - 1, asOf, at[j], before[j]);
      }
      assert PassedAt(runs, i, asOf, before + more, at);
    } else {
      AddsLast(runs, i, asOf, before, at, p, more[0]);
      assert more == [more[0]];
    }
  }

  lemma InMore(runs: seq<Run>, i: nat, asOf: int, before: seq<Fill>, at: seq<Pos>, p: Pos, q: Pos, f: Fill)
    requires In(runs, p) && Index(runs, p) + 1 == i && PassedAt(runs, i - 1, asOf, before, at)
    requires PassedFill(runs, i, asOf, q, f)
    ensures q in at || q == p
  {
    if Index(runs, q) == i - 1 {
      SameIndex(runs, p, q);
    } else {
      assert PassedFill(runs, i - 1, asOf, q, f);
    }
  }

  lemma AddsLast(runs: seq<Run>, i: nat, asOf: int, before: seq<Fill>, at: seq<Pos>, p: Pos, f: Fill)
    requires In(runs, p) && Index(runs, p) + 1 == i && PassedAt(runs, i - 1, asOf, before, at)
    requires PassedFill(runs, i, asOf, p, f)
    ensures PassedAt(runs, i, asOf, before + [f], at + [p])
  {
    var all, fills := at + [p], before + [f];
    forall q, x | PassedFill(runs, i, asOf, q, x) ensures q in all {
      InMore(runs, i, asOf, before, at, p, q, x);
      if q in at {
        var k :| 0 <= k < |at| && at[k] == q;
        assert all[k] == q;
      } else {
        assert all[|at|] == p;
      }
    }
    forall j | 0 <= j < |all| ensures PassedFill(runs, i, asOf, all[j], fills[j]) {
      if j < |at| {
        assert PassedFill(runs, i - 1, asOf, at[j], before[j]);
      }
    }
    forall j, k | 0 <= j < k < |all| ensures Newer(all[j], all[k]) {
      if k == |at| {
        assert PassedFill(runs, i - 1, asOf, at[j], before[j]);
        IndexOrders(runs, at[j], p);
      } else {
        assert Newer(at[j], at[k]);
      }
    }
  }

  // ----- The book found is the newest offered -----

  lemma ChainBasis(runs: seq<Run>, own: bool, w: Which)
    ensures BasisOf(runs, own, w, Found(Events(runs, own), w))
  {
    var events := Events(runs, own);
    var i := Place(events, w);
    NoneBefore(events, w);
    forall q | In(runs, q) ensures OffersAt(runs, w, q) ==> i <= Index(runs, q) < |events| {
      EventAt(runs, own, q);
      OfferedIs(runs, own, w, q);
    }
    if i < |events| {
      EveryEvent(runs, own, i);
      var p :| In(runs, p) && Index(runs, p) == i;
      EventAt(runs, own, p);
      OfferedIs(runs, own, w, p);
      forall q | In(runs, q) && Newer(q, p) ensures !OffersAt(runs, w, q) {
        IndexOrders(runs, q, p);
      }
      var b := Found(events, w).value;
      FillsPassed(runs, own, events, i, b.asOf);
      var at :| PassedAt(runs, i, b.asOf, b.fills, at);
      FillsAreAfter(runs, p, b.asOf, b.fills, at);
    }
  }

  lemma FillsAreAfter(runs: seq<Run>, p: Pos, asOf: int, fills: seq<Fill>, at: seq<Pos>)
    requires In(runs, p) && PassedAt(runs, Index(runs, p), asOf, fills, at)
    ensures FillsAfter(runs, p, asOf, fills)
  {
    forall q | In(runs, q) ensures Newer(q, p) <==> Index(runs, q) < Index(runs, p) {
      IndexOrders(runs, q, p);
    }
    forall q, f ensures FillAfter(runs, p, asOf, q, f) <==> PassedFill(runs, Index(runs, p), asOf, q, f) {}
    assert FillsAt(runs, p, asOf, fills, at);
  }

  /** previous_close's two: the newest snapshot or stated book, and the newest cash explained or stated; a chain with
      neither of the last takes the first's, where its cash was read. */
  ghost predicate PreviousCloseOf(runs: seq<Run>, daily: Option<Basis>, unexplained: Option<Basis>) {
    && BasisOf(runs, true, Daily, daily)
    && if exists p :: In(runs, p) && OffersAt(runs, Unexplained, p) then BasisOf(runs, true, Unexplained, unexplained)
       else if daily.Some? && daily.value.cash.Some? then unexplained == Some(daily.value.(positions := map[]))
       else unexplained == None
  }

  lemma CloseIs(runs: seq<Run>)
    ensures var (daily, unexplained) := PlainBases(runs); PreviousCloseOf(runs, daily, unexplained)
  {
    ChainBasis(runs, true, Daily);
    ChainBasis(runs, true, Unexplained);
  }
}
