/** The two books a reading is compared with, found back through the chain of runs
    (adapter/ibkr/book_basis.py).

    A log is its groups, oldest first; a chain is its runs, newest first. Times are microseconds, cash and
    positions exact integers. */
module BookBasis {
  import opened Wrappers

  datatype Fill = Fill(stamped: int, payload: int)

  datatype Book = Book(positions: map<string, int>, cash: int, otherCurrency: bool)

  datatype Input =
    | FillInput(fill: Fill)
    | Snapshot(asOf: int, positions: map<string, int>, reading: Option<string>)
    | Reconciliation(asOf: int, totalCash: int, cashUnreadable: bool)
    | Approval(approvedAt: int, startingBook: Option<Book>)
    | OtherInput

  /** One decision of a group that classifies a reconciliation: whether it compared and explained its cash, and
      the input it names, its own group's when it names none. */
  datatype Result = Result(explained: bool, names: Option<string>)

  datatype Group = Group(id: string, input: Option<Input>, results: seq<Result>)

  datatype Run = Run(name: string, groups: seq<Group>)

  datatype Source = SnapshotOf(run: string, asOf: int) | ReconciliationOf(run: string, id: string)
      | StartingBookOf(run: string)

  datatype Basis = Basis(positions: map<string, int>, cash: Option<int>, fills: seq<Fill>, source: Source, own: bool,
                         refused: bool, asOf: int)

  // ----- The fills of a window -----

  /** Whole seconds, as a stamp with its microseconds replaced by zero. */
  function ToSecond(t: int): int {
    t - t % 1_000_000
  }

  function Since(fills: seq<Fill>, after: int): seq<Fill> {
    if fills == [] then []
    else (if ToSecond(fills[0].stamped) >= after then [fills[0]] else []) + Since(fills[1..], after)
  }

  lemma {:induction false} SinceConcat(a: seq<Fill>, b: seq<Fill>, after: int)
    ensures Since(a + b, after) == Since(a, after) + Since(b, after)
  {
    if a == [] {
      assert a + b == b;
    } else {
      assert (a + b)[1..] == a[1..] + b;
      SinceConcat(a[1..], b, after);
      var first := if ToSecond(a[0].stamped) >= after then [a[0]] else [];
      assert Since(a + b, after) == first + Since(a[1..] + b, after);
      assert Since(a, after) == first + Since(a[1..], after);
    }
  }

  // ----- What each group offers the walk -----

  function ExplainedBy(g: Group): set<string> {
    set i | 0 <= i < |g.results| && g.results[i].explained :: if g.results[i].names.Some? then g.results[i].names.value
        else g.id
  }

  /** The inputs of a run whose cash some result of the run explained. */
  function Explained(groups: seq<Group>): set<string> {
    if groups == [] then {} else ExplainedBy(groups[0]) + Explained(groups[1..])
  }

  /** The run's input under an ID, the last where two share one. */
  function Lookup(groups: seq<Group>, id: string): Option<Input> {
    if groups == [] then None
    else
      var last := groups[|groups| - 1];
      if last.id == id && last.input.Some? then last.input else Lookup(groups[..|groups| - 1], id)
  }

  function ReadingCash(groups: seq<Group>, reading: Option<string>): Option<int> {
    if reading.None? then None
    else match Lookup(groups, reading.value)
      case Some(Reconciliation(_, cash, unreadable)) => if unreadable then None else Some(cash)
      case _ => None
  }

  /** What one group is to the walk: a fill it passes, or the books it offers, their fills not yet known. */
  datatype Event = Passed(fill: Fill) | Offers(daily: Option<Basis>, unexplained: Option<Basis>)

  function EventOf(run: Run, mine: bool, g: Group): Event {
    match g.input
    case None => Offers(None, None)
    case Some(FillInput(fill)) => Passed(fill)
    case Some(Snapshot(asOf, positions, reading)) =>
      Offers(Some(Basis(positions, ReadingCash(run.groups, reading), [], SnapshotOf(run.name, asOf), mine, false,
          asOf)), None)
    case Some(Reconciliation(asOf, cash, _)) =>
      if g.id in Explained(run.groups)
      then Offers(None, Some(Basis(map[], Some(cash), [], ReconciliationOf(run.name, g.id), mine, false, asOf)))
      else Offers(None, None)
    case Some(Approval(at, Some(book))) =>
      Offers(Some(Basis(book.positions, Some(book.cash), [], StartingBookOf(run.name), false, book.otherCurrency, at)),
             Some(Basis(map[], Some(book.cash), [], StartingBookOf(run.name), false, book.otherCurrency, at)))
    case _ => Offers(None, None)
  }

  /** A run's events, newest first. */
  function EventsOf(run: Run, mine: bool, groups: seq<Group>): (r: seq<Event>)
    ensures |r| == |groups|
    ensures forall i :: 0 <= i < |r| ==> r[i] == EventOf(run, mine, groups[|groups| - 1 - i])
  {
    seq(|groups|, i requires 0 <= i < |groups| => EventOf(run, mine, groups[|groups| - 1 - i]))
  }

  /** A chain's events, newest first. */
  function Events(runs: seq<Run>, own: bool): seq<Event> {
    if runs == [] then [] else EventsOf(runs[0], own, runs[0].groups) + Events(runs[1..], false)
  }

  // ----- The plain walk: the newest book offered, and the fills above it -----

  datatype Which = Daily | Unexplained

  function Offered(e: Event, w: Which): Option<Basis> {
    match e
    case Passed(_) => None
    case Offers(daily, unexplained) => if w.Daily? then daily else unexplained
  }

  function FillsOf(events: seq<Event>): seq<Fill> {
    if events == [] then [] else FillOf(events[0]) + FillsOf(events[1..])
  }

  function FillOf(e: Event): seq<Fill> {
    if e.Passed? then [e.fill] else []
  }

  /** The place of the newest event that offers the book asked for; the number of events when none does. */
  function Place(events: seq<Event>, w: Which): (i: nat)
    ensures i <= |events|
    ensures i < |events| ==> Offered(events[i], w).Some?
  {
    if events == [] || Offered(events[0], w).Some? then 0 else 1 + Place(events[1..], w)
  }

  lemma {:induction false} NoneBefore(events: seq<Event>, w: Which)
    ensures forall j :: 0 <= j < Place(events, w) ==> Offered(events[j], w).None?
  {
    if events != [] && Offered(events[0], w).None? {
      NoneBefore(events[1..], w);
      forall j | 0 <= j < Place(events, w) ensures Offered(events[j], w).None? {
        assert j > 0 ==> events[j] == events[1..][j - 1];
      }
    }
  }

  /** That book with the fills newer than it, stamped at or after its time. */
  function Found(events: seq<Event>, w: Which): Option<Basis> {
    var i := Place(events, w);
    if i == |events| then None
    else
      var b := Offered(events[i], w).value;
      Some(b.(fills := Since(FillsOf(events[..i]), b.asOf)))
  }

  lemma PlaceIs(events: seq<Event>, w: Which, i: nat)
    requires i <= |events| && forall j :: 0 <= j < i ==> Offered(events[j], w).None?
    requires i < |events| ==> Offered(events[i], w).Some?
    ensures Place(events, w) == i
  {
    NoneBefore(events, w);
    assert !(Place(events, w) < i) && !(i < Place(events, w));
  }

  lemma {:induction false} FillsConcat(a: seq<Event>, b: seq<Event>)
    ensures FillsOf(a + b) == FillsOf(a) + FillsOf(b)
  {
    if a == [] {
      assert a + b == b;
    } else {
      assert (a + b)[1..] == a[1..] + b;
      FillsConcat(a[1..], b);
      Regroup(FillOf(a[0]), FillsOf(a[1..]), FillsOf(b));
    }
  }

  /** _after: a basis from further back, with newer fills on top. */
  function After(basis: Option<Basis>, later: seq<Fill>): Option<Basis> {
    if basis.None? then None
    else Some(basis.value.(fills := Since(later, basis.value.asOf) + basis.value.fills))
  }

  /** A walk in two stages finds what one walk finds. */
  lemma FoundInStages(a: seq<Event>, b: seq<Event>, w: Which)
    ensures Found(a + b, w) == if Found(a, w).Some? then Found(a, w) else After(Found(b, w), FillsOf(a))
  {
    if Place(a, w) < |a| {
      FoundAbove(a, b, w);
    } else {
      NoneBefore(a, w);
      FoundBelow(a, b, w);
    }
  }

  lemma FoundAbove(a: seq<Event>, b: seq<Event>, w: Which)
    requires Place(a, w) < |a|
    ensures Found(a + b, w) == Found(a, w)
  {
    var i := Place(a, w);
    NoneBefore(a, w);
    PlaceIs(a + b, w, i);
    assert (a + b)[..i] == a[..i];
  }

  lemma {:induction false} FoundBelow(a: seq<Event>, b: seq<Event>, w: Which)
    requires forall j :: 0 <= j < |a| ==> Offered(a[j], w).None?
    ensures Found(a + b, w) == After(Found(b, w), FillsOf(a))
    decreases |a|
  {
    if a == [] {
      assert a + b == b;
      NothingLater(Found(b, w));
    } else {
      assert a + b == [a[0]] + (a[1..] + b);
      FoundBelow(a[1..], b, w);
      FoundBehind(a[0], a[1..] + b, w);
      AfterBoth(Found(b, w), FillOf(a[0]), FillsOf(a[1..]));
    }
  }

  /** A group that offers nothing adds its fill to what is found behind it. */
  lemma FoundBehind(e: Event, events: seq<Event>, w: Which)
    requires Offered(e, w).None?
    ensures Found([e] + events, w) == After(Found(events, w), FillOf(e))
  {
    var i := Place(events, w);
    assert ([e] + events)[1..] == events;
    if i < |events| {
      var asOf := Offered(events[i], w).value.asOf;
      assert ([e] + events)[..i + 1] == [e] + events[..i];
      FillBehind(e, events[..i]);
      SinceConcat(FillOf(e), FillsOf(events[..i]), asOf);
    }
  }

  lemma FillBehind(e: Event, events: seq<Event>)
    ensures FillsOf([e] + events) == FillOf(e) + FillsOf(events)
  {
    assert ([e] + events)[1..] == events;
  }

  lemma NothingLater(basis: Option<Basis>)
    ensures After(basis, []) == basis
  {
    if basis.Some? { assert Since([], basis.value.asOf) + basis.value.fills == basis.value.fills; }
  }

  lemma AfterBoth(basis: Option<Basis>, later: seq<Fill>, earlier: seq<Fill>)
    ensures After(After(basis, earlier), later) == After(basis, later + earlier)
  {
    if basis.Some? {
      var t := basis.value.asOf;
      SinceConcat(later, earlier, t);
      Regroup(Since(later, t), Since(earlier, t), basis.value.fills);
    }
  }

  // ----- The walk as it is done -----

  /** One event taken: what the loop's body does with a group. */
  function Take(found: Option<Basis>, later: seq<Fill>, e: Event, w: Which): Option<Basis> {
    if found.Some? || Offered(e, w).None? then found
    else Some(Offered(e, w).value.(fills := Since(later, Offered(e, w).value.asOf)))
  }

  lemma TakeFinds(events: seq<Event>, i: nat, w: Which)
    requires i < |events|
    ensures Found(events[..i + 1], w) == Take(Found(events[..i], w), FillsOf(events[..i]), events[i], w)
    ensures FillsOf(events[..i + 1]) == FillsOf(events[..i]) + if events[i].Passed? then [events[i].fill] else []
  {
    assert events[..i + 1] == events[..i] + [events[i]];
    FillsConcat(events[..i], [events[i]]);
    assert [events[i]][1..] == [];
    FoundInStages(events[..i], [events[i]], w);
    OneEvent(events[i], w);
    assert forall fills: seq<Fill> :: fills + [] == fills;
  }

  lemma OneEvent(e: Event, w: Which)
    ensures Found([e], w) == if Offered(e, w).None? then None else Some(Offered(e, w).value.(fills := []))
    ensures FillsOf([e]) == if e.Passed? then [e.fill] else []
  {
    PlaceIs([e], w, if Offered(e, w).None? then 1 else 0);
    assert [e][..0] == [] && [e][1..] == [];
  }

  /** Once found, a book is not found elsewhere further back. */
  lemma FoundStays(events: seq<Event>, i: nat, w: Which)
    requires i <= |events| && Found(events[..i], w).Some?
    ensures Found(events, w) == Found(events[..i], w)
  {
    assert events == events[..i] + events[i..];
    FoundInStages(events[..i], events[i..], w);
  }

  lemma {:induction false} OffersUnfilled(runs: seq<Run>, own: bool, i: nat)
    requires i < |Events(runs, own)|
    ensures var e := Events(runs, own)[i];
            && (Offered(e, Daily).Some? ==> Offered(e, Daily).value.fills == [])
            && (Offered(e, Unexplained).Some? ==>
                   Offered(e, Unexplained).value.fills == [] && Offered(e, Unexplained).value.cash.Some?)
    decreases |runs|
  {
    var first := EventsOf(runs[0], own, runs[0].groups);
    if i >= |first| {
      OffersUnfilled(runs[1..], false, i - |first|);
    }
  }

  // ----- The whole answer -----

  /** The whole answer, by one walk of the whole chain: a chain with no explained cash takes the daily book's. */
  function PlainBases(runs: seq<Run>): (Option<Basis>, Option<Basis>) {
    var daily, unexplained := Found(Events(runs, true), Daily), Found(Events(runs, true), Unexplained);
    (daily, if daily.Some? && unexplained.None? && daily.value.cash.Some? then Some(daily.value.(positions := map[]))
        else unexplained)
  }

  /** A daily basis with cash always comes with an unexplained-cash basis with cash. */
  lemma CashComesWithCash(runs: seq<Run>)
    ensures var (daily, unexplained) := PlainBases(runs);
            && (daily.Some? && daily.value.cash.Some? ==> unexplained.Some?)
            && (unexplained.Some? ==> unexplained.value.cash.Some? && unexplained.value.positions == map[])
  {
    var events := Events(runs, true);
    var i := Place(events, Unexplained);
    if i < |events| {
      OffersUnfilled(runs, true, i);
      NoPositions(runs, true, i);
    }
  }

  lemma {:induction false} NoPositions(runs: seq<Run>, own: bool, i: nat)
    requires i < |Events(runs, own)|
    ensures var e := Events(runs, own)[i];
            Offered(e, Unexplained).Some? ==> Offered(e, Unexplained).value.positions == map[]
    decreases |runs|
  {
    var first := EventsOf(runs[0], own, runs[0].groups);
    if i >= |first| {
      NoPositions(runs[1..], false, i - |first|);
    }
  }
}
