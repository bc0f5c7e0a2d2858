/** The equity before a transfer, and the note on one written out of order (adapter/ibkr/flex.py).

    Instants and days are integers; money is exact. Transaction IDs are ordered values. */
module FlexEquity {
  import opened Wrappers

  /** New York days and the exchange's closes, as the adapter's calendar gives them. */
  datatype Calendar = Calendar(day: int -> int, midnight: int -> int, close: int -> Option<int>)

  ghost predicate ValidCalendar(c: Calendar) {
    && (forall t :: c.midnight(c.day(t)) <= t < c.midnight(c.day(t) + 1))
    && (forall d, e :: d < e ==> c.midnight(d) < c.midnight(e))
    && (forall d :: c.close(d).Some? ==> c.midnight(d) <= c.close(d).value < c.midnight(d + 1))
  }

  datatype Snapshot = Snapshot(asOf: int, value: int, currency: string)

  datatype Transfer = Transfer(at: int, id: int, amount: int)

  datatype Basis = LastSnapshot | SameDaySnapshotLessAmount | NextSnapshotLessAmount

  datatype Note = LaterWrittenFirst | EarlierWrittenFirst

  /** The order of transfers: by time, then by transaction ID. */
  predicate Precedes(a: Transfer, b: Transfer) {
    a.at < b.at || (a.at == b.at && a.id < b.id)
  }

  predicate IsClose(c: Calendar, t: int) {
    c.close(c.day(t)) == Some(t)
  }

  function HeldUntil(c: Calendar, asOf: int): int {
    if IsClose(c, asOf) then c.midnight(c.day(asOf) + 1) else asOf
  }

  function Earlier(snaps: seq<Snapshot>, at: int): seq<Snapshot> {
    if snaps == [] then [] else (if snaps[0].asOf < at then [snaps[0]] else []) + Earlier(snaps[1..], at)
  }

  function CloseAt(c: Calendar, snaps: seq<Snapshot>, at: int): seq<Snapshot> {
    if snaps == [] then []
    else (if snaps[0].asOf == at && IsClose(c, at) then [snaps[0]] else []) + CloseAt(c, snaps[1..], at)
  }

  function NotEarlier(snaps: seq<Snapshot>, at: int): seq<Snapshot> {
    if snaps == [] then [] else (if snaps[0].asOf >= at then [snaps[0]] else []) + NotEarlier(snaps[1..], at)
  }

  lemma {:induction false} SplitAt(c: Calendar, snaps: seq<Snapshot>, at: int)
    ensures forall s :: s in Earlier(snaps, at) <==> s in snaps && s.asOf < at
    ensures forall s :: s in CloseAt(c, snaps, at) <==> s in snaps && s.asOf == at && IsClose(c, at)
    ensures forall s :: s in NotEarlier(snaps, at) <==> s in snaps && s.asOf >= at
  {
    if snaps != [] {
      SplitAt(c, snaps[1..], at);
      assert snaps == [snaps[0]] + snaps[1..];
    }
  }

  /** _interval: the snapshot a transfer takes its equity from, and how. */
  function Interval(c: Calendar, snaps: seq<Snapshot>, at: int): (Option<Snapshot>, Basis) {
    var before := Earlier(snaps, at) + CloseAt(c, snaps, at);
    if before != [] then
      var s := before[|before| - 1];
      if IsClose(c, s.asOf) && c.day(s.asOf) == c.day(at) then (Some(s), SameDaySnapshotLessAmount)
      else (Some(s), LastSnapshot)
    else
      var after := NotEarlier(snaps, at);
      (if after != [] then Some(after[0]) else None, NextSnapshotLessAmount)
  }

  ghost predicate Placed(c: Calendar, s: Snapshot, basis: Basis, at: int) {
    match basis
    case LastSnapshot => at >= HeldUntil(c, s.asOf)
    case SameDaySnapshotLessAmount => at >= s.asOf && c.day(at) == c.day(s.asOf)
    case NextSnapshotLessAmount => at < HeldUntil(c, s.asOf) || (at == s.asOf && !IsClose(c, at))
  }

  /** Where a transfer stands to the snapshot it takes. */
  lemma IntervalPlaces(c: Calendar, snaps: seq<Snapshot>, at: int)
    requires ValidCalendar(c)
    ensures var (s, basis) := Interval(c, snaps, at); s.Some? ==> Placed(c, s.value, basis, at)
  {
    SplitAt(c, snaps, at);
    var before := Earlier(snaps, at) + CloseAt(c, snaps, at);
    if before != [] {
      assert before[|before| - 1] in before;
      PlacedAfter(c, before[|before| - 1], at);
    } else {
      var after := NotEarlier(snaps, at);
      if after != [] {
        assert after[0] in after;
        assert after[0] !in CloseAt(c, snaps, at);
        PlacedBefore(c, after[0], at);
      }
    }
  }

  lemma PlacedAfter(c: Calendar, s: Snapshot, at: int)
    requires ValidCalendar(c) && (s.asOf < at || (s.asOf == at && IsClose(c, at)))
    ensures Placed(c, s, if IsClose(c, s.asOf) && c.day(s.asOf) == c.day(at) then SameDaySnapshotLessAmount
            else LastSnapshot, at)
  {
    if c.day(s.asOf) != c.day(at) { DayAfter(c, s.asOf, at); }
  }

  lemma PlacedBefore(c: Calendar, s: Snapshot, at: int)
    requires ValidCalendar(c) && s.asOf >= at && !(s.asOf == at && IsClose(c, at))
    ensures Placed(c, s, NextSnapshotLessAmount, at)
  {
    assert s.asOf < c.midnight(c.day(s.asOf) + 1);
  }

  lemma DayAfter(c: Calendar, s: int, t: int)
    requires ValidCalendar(c) && s <= t && c.day(s) != c.day(t)
    ensures t >= c.midnight(c.day(s) + 1)
  {
    assert c.day(t) < c.day(s) ==> c.midnight(c.day(t) + 1) <= c.midnight(c.day(s));
  }

  // ----- The equity before a transfer -----

  /** The transfers a transfer's figure adds or takes away, by the snapshot it takes. */
  predicate Counts(c: Calendar, s: Snapshot, basis: Basis, own: Transfer, t: Transfer) {
    match basis
    case LastSnapshot => t.at >= HeldUntil(c, s.asOf) && Precedes(t, own)
    case SameDaySnapshotLessAmount => !Precedes(t, own) && t.at >= s.asOf && c.day(t.at) == c.day(own.at)
    case NextSnapshotLessAmount => !Precedes(t, own) && t.at < HeldUntil(c, s.asOf)
  }

  function Sum(c: Calendar, s: Snapshot, basis: Basis, own: Transfer, ts: seq<Transfer>): int {
    if ts == [] then 0
    else (if Counts(c, s, basis, own, ts[0]) then ts[0].amount else 0) + Sum(c, s, basis, own, ts[1..])
  }

  datatype Equity = Equity(value: int, currency: string, basis: Basis)

  /** _equity_before: None where no snapshot is committed yet. */
  function EquityBefore(c: Calendar, snaps: seq<Snapshot>, ts: seq<Transfer>, own: Transfer): Option<Equity> {
    var (s, basis) := Interval(c, snaps, own.at);
    if s.None? then None
    else
      var sum := Sum(c, s.value, basis, own, ts);
      Some(Equity(s.value.value + (if basis == LastSnapshot then sum else -sum), s.value.currency, basis))
  }

  lemma {:induction false} SumConcat(c: Calendar, s: Snapshot, basis: Basis, own: Transfer, a: seq<Transfer>,
                                     b: seq<Transfer>)
    ensures Sum(c, s, basis, own, a + b) == Sum(c, s, basis, own, a) + Sum(c, s, basis, own, b)
  {
    if a == [] {
      assert a + b == b;
    } else {
      assert (a + b)[1..] == a[1..] + b;
      SumConcat(c, s, basis, own, a[1..], b);
    }
  }

  function Part(c: Calendar, s: Snapshot, basis: Basis, own: Transfer, t: Transfer): int {
    if Counts(c, s, basis, own, t) then t.amount else 0
  }

  lemma SumWithout(c: Calendar, s: Snapshot, basis: Basis, own: Transfer, ts: seq<Transfer>, k: nat)
    requires k < |ts|
    ensures Sum(c, s, basis, own, ts) == Part(c, s, basis, own, ts[k]) + Sum(c, s, basis, own, ts[..k] + ts[k + 1..])
  {
    SumConcat(c, s, basis, own, ts[..k], ts[k..]);
    SumConcat(c, s, basis, own, ts[..k], ts[k + 1..]);
    assert ts == ts[..k] + ts[k..];
    assert ts[k..][1..] == ts[k + 1..];
  }

  lemma RestIsSame(a: seq<Transfer>, b: seq<Transfer>, k: nat)
    requires a != [] && multiset(a) == multiset(b) && k < |b| && b[k] == a[0]
    ensures multiset(a[1..]) == multiset(b[..k] + b[k + 1..])
  {
    var rest := b[..k] + b[k + 1..];
    assert b == b[..k] + ([b[k]] + b[k + 1..]);
    assert multiset(b) == multiset(rest) + multiset{b[k]};
    assert a == [a[0]] + a[1..];
    assert multiset(a) == multiset(a[1..]) + multiset{a[0]};
    assert multiset(a[1..]) == multiset(a) - multiset{a[0]} && multiset(rest) == multiset(b) - multiset{b[k]};
  }

  /** The figure does not depend on the order the transfers are listed in. */
  lemma {:induction false} SumAnyOrder(c: Calendar, s: Snapshot, basis: Basis, own: Transfer, a: seq<Transfer>,
                                       b: seq<Transfer>)
    requires multiset(a) == multiset(b)
    ensures Sum(c, s, basis, own, a) == Sum(c, s, basis, own, b)
    decreases |a|
  {
    assert |a| == |multiset(a)| == |multiset(b)| == |b|;
    if a != [] {
      assert a[0] in multiset(b);
      var k :| 0 <= k < |b| && b[k] == a[0];
      RestIsSame(a, b, k);
      SumWithout(c, s, basis, own, b, k);
      SumAnyOrder(c, s, basis, own, a[1..], b[..k] + b[k + 1..]);
    }
  }

  lemma EquityAnyOrder(c: Calendar, snaps: seq<Snapshot>, a: seq<Transfer>, b: seq<Transfer>, own: Transfer)
    requires multiset(a) == multiset(b)
    ensures EquityBefore(c, snaps, a, own) == EquityBefore(c, snaps, b, own)
  {
    var (s, basis) := Interval(c, snaps, own.at);
    if s.Some? { SumAnyOrder(c, s.value, basis, own, a, b); }
  }

  // ----- The note -----

  /** The window test of _written_first for one record already written. */
  predicate Inside(c: Calendar, snaps: seq<Snapshot>, theirs: Transfer, x: Transfer) {
    var (s, basis) := Interval(c, snaps, theirs.at);
    && s.Some?
    && match basis
       case LastSnapshot => Precedes(x, theirs) && x.at >= HeldUntil(c, s.value.asOf)
       case SameDaySnapshotLessAmount => Precedes(theirs, x) && x.at >= s.value.asOf && c.day(x.at) == c.day(theirs.at)
       case NextSnapshotLessAmount => Precedes(theirs, x) && x.at < HeldUntil(c, s.value.asOf)
  }

  /** Adding x would change the figure of a transfer already written; where it is listed does not matter
      (EquityAnyOrder). */
  predicate Changes(c: Calendar, snaps: seq<Snapshot>, ts: seq<Transfer>, theirs: Transfer, x: Transfer) {
    EquityBefore(c, snaps, ts + [x], theirs) != EquityBefore(c, snaps, ts, theirs)
  }

  /** The window test agrees with the arithmetic, for each of the three bases, whatever else is counted. */
  lemma InsideIsChange(c: Calendar, snaps: seq<Snapshot>, ts: seq<Transfer>, theirs: Transfer, x: Transfer)
    requires x.amount != 0 && x.id != theirs.id
    ensures Inside(c, snaps, theirs, x) <==> Changes(c, snaps, ts, theirs, x)
  {
    var (s, basis) := Interval(c, snaps, theirs.at);
    if s.Some? {
      SumConcat(c, s.value, basis, theirs, ts, [x]);
      assert [x][1..] == [];
    }
  }

  predicate InTime(ts: seq<Transfer>) {
    forall i, j :: 0 <= i < j < |ts| ==> Precedes(ts[i], ts[j])
  }

  /** _written_first: noted exactly when adding the transfer would change the figure of one already written, and
      by which side the first such record lies on. */
  method WrittenFirst(c: Calendar, snaps: seq<Snapshot>, written: seq<Transfer>, x: Transfer)
    returns (note: Option<Note>)
    requires InTime(written) && x.amount != 0 && forall w :: w in written ==> w.id != x.id
    ensures note.Some? <==> exists w :: w in written && Changes(c, snaps, written, w, x)
    ensures note == Some(EarlierWrittenFirst) <==>
            exists w :: w in written && Precedes(w, x) && Changes(c, snaps, written, w, x)
  {
    var i := FirstInside(c, snaps, written, x);
    InsideAreChanges(c, snaps, written, x, i);
    if i == |written| {
      return None;
    }
    return Some(if Precedes(x, written[i]) then LaterWrittenFirst else EarlierWrittenFirst);
  }

  /** The first record whose window holds x. */
  method FirstInside(c: Calendar, snaps: seq<Snapshot>, written: seq<Transfer>, x: Transfer) returns (i: nat)
    ensures i <= |written| && (i < |written| ==> Inside(c, snaps, written[i], x))
    ensures forall j :: 0 <= j < i ==> !Inside(c, snaps, written[j], x)
  {
    i := 0;
    while i < |written|
      invariant i <= |written| && forall j :: 0 <= j < i ==> !Inside(c, snaps, written[j], x)
    {
      if Inside(c, snaps, written[i], x) {
        return;
      }
      i := i + 1;
    }
  }

  lemma InsideAreChanges(c: Calendar, snaps: seq<Snapshot>, written: seq<Transfer>, x: Transfer, i: nat)
    requires InTime(written) && x.amount != 0 && forall w :: w in written ==> w.id != x.id
    requires i <= |written| && (i < |written| ==> Inside(c, snaps, written[i], x))
    requires forall j :: 0 <= j < i ==> !Inside(c, snaps, written[j], x)
    ensures i < |written| <==> exists w :: w in written && Changes(c, snaps, written, w, x)
    ensures i < |written| && !Precedes(x, written[i]) <==>
            exists w :: w in written && Precedes(w, x) && Changes(c, snaps, written, w, x)
  {
    forall j | 0 <= j < |written| ensures Inside(c, snaps, written[j], x) <==>
        Changes(c, snaps, written, written[j], x) {
      InsideIsChange(c, snaps, written, written[j], x);
    }
    if i < |written| {
      assert written[i] in written && Changes(c, snaps, written, written[i], x);
    }
    forall w | w in written && Changes(c, snaps, written, w, x)
      ensures i < |written| && (Precedes(w, x) ==> !Precedes(x, written[i]))
    {
      var j :| 0 <= j < |written| && written[j] == w;
      assert j >= i;
    }
  }

  // ----- Consecutive figures agree -----

  lemma {:induction false} SumSame(c: Calendar, s: Snapshot, basis: Basis, a: Transfer, b: Transfer, ts: seq<Transfer>)
    requires forall t :: t in ts ==> (Counts(c, s, basis, a, t) <==> Counts(c, s, basis, b, t))
    ensures Sum(c, s, basis, a, ts) == Sum(c, s, basis, b, ts)
  {
    if ts != [] {
      assert ts[0] in ts;
      SumSame(c, s, basis, a, b, ts[1..]);
    }
  }

  /** Every other transfer stands to two neighbours alike, so their figures differ by the first of them. */
  lemma SumAdjacent(c: Calendar, s: Snapshot, basis: Basis, ts: seq<Transfer>, i: nat)
    requires InTime(ts) && i + 1 < |ts| && (basis == SameDaySnapshotLessAmount ==>
             c.day(ts[i].at) == c.day(ts[i + 1].at))
    ensures var a, b := ts[i], ts[i + 1];
            Sum(c, s, basis, b, ts) - Sum(c, s, basis, a, ts) == Part(c, s, basis, b, a) - Part(c, s, basis, a, a)
  {
    var a, b := ts[i], ts[i + 1];
    var rest := ts[..i] + ts[i + 1..];
    SumWithout(c, s, basis, a, ts, i);
    SumWithout(c, s, basis, b, ts, i);
    forall t | t in rest ensures Precedes(t, a) <==> Precedes(t, b) {
      var j :| 0 <= j < |rest| && rest[j] == t;
      assert rest[j] == if j < i then ts[j] else ts[j + 1];
    }
    SumSame(c, s, basis, a, b, rest);
  }

  /** Two transfers next to each other that take one snapshot one way: the equity before the second is the equity
      before the first and the first's amount, unless both fall on the very second of a first snapshot that is no
      close. Such a snapshot holds what came before it, so neither is taken back from it, and in that case, and only
      then, the two figures are equal. */
  lemma ConsecutiveFigures(c: Calendar, snaps: seq<Snapshot>, ts: seq<Transfer>, i: nat)
    requires ValidCalendar(c) && InTime(ts) && i + 1 < |ts| && ts[i].amount != 0
    requires Interval(c, snaps, ts[i].at).0.Some? && Interval(c, snaps, ts[i].at) == Interval(c, snaps, ts[i + 1].at)
    ensures var (s, basis) := Interval(c, snaps, ts[i].at);
            var first, second := EquityBefore(c, snaps, ts, ts[i]).value.value,
                EquityBefore(c, snaps, ts, ts[i + 1]).value.value;
            var onTheSecond := basis == NextSnapshotLessAmount && ts[i].at == s.value.asOf;
            && (second == first + ts[i].amount <==> !onTheSecond)
            && (onTheSecond ==> second == first && ts[i + 1].at == ts[i].at && !IsClose(c, ts[i].at))
  {
    IntervalPlaces(c, snaps, ts[i].at);
    IntervalPlaces(c, snaps, ts[i + 1].at);
    var (s, basis) := Interval(c, snaps, ts[i].at);
    SumAdjacent(c, s.value, basis, ts, i);
    if basis == NextSnapshotLessAmount {
      NextIsNotEarlier(c, snaps, ts[i].at);
      NextIsNotEarlier(c, snaps, ts[i + 1].at);
    }
    PartsDiffer(c, s.value, basis, ts[i], ts[i + 1]);
  }

  /** Which of two neighbours counts the first of them. */
  lemma PartsDiffer(c: Calendar, s: Snapshot, basis: Basis, a: Transfer, b: Transfer)
    requires ValidCalendar(c) && Precedes(a, b) && Placed(c, s, basis, a.at) && Placed(c, s, basis, b.at)
    requires basis == NextSnapshotLessAmount ==> b.at <= s.asOf && !(a.at == s.asOf && IsClose(c, a.at))
    ensures var onTheSecond := basis == NextSnapshotLessAmount && a.at == s.asOf;
            && Part(c, s, basis, b, a) - Part(c, s, basis, a, a)
               == (if onTheSecond then 0 else if basis == LastSnapshot then a.amount else -a.amount)
            && (onTheSecond ==> b.at == a.at && !IsClose(c, a.at))
  {
    assert IsClose(c, s.asOf) ==> s.asOf < HeldUntil(c, s.asOf);
  }

  lemma NextIsNotEarlier(c: Calendar, snaps: seq<Snapshot>, at: int)
    requires Interval(c, snaps, at).0.Some? && Interval(c, snaps, at).1 == NextSnapshotLessAmount
    ensures var asOf := Interval(c, snaps, at).0.value.asOf; asOf >= at && !(asOf == at && IsClose(c, at))
  {
    SplitAt(c, snaps, at);
    var after := NotEarlier(snaps, at);
    assert after[0] in after;
    assert after[0] !in CloseAt(c, snaps, at);
  }

  // ----- Two transfers in one second -----

  /** A calendar of days of a hundred instants with no session. */
  const Plainly: Calendar := Calendar((t: int) => t / 100, (d: int) => d * 100, (d: int) => None)

  const FirstReading: seq<Snapshot> := [Snapshot(50, 1000, "USD")]
  const InOneSecond: seq<Transfer> := [Transfer(50, 1, 10), Transfer(50, 2, 20)]

  /** Two transfers on the second of the first snapshot, which is no close: the equity before the second leaves out the
      first, which came before it. */
  lemma OneSecondDoesNotChain()
    ensures ValidCalendar(Plainly) && InTime(InOneSecond)
    ensures EquityBefore(Plainly, FirstReading, InOneSecond, InOneSecond[0]) ==
            Some(Equity(1000, "USD", NextSnapshotLessAmount))
    ensures EquityBefore(Plainly, FirstReading, InOneSecond, InOneSecond[1]) ==
            Some(Equity(1000, "USD", NextSnapshotLessAmount))
  {
    var s := FirstReading[0];
    assert FirstReading[1..] == [];
    assert Earlier(FirstReading, 50) == [] && CloseAt(Plainly, FirstReading, 50) == []
        && NotEarlier(FirstReading, 50) == [s] + [];
    assert Interval(Plainly, FirstReading, 50) == (Some(s), NextSnapshotLessAmount);
    NoneCounts(InOneSecond[0]);
    NoneCounts(InOneSecond[1]);
  }

  lemma NoneCounts(own: Transfer)
    ensures Sum(Plainly, FirstReading[0], NextSnapshotLessAmount, own, InOneSecond) == 0
  {
    assert InOneSecond[1..] == [InOneSecond[1]] && [InOneSecond[1]][1..] == [];
    assert Sum(Plainly, FirstReading[0], NextSnapshotLessAmount, own, [InOneSecond[1]]) == 0;
  }
}
