/** Which snapshot a transfer takes its equity from, and what the figure is: the account's equity at the transfer's own
    moment (adapter/ibkr/flex.py:899-943). */
module FlexTaken {
  import opened Wrappers
  import opened FlexEquity

  /** read_chain's order: by time. */
  ghost predicate TimeOrdered(snaps: seq<Snapshot>) {
    forall i, j :: 0 <= i < j < |snaps| ==> snaps[i].asOf <= snaps[j].asOf
  }

  /** Before the moment, or a close at its own second. */
  ghost predicate Behind(c: Calendar, s: Snapshot, at: int) {
    s.asOf < at || (s.asOf == at && IsClose(c, at))
  }

  /** The snapshot behind the moment with none behind it later on; where none is behind it, the first of all. */
  ghost predicate TakenAt(c: Calendar, snaps: seq<Snapshot>, at: int, k: int) {
    && 0 <= k < |snaps|
    && if exists j :: 0 <= j < |snaps| && Behind(c, snaps[j], at) then
         Behind(c, snaps[k], at) && forall j :: k < j < |snaps| ==> !Behind(c, snaps[j], at)
       else k == 0
  }

  ghost predicate BasisOf(c: Calendar, s: Snapshot, at: int, basis: Basis) {
    && (basis == NextSnapshotLessAmount <==> !Behind(c, s, at))
    && (basis == SameDaySnapshotLessAmount <==> Behind(c, s, at) && IsClose(c, s.asOf) && c.day(s.asOf) == c.day(at))
  }

  lemma OrderedTail(snaps: seq<Snapshot>, n: nat)
    requires TimeOrdered(snaps) && n <= |snaps|
    ensures TimeOrdered(snaps[n..])
    ensures n > 0 ==> forall j :: 0 <= j < |snaps[n..]| ==> snaps[0].asOf <= snaps[n..][j].asOf
  {
    var tail := snaps[n..];
    forall i, j | 0 <= i < j < |tail| ensures tail[i].asOf <= tail[j].asOf {
      assert tail[i] == snaps[n + i] && tail[j] == snaps[n + j];
    }
    if n > 0 {
      forall j | 0 <= j < |tail| ensures snaps[0].asOf <= tail[j].asOf {
        assert tail[j] == snaps[n + j];
      }
    }
  }

  lemma {:induction false} EarlierAre(snaps: seq<Snapshot>, at: int)
    requires TimeOrdered(snaps)
    ensures var n := |Earlier(snaps, at)|;
            && n <= |snaps| && Earlier(snaps, at) == snaps[..n] && (forall j :: 0 <= j < n ==> snaps[j].asOf < at)
            && forall j :: n <= j < |snaps| ==> at <= snaps[j].asOf
  {
    if snaps != [] {
      OrderedTail(snaps, 1);
      EarlierAre(snaps[1..], at);
      if at <= snaps[0].asOf {
        NoneEarlier(snaps[1..], at, snaps[0].asOf);
      }
    }
  }

  lemma {:induction false} NoneAt(c: Calendar, snaps: seq<Snapshot>, at: int)
    requires forall j :: 0 <= j < |snaps| ==> at <= snaps[j].asOf && !Behind(c, snaps[j], at)
    ensures CloseAt(c, snaps, at) == []
  {
    if snaps != [] {
      NoneAt(c, snaps[1..], at);
    }
  }

  /** Of snapshots none of which is earlier, in time order, the closes at the moment come first. */
  lemma {:induction false} CloseAre(c: Calendar, snaps: seq<Snapshot>, at: int)
    requires TimeOrdered(snaps) && forall j :: 0 <= j < |snaps| ==> at <= snaps[j].asOf
    ensures var n := |CloseAt(c, snaps, at)|;
            && n <= |snaps| && CloseAt(c, snaps, at) == snaps[..n]
            && (forall j :: 0 <= j < n ==> Behind(c, snaps[j], at))
            && forall j :: n <= j < |snaps| ==> !Behind(c, snaps[j], at)
  {
    if snaps != [] {
      OrderedTail(snaps, 1);
      if Behind(c, snaps[0], at) {
        CloseAre(c, snaps[1..], at);
      } else {
        NoneAt(c, snaps, at);
      }
    }
  }

  lemma {:induction false} CloseAfter(c: Calendar, snaps: seq<Snapshot>, at: int, n: nat)
    requires n <= |snaps| && forall j :: 0 <= j < n ==> snaps[j].asOf < at
    ensures CloseAt(c, snaps, at) == CloseAt(c, snaps[n..], at)
  {
    if n > 0 {
      CloseAfter(c, snaps[1..], at, n - 1);
      assert snaps[1..][n - 1..] == snaps[n..];
    }
  }

  lemma EarlierIsPrefix(c: Calendar, snaps: seq<Snapshot>, at: int)
    requires TimeOrdered(snaps)
    ensures var before := Earlier(snaps, at) + CloseAt(c, snaps, at);
            && before <= snaps && (forall j :: |before| <= j < |snaps| ==> !Behind(c, snaps[j], at))
            && forall j :: 0 <= j < |before| ==> Behind(c, snaps[j], at)
  {
    EarlierAre(snaps, at);
    var n := |Earlier(snaps, at)|;
    var rest := snaps[n..];
    OrderedTail(snaps, n);
    CloseAfter(c, snaps, at, n);
    forall j | 0 <= j < |rest| ensures at <= rest[j].asOf {
      assert rest[j] == snaps[n + j];
    }
    CloseAre(c, rest, at);
    Joined(c, snaps, at, n, |CloseAt(c, snaps, at)|);
  }

  lemma Joined(c: Calendar, snaps: seq<Snapshot>, at: int, n: nat, m: nat)
    requires n <= |snaps| && m <= |snaps[n..]| && forall j :: 0 <= j < n ==> Behind(c, snaps[j], at)
    requires forall j :: 0 <= j < m ==> Behind(c, snaps[n..][j], at)
    requires forall j :: m <= j < |snaps[n..]| ==> !Behind(c, snaps[n..][j], at)
    ensures snaps[..n] + snaps[n..][..m] == snaps[..n + m]
    ensures forall j :: 0 <= j < n + m ==> Behind(c, snaps[j], at)
    ensures forall j :: n + m <= j < |snaps| ==> !Behind(c, snaps[j], at)
  {
    forall j | n <= j < |snaps| ensures Behind(c, snaps[j], at) <==> j < n + m {
      assert snaps[n..][j - n] == snaps[j];
    }
  }

  lemma {:induction false} NoneEarlier(snaps: seq<Snapshot>, at: int, first: int)
    requires at <= first && forall i :: 0 <= i < |snaps| ==> first <= snaps[i].asOf
    ensures Earlier(snaps, at) == [] && NotEarlier(snaps, at) == snaps
  {
    if snaps != [] {
      NoneEarlier(snaps[1..], at, first);
    }
  }

  /** The snapshot a transfer takes, and how; none exactly where none is given. */
  lemma IntervalTakes(c: Calendar, snaps: seq<Snapshot>, at: int)
    requires TimeOrdered(snaps)
    ensures var (s, basis) := Interval(c, snaps, at);
            && (s == None <==> snaps == [])
            && (s != None ==>
                  BasisOf(c, s.value, at, basis) && exists k :: TakenAt(c, snaps, at, k) && snaps[k] == s.value)
  {
    var before := Earlier(snaps, at) + CloseAt(c, snaps, at);
    EarlierIsPrefix(c, snaps, at);
    if before != [] {
      var k := |before| - 1;
      assert before[k] == snaps[k];
      assert Behind(c, snaps[k], at);
      assert TakenAt(c, snaps, at, k);
    } else if snaps != [] {
      assert !Behind(c, snaps[0], at);
      NoneEarlier(snaps, at, snaps[0].asOf);
      assert TakenAt(c, snaps, at, 0);
    }
  }

  /** Of the snapshots behind the moment none is later than the one taken; where none is, none at all is earlier. */
  lemma NoneNearer(c: Calendar, snaps: seq<Snapshot>, at: int, k: int)
    requires TimeOrdered(snaps) && TakenAt(c, snaps, at, k)
    ensures if exists s :: s in snaps && Behind(c, s, at)
            then Behind(c, snaps[k], at) && forall s :: s in snaps && Behind(c, s, at) ==> s.asOf <= snaps[k].asOf
            else forall s :: s in snaps ==> snaps[k].asOf <= s.asOf
  {
    forall s | s in snaps ensures if Behind(c, s, at) then Behind(c, snaps[k], at) && s.asOf <= snaps[k].asOf
                                  else !Behind(c, snaps[k], at) ==> snaps[k].asOf <= s.asOf {
      var j :| 0 <= j < |snaps| && snaps[j] == s;
    }
  }

  // ----- The account at the transfer's moment -----

  /** Whether the snapshot's net liquidation holds a transfer: a close's holds all of its New York day, any other
      reading what came before it. */
  predicate Holds(c: Calendar, s: Snapshot, t: Transfer) {
    if IsClose(c, s.asOf) then c.day(t.at) <= c.day(s.asOf) else t.at < s.asOf
  }

  /** What the snapshot lacks of the account just before a transfer, and what it holds too much. */
  datatype Difference = Lacking | Excess

  predicate On(side: Difference, c: Calendar, s: Snapshot, own: Transfer, t: Transfer) {
    match side
    case Lacking => Precedes(t, own) && !Holds(c, s, t)
    case Excess => !Precedes(t, own) && Holds(c, s, t)
  }

  function Total(side: Difference, c: Calendar, s: Snapshot, own: Transfer, ts: seq<Transfer>): int {
    if ts == [] then 0
    else (if On(side, c, s, own, ts[0]) then ts[0].amount else 0) + Total(side, c, s, own, ts[1..])
  }

  /** The transfer falls on the very second of a snapshot that is no close: those of that second before it are left
      out. */
  predicate OnTheSecond(c: Calendar, s: Snapshot, own: Transfer) {
    own.at == s.asOf && !IsClose(c, s.asOf)
  }

  /** The equity just before the transfer: the snapshot's, with every transfer before it that the snapshot does not hold
      and without every other one that it does, its own included. */
  ghost predicate FigureOf(c: Calendar, snaps: seq<Snapshot>, ts: seq<Transfer>, own: Transfer, e: Equity) {
    exists k :: TakenAt(c, snaps, own.at, k) &&
      var s := snaps[k];
      && BasisOf(c, s, own.at, e.basis) && e.currency == s.currency
      && e.value == s.value - Total(Excess, c, s, own, ts)
                    + (if OnTheSecond(c, s, own) then 0 else Total(Lacking, c, s, own, ts))
  }

  lemma HeldIs(c: Calendar, s: Snapshot, t: Transfer)
    requires ValidCalendar(c)
    ensures Holds(c, s, t) <==> t.at < HeldUntil(c, s.asOf)
  {
    if IsClose(c, s.asOf) {
      var d := c.day(s.asOf);
      if c.day(t.at) < d {
        assert c.midnight(c.day(t.at) + 1) <= c.midnight(d + 1);
      } else if c.day(t.at) > d {
        assert c.midnight(d + 1) <= c.midnight(c.day(t.at));
      }
    }
  }

  lemma SameDay(c: Calendar, s: int, t: int)
    requires ValidCalendar(c) && s <= t
    ensures c.day(s) <= c.day(t)
  {
    assert c.day(t) < c.day(s) ==> c.midnight(c.day(t) + 1) <= c.midnight(c.day(s));
  }

  /** One transfer is counted on the side its basis counts it, and on no other. */
  lemma CountedIs(c: Calendar, s: Snapshot, basis: Basis, own: Transfer, t: Transfer)
    requires ValidCalendar(c) && BasisOf(c, s, own.at, basis)
    ensures On(Lacking, c, s, own, t) ==> basis == LastSnapshot || OnTheSecond(c, s, own)
    ensures On(Excess, c, s, own, t) ==> basis != LastSnapshot
    ensures basis == LastSnapshot ==> (Counts(c, s, basis, own, t) <==> On(Lacking, c, s, own, t))
    ensures basis != LastSnapshot ==> (Counts(c, s, basis, own, t) <==> On(Excess, c, s, own, t))
  {
    HeldIs(c, s, t);
    HeldIs(c, s, own);
    match basis
    case LastSnapshot =>
      PlacedAfter(c, s, own.at);
    case SameDaySnapshotLessAmount =>
      if t.at <= own.at {
        SameDay(c, t.at, own.at);
      } else {
        SameDay(c, own.at, t.at);
      }
    case NextSnapshotLessAmount =>
  }

  lemma {:induction false} SumIs(c: Calendar, s: Snapshot, basis: Basis, own: Transfer, ts: seq<Transfer>)
    requires ValidCalendar(c) && BasisOf(c, s, own.at, basis)
    ensures if basis == LastSnapshot then
              Total(Lacking, c, s, own, ts) == Sum(c, s, basis, own, ts) && Total(Excess, c, s, own, ts) == 0
            else
              && Total(Excess, c, s, own, ts) == Sum(c, s, basis, own, ts)
              && (!OnTheSecond(c, s, own) ==> Total(Lacking, c, s, own, ts) == 0)
  {
    if ts != [] {
      CountedIs(c, s, basis, own, ts[0]);
      SumIs(c, s, basis, own, ts[1..]);
    }
  }

  /** The figure written for a transfer, from the snapshots and the transfers alone; none exactly where no snapshot is
      given. */
  lemma FigureIsTheMoment(c: Calendar, snaps: seq<Snapshot>, ts: seq<Transfer>, own: Transfer)
    requires ValidCalendar(c) && TimeOrdered(snaps)
    ensures var e := EquityBefore(c, snaps, ts, own);
            && (e == None <==> snaps == []) && (e != None ==> FigureOf(c, snaps, ts, own, e.value))
  {
    var (s, basis) := Interval(c, snaps, own.at);
    IntervalTakes(c, snaps, own.at);
    if s != None {
      var k :| TakenAt(c, snaps, own.at, k) && snaps[k] == s.value;
      SumIs(c, s.value, basis, own, ts);
    }
  }
}
