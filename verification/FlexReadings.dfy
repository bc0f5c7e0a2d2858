/** The cash ledger and the days it covers, over any readings and stops (adapter/ibkr/flex.py). */
module FlexReadings {
  import opened Wrappers
  import opened FlexEquity
  import opened FlexCoverage
  import opened FlexTaken

  datatype Posting = Posting(t: Transfer, currency: string, isTransfer: bool, datedOnly: bool)

  datatype Statement = Statement(period: Period, postings: seq<Posting>)

  datatype Record = Record(t: Transfer, currency: string, equity: int, basis: Basis, note: Option<Note>)

  /** The owner's recorded decisions: whether a transfer is after the approval. */
  type Resolutions = map<int, bool>

  // ----- Sorting by time -----

  function Insert<T>(key: T -> Transfer, x: T, xs: seq<T>): seq<T> {
    if xs == [] || Precedes(key(x), key(xs[0])) then [x] + xs else [xs[0]] + Insert(key, x, xs[1..])
  }

  function Sort<T>(key: T -> Transfer, xs: seq<T>): seq<T> {
    if xs == [] then [] else Insert(key, xs[0], Sort(key, xs[1..]))
  }

  ghost predicate Sorted<T(!new)>(key: T -> Transfer, xs: seq<T>) {
    forall i, j :: 0 <= i < j < |xs| ==> Precedes(key(xs[i]), key(xs[j]))
  }

  ghost predicate DistinctIds<T(!new)>(key: T -> Transfer, xs: seq<T>) {
    forall i, j :: 0 <= i < j < |xs| ==> key(xs[i]).id != key(xs[j]).id
  }

  lemma {:induction false} InsertSorts<T(!new)>(key: T -> Transfer, x: T, xs: seq<T>)
    requires Sorted(key, xs) && DistinctIds(key, xs) && forall y :: y in xs ==> key(y).id != key(x).id
    ensures var r := Insert(key, x, xs);
            Sorted(key, r) && DistinctIds(key, r) && |r| == |xs| + 1 && forall y :: y in r <==> y == x || y in xs
  {
    if !(xs == [] || Precedes(key(x), key(xs[0]))) {
      assert xs[0] in xs;
      InsertSorts(key, x, xs[1..]);
      var rest := Insert(key, x, xs[1..]);
      assert forall y :: y in xs <==> y == xs[0] || y in xs[1..];
      assert forall i :: 0 <= i < |rest| ==> rest[i] in rest;
      assert forall y :: y in rest ==> Precedes(key(xs[0]), key(y)) && key(y).id != key(xs[0]).id by {
        forall y | y in xs[1..] ensures Precedes(key(xs[0]), key(y)) && key(y).id != key(xs[0]).id {
          var k :| 0 <= k < |xs[1..]| && xs[1..][k] == y;
          assert xs[k + 1] == y;
        }
      }
    } else if xs != [] {
      assert forall i :: 0 <= i < |xs| ==> xs[i] in xs;
    }
  }

  lemma {:induction false} SortSorts<T(!new)>(key: T -> Transfer, xs: seq<T>)
    requires DistinctIds(key, xs)
    ensures var r := Sort(key, xs);
            Sorted(key, r) && DistinctIds(key, r) && |r| == |xs| && forall y :: y in r <==> y in xs
  {
    if xs != [] {
      SortSorts(key, xs[1..]);
      forall y | y in xs[1..] ensures key(y).id != key(xs[0]).id {
        var k :| 0 <= k < |xs[1..]| && xs[1..][k] == y;
        assert xs[k + 1] == y;
      }
      InsertSorts(key, xs[0], Sort(key, xs[1..]));
      assert forall y :: y in xs <==> y == xs[0] || y in xs[1..];
    }
  }

  // ----- Which side of the first approval -----

  datatype Side = Sided(after: bool, byOwner: bool) | Unknown | Contradicts

  predicate AfterTheClose(c: Calendar, t: int) {
    c.close(c.day(t)).None? || t >= c.close(c.day(t)).value
  }

  /** _after_approval: by its date where that tells, else by the owner's decision, which a date never contradicts. */
  function SideOf(c: Calendar, p: Posting, approvedAt: int, res: Resolutions): Side {
    var decided := p.t.id in res;
    if p.t.at < approvedAt && p.datedOnly && c.day(p.t.at) == c.day(approvedAt) && AfterTheClose(c, approvedAt) then
      if decided then Sided(res[p.t.id], true) else Unknown
    else
      var after := p.t.at >= approvedAt || (p.datedOnly && c.day(p.t.at) == c.day(approvedAt));
      if decided && res[p.t.id] != after then Contradicts else Sided(after, false)
  }

  /** What a side says: a stamped transfer's time decides it, and one dated only is after the approval from the
      approval's day on, unless the approval came after that day's close, where only the owner can say; the owner is
      never overruled. */
  lemma SideMeans(c: Calendar, p: Posting, approvedAt: int, res: Resolutions)
    requires ValidCalendar(c)
    ensures var s := SideOf(c, p, approvedAt, res);
            var onTheDay := p.datedOnly && c.day(p.t.at) == c.day(approvedAt);
            && (s.Sided? && p.t.id in res ==> s.after == res[p.t.id])
            && (s.Sided? && s.after && !s.byOwner ==> p.t.at >= approvedAt || onTheDay)
            && (s.Sided? && !s.after && !s.byOwner ==> p.t.at < approvedAt && !onTheDay)
            && (s.Contradicts? ==> p.t.id in res && (res[p.t.id] <==> p.t.at < approvedAt && !onTheDay))
            && (s.Unknown? || (s.Sided? && s.byOwner) ==>
                  && onTheDay && p.t.at < approvedAt
                  && forall t :: c.close(c.day(approvedAt)) == Some(t) ==> t <= approvedAt)
            && (s.Unknown? ==> p.t.id !in res)
  {
  }

  // ----- What one statement adds -----

  predicate InLedger(ledger: seq<Record>, id: int) {
    exists k :: 0 <= k < |ledger| && ledger[k].t.id == id
  }

  ghost predicate LedgerOk(ledger: seq<Record>) {
    forall i, j :: 0 <= i < j < |ledger| ==> ledger[i].t.id != ledger[j].t.id
  }

  ghost predicate StatementOk(st: Statement) {
    forall i, j :: 0 <= i < j < |st.postings| ==> st.postings[i].t.id != st.postings[j].t.id
  }

  /** A transfer of the statement that is not in the ledger. */
  predicate New(st: Statement, ledger: seq<Record>, p: Posting) {
    p in st.postings && p.isTransfer && !InLedger(ledger, p.t.id)
  }

  predicate Writes(c: Calendar, st: Statement, ledger: seq<Record>, approvedAt: int, res: Resolutions, p: Posting) {
    New(st, ledger, p) && SideOf(c, p, approvedAt, res).Sided? && SideOf(c, p, approvedAt, res).after
  }

  /** The ledger's transfers and those the statement adds, as their figures count them. */
  function Ledgered(ledger: seq<Record>): (r: seq<Transfer>)
    ensures |r| == |ledger| && forall i :: 0 <= i < |r| ==> r[i] == ledger[i].t
  {
    seq(|ledger|, i requires 0 <= i < |ledger| => ledger[i].t)
  }

  function Added(c: Calendar, ps: seq<Posting>, ledger: seq<Record>, approvedAt: int, res: Resolutions): seq<Transfer> {
    if ps == [] then []
    else
      var p := ps[0];
      var s := SideOf(c, p, approvedAt, res);
      (if p.isTransfer && !InLedger(ledger, p.t.id) && s.Sided? && s.after then [p.t] else [])
      + Added(c, ps[1..], ledger, approvedAt, res)
  }

  function Transfers(ps: seq<Posting>): seq<Posting> {
    if ps == [] then [] else (if ps[0].isTransfer then [ps[0]] else []) + Transfers(ps[1..])
  }

  lemma {:induction false} TransfersOf(ps: seq<Posting>)
    requires DistinctIds((p: Posting) => p.t, ps)
    ensures DistinctIds((p: Posting) => p.t, Transfers(ps))
    ensures forall p :: p in Transfers(ps) <==> p in ps && p.isTransfer
  {
    if ps != [] {
      assert DistinctIds((p: Posting) => p.t, ps[1..]) by {
        assert forall i :: 0 <= i < |ps[1..]| ==> ps[1..][i] == ps[i + 1];
      }
      TransfersOf(ps[1..]);
      var rest := Transfers(ps[1..]);
      assert forall p :: p in ps <==> p == ps[0] || p in ps[1..];
      forall k | 0 <= k < |rest| ensures rest[k].t.id != ps[0].t.id {
        assert rest[k] in ps[1..];
        var j :| 0 <= j < |ps[1..]| && ps[1..][j] == rest[k];
        assert ps[j + 1] == rest[k];
      }
    }
  }

  datatype Reason = OwnerContradicted | Restated | OfNothing | NoSnapshot | OtherCurrency | EquityGone

  datatype Outcome = Refused(why: Reason) | Ambiguous(ids: seq<int>) | Write(records: seq<Record>)

  /** A transfer already recorded is stated as it was. */
  predicate Agrees(ledger: seq<Record>, p: Posting) {
    exists k :: 0 <= k < |ledger| && ledger[k].t == p.t && ledger[k].currency == p.currency
  }

  predicate Writable(c: Calendar, snaps: seq<Snapshot>, moved: seq<Transfer>, p: Posting) {
    && p.t.amount != 0
    && var e := EquityBefore(c, snaps, moved, p.t);
       e.Some? && e.value.currency == p.currency && e.value.value > 0 && e.value.value + p.t.amount > 0
  }

  /** The record of a transfer: its own figures, the equity before it, and the note exactly when writing it changes
      the figure of a record already written. */
  ghost predicate RecordOf(c: Calendar, snaps: seq<Snapshot>, already: seq<Transfer>, moved: seq<Transfer>, p: Posting,
                           r: Record) {
    && r.t == p.t && r.currency == p.currency
    && EquityBefore(c, snaps, moved, p.t) == Some(Equity(r.equity, r.currency, r.basis))
    && (r.note.Some? <==> exists w :: w in already && Changes(c, snaps, already, w, p.t))
    && (r.note == Some(EarlierWrittenFirst) <==>
           exists w :: w in already && Precedes(w, p.t) && Changes(c, snaps, already, w, p.t))
  }

  method FindRecord(ledger: seq<Record>, id: int) returns (k: nat)
    ensures k <= |ledger| && (k < |ledger| <==> InLedger(ledger, id))
    ensures k < |ledger| ==> ledger[k].t.id == id
  {
    k := 0;
    while k < |ledger|
      invariant k <= |ledger| && forall j :: 0 <= j < k ==> ledger[j].t.id != id
    {
      if ledger[k].t.id == id {
        return;
      }
      k := k + 1;
    }
  }

  /** The sides of every new transfer: the first contradicted, else the unknown, else all are sided. */
  method Sides(c: Calendar, transfers: seq<Posting>, ledger: seq<Record>, approvedAt: int, res: Resolutions)
    returns (contradicted: bool, unknown: seq<int>)
    ensures contradicted <==>
              exists p :: p in transfers && !InLedger(ledger, p.t.id) && SideOf(c, p, approvedAt, res).Contradicts?
    ensures !contradicted ==>
              forall id :: id in unknown <==>
                exists p ::
                  p in transfers && p.t.id == id && !InLedger(ledger, id) && SideOf(c, p, approvedAt, res).Unknown?
  {
    contradicted, unknown := false, [];
    var i := 0;
    while i < |transfers|
      invariant 0 <= i <= |transfers|
      invariant forall j :: 0 <= j < i && !InLedger(ledger, transfers[j].t.id) ==>
                !SideOf(c, transfers[j], approvedAt, res).Contradicts?
      invariant forall id :: id in unknown <==>
                exists j :: 0 <= j < i && transfers[j].t.id == id && !InLedger(ledger, id)
                    && SideOf(c, transfers[j], approvedAt, res).Unknown?
    {
      var p := transfers[i];
      var k := FindRecord(ledger, p.t.id);
      if k == |ledger| {
        var s := SideOf(c, p, approvedAt, res);
        if s.Contradicts? {
          return true, [];
        }
        if s.Unknown? {
          unknown := unknown + [p.t.id];
        }
      }
      i := i + 1;
    }
  }

  function Key(p: Posting): Transfer {
    p.t
  }

  function Itself(t: Transfer): Transfer {
    t
  }

  /** The statement's transfers in time order. */
  function InOrder(st: Statement): seq<Posting> {
    Sort(Key, Transfers(st.postings))
  }

  lemma InOrderIs(st: Statement)
    requires StatementOk(st)
    ensures Sorted(Key, InOrder(st)) && DistinctIds(Key, InOrder(st))
    ensures forall p :: p in InOrder(st) <==> p in st.postings && p.isTransfer
  {
    TransfersOf(st.postings);
    SortSorts(Key, Transfers(st.postings));
  }

  function Already(ledger: seq<Record>): seq<Transfer> {
    Sort(Itself, Ledgered(ledger))
  }

  lemma AlreadyIs(ledger: seq<Record>)
    requires LedgerOk(ledger)
    ensures InTime(Already(ledger))
    ensures forall w :: w in Already(ledger) <==> w in Ledgered(ledger)
    ensures forall id :: !InLedger(ledger, id) ==> forall w :: w in Already(ledger) ==> w.id != id
  {
    SortSorts(Itself, Ledgered(ledger));
    var a := Already(ledger);
    assert forall i, j :: 0 <= i < j < |a| ==> Precedes(Itself(a[i]), Itself(a[j]));
    forall id, w | !InLedger(ledger, id) && w in a ensures w.id != id {
      var k :| 0 <= k < |ledger| && Ledgered(ledger)[k] == w;
    }
  }

  function Moved(c: Calendar, st: Statement, ledger: seq<Record>, approvedAt: int, res: Resolutions): seq<Transfer> {
    Ledgered(ledger) + Added(c, InOrder(st), ledger, approvedAt, res)
  }

  /** What the statement must be for anything of it to be written. */
  ghost predicate Accepts(c: Calendar, st: Statement, ledger: seq<Record>, approvedAt: int, snaps: seq<Snapshot>,
                          res: Resolutions) {
    && (forall p :: New(st, ledger, p) ==> SideOf(c, p, approvedAt, res).Sided?)
    && (forall p :: p in st.postings && p.isTransfer && InLedger(ledger, p.t.id) ==> Agrees(ledger, p))
    && (forall p :: Writes(c, st, ledger, approvedAt, res, p) ==>
           Writable(c, snaps, Moved(c, st, ledger, approvedAt, res), p))
  }

  /** One posting of the last loop: nothing to write, its record, or why nothing at all is written. */
  datatype Taken = Nothing | Wrote(record: Record) | Cannot(why: Reason)

  method TakePosting(c: Calendar, p: Posting, ledger: seq<Record>, approvedAt: int, snaps: seq<Snapshot>,
                     res: Resolutions, already: seq<Transfer>, moved: seq<Transfer>) returns (r: Taken)
    requires LedgerOk(ledger) && already == Already(ledger)
    requires !InLedger(ledger, p.t.id) ==> SideOf(c, p, approvedAt, res).Sided?
    ensures InLedger(ledger, p.t.id) ==> r == if Agrees(ledger, p) then Nothing else Cannot(Restated)
    ensures !InLedger(ledger, p.t.id) && !SideOf(c, p, approvedAt, res).after ==> r == Nothing
    ensures !InLedger(ledger, p.t.id) && SideOf(c, p, approvedAt, res).after ==>
              if Writable(c, snaps, moved, p) then r.Wrote? && RecordOf(c, snaps, already, moved, p, r.record)
                  else r.Cannot?
  {
    var k := FindRecord(ledger, p.t.id);
    if k < |ledger| {
      if ledger[k].t != p.t || ledger[k].currency != p.currency {
        return Cannot(Restated);
      }
      return Nothing;
    }
    if !SideOf(c, p, approvedAt, res).after {
      return Nothing;
    }
    if p.t.amount == 0 {
      return Cannot(OfNothing);
    }
    var e := EquityBefore(c, snaps, moved, p.t);
    if e.None? {
      return Cannot(NoSnapshot);
    }
    if e.value.currency != p.currency {
      return Cannot(OtherCurrency);
    }
    if e.value.value <= 0 || e.value.value + p.t.amount <= 0 {
      return Cannot(EquityGone);
    }
    AlreadyIs(ledger);
    var note := WrittenFirst(c, snaps, already, p.t);
    return Wrote(Record(p.t, p.currency, e.value.value, e.value.basis, note));
  }

  /** Whether the last loop writes this posting of it. */
  predicate Written(c: Calendar, ledger: seq<Record>, approvedAt: int, res: Resolutions, p: Posting) {
    !InLedger(ledger, p.t.id) && SideOf(c, p, approvedAt, res).Sided? && SideOf(c, p, approvedAt, res).after
  }

  /** The records of the postings written so far, one each, in their order. */
  ghost predicate RecordsOf(c: Calendar, ps: seq<Posting>, ledger: seq<Record>, approvedAt: int, snaps: seq<Snapshot>,
                            res: Resolutions, moved: seq<Transfer>, records: seq<Record>)
    decreases |ps|
  {
    if ps == [] then records == []
    else
      var n := |ps| - 1;
      if Written(c, ledger, approvedAt, res, ps[n]) then
        && records != []
        && RecordOf(c, snaps, Already(ledger), moved, ps[n], records[|records| - 1])
        && RecordsOf(c, ps[..n], ledger, approvedAt, snaps, res, moved, records[..|records| - 1])
      else RecordsOf(c, ps[..n], ledger, approvedAt, snaps, res, moved, records)
  }

  // ----- What the records say -----

  /** Every transfer a figure counts, each once: the ledger's, and those the statement adds. */
  ghost predicate Counted(c: Calendar, st: Statement, ledger: seq<Record>, approvedAt: int, res: Resolutions,
                          moved: seq<Transfer>) {
    && DistinctIds(Itself, moved)
    && forall t :: t in moved <==>
        || (exists k :: 0 <= k < |ledger| && ledger[k].t == t)
        || (exists p :: Writes(c, st, ledger, approvedAt, res, p) && p.t == t)
  }

  /** Each record states the account's equity just before its transfer. */
  ghost predicate Figures(c: Calendar, snaps: seq<Snapshot>, moved: seq<Transfer>, records: seq<Record>) {
    forall k :: 0 <= k < |records| ==>
        FigureOf(c, snaps, moved, records[k].t, Equity(records[k].equity, records[k].currency, records[k].basis))
  }

  /** One record for each transfer written, in time order. */
  ghost predicate OneEach(c: Calendar, st: Statement, ledger: seq<Record>, approvedAt: int, res: Resolutions,
                          records: seq<Record>) {
    && (forall i, j :: 0 <= i < j < |records| ==> Precedes(records[i].t, records[j].t))
    && (forall k :: 0 <= k < |records| ==> exists p :: Writes(c, st, ledger, approvedAt, res, p) && p.t == records[k].t)
    && (forall p :: Writes(c, st, ledger, approvedAt, res, p) ==>
          exists k :: 0 <= k < |records| && records[k].t == p.t && records[k].currency == p.currency)
  }

  lemma {:induction false} AddedAre(c: Calendar, ps: seq<Posting>, ledger: seq<Record>, approvedAt: int,
                                    res: Resolutions)
    requires DistinctIds(Key, ps) && forall p :: p in ps ==> p.isTransfer
    ensures var added := Added(c, ps, ledger, approvedAt, res);
            && DistinctIds(Itself, added)
            && forall t :: t in added <==> exists p :: p in ps && Written(c, ledger, approvedAt, res, p) && p.t == t
  {
    if ps != [] {
      var rest := Added(c, ps[1..], ledger, approvedAt, res);
      assert DistinctIds(Key, ps[1..]) by {
        assert forall i :: 0 <= i < |ps[1..]| ==> ps[1..][i] == ps[i + 1];
      }
      AddedAre(c, ps[1..], ledger, approvedAt, res);
      assert forall p :: p in ps <==> p == ps[0] || p in ps[1..];
      forall k | 0 <= k < |rest| ensures rest[k].id != ps[0].t.id {
        assert rest[k] in rest;
        var p :| p in ps[1..] && p.t == rest[k];
        var j :| 0 <= j < |ps[1..]| && ps[1..][j] == p;
        assert ps[j + 1] == p && Key(ps[j + 1]).id != Key(ps[0]).id;
      }
    }
  }

  lemma MovedAre(c: Calendar, st: Statement, ledger: seq<Record>, approvedAt: int, res: Resolutions)
    requires LedgerOk(ledger) && StatementOk(st)
    ensures Counted(c, st, ledger, approvedAt, res, Moved(c, st, ledger, approvedAt, res))
  {
    var ps, moved := InOrder(st), Moved(c, st, ledger, approvedAt, res);
    var held, added := Ledgered(ledger), Added(c, InOrder(st), ledger, approvedAt, res);
    InOrderIs(st);
    AddedAre(c, ps, ledger, approvedAt, res);
    forall i, j | 0 <= i < |held| && 0 <= j < |added| ensures held[i].id != added[j].id {
      assert added[j] in added;
      var p :| p in ps && Written(c, ledger, approvedAt, res, p) && p.t == added[j];
      assert ledger[i].t == held[i];
    }
    forall t ensures t in held <==> exists k :: 0 <= k < |ledger| && ledger[k].t == t {
      if k :| 0 <= k < |ledger| && ledger[k].t == t {
        assert held[k] == t;
      }
    }
    forall t ensures t in added <==> exists p :: Writes(c, st, ledger, approvedAt, res, p) && p.t == t {
      if p :| Writes(c, st, ledger, approvedAt, res, p) && p.t == t {
        assert p in ps && Written(c, ledger, approvedAt, res, p);
      }
      if p :| p in ps && Written(c, ledger, approvedAt, res, p) && p.t == t {
        assert Writes(c, st, ledger, approvedAt, res, p);
      }
    }
  }

  lemma RecordFigure(c: Calendar, snaps: seq<Snapshot>, already: seq<Transfer>, moved: seq<Transfer>, p: Posting,
                     r: Record)
    requires ValidCalendar(c) && TimeOrdered(snaps) && RecordOf(c, snaps, already, moved, p, r)
    ensures FigureOf(c, snaps, moved, r.t, Equity(r.equity, r.currency, r.basis))
  {
    FigureIsTheMoment(c, snaps, moved, p.t);
  }

  lemma LastFigure(c: Calendar, snaps: seq<Snapshot>, moved: seq<Transfer>, records: seq<Record>)
    requires records != [] && Figures(c, snaps, moved, records[..|records| - 1])
    requires var r := records[|records| - 1]; FigureOf(c, snaps, moved, r.t, Equity(r.equity, r.currency, r.basis))
    ensures Figures(c, snaps, moved, records)
  {
    forall k | 0 <= k < |records|
      ensures FigureOf(c, snaps, moved, records[k].t, Equity(records[k].equity, records[k].currency, records[k].basis))
    {
      assert k < |records| - 1 ==> records[..|records| - 1][k] == records[k];
    }
  }

  lemma {:induction false} RecordsFigures(c: Calendar, ps: seq<Posting>, ledger: seq<Record>, approvedAt: int,
                                          snaps: seq<Snapshot>, res: Resolutions,
                                          moved: seq<Transfer>, records: seq<Record>)
    requires ValidCalendar(c) && TimeOrdered(snaps)
    requires RecordsOf(c, ps, ledger, approvedAt, snaps, res, moved, records)
    ensures Figures(c, snaps, moved, records)
    decreases |ps|
  {
    if ps != [] {
      var n := |ps| - 1;
      if Written(c, ledger, approvedAt, res, ps[n]) {
        var m := |records| - 1;
        RecordsFigures(c, ps[..n], ledger, approvedAt, snaps, res, moved, records[..m]);
        RecordFigure(c, snaps, Already(ledger), moved, ps[n], records[m]);
        LastFigure(c, snaps, moved, records);
      } else {
        RecordsFigures(c, ps[..n], ledger, approvedAt, snaps, res, moved, records);
      }
    }
  }

  lemma {:induction false} RecordsInTime(c: Calendar, ps: seq<Posting>, ledger: seq<Record>, approvedAt: int,
                                         snaps: seq<Snapshot>, res: Resolutions,
                                         moved: seq<Transfer>, records: seq<Record>)
    requires RecordsOf(c, ps, ledger, approvedAt, snaps, res, moved, records) && Sorted(Key, ps)
    ensures forall i, j :: 0 <= i < j < |records| ==> Precedes(records[i].t, records[j].t)
    decreases |ps|
  {
    if ps != [] {
      var n := |ps| - 1;
      var rest := if Written(c, ledger, approvedAt, res, ps[n]) then records[..|records| - 1] else records;
      RecordsInTime(c, ps[..n], ledger, approvedAt, snaps, res, moved, rest);
      forall k | 0 <= k < |rest| ensures Precedes(rest[k].t, ps[n].t) {
        RecordsStem(c, ps[..n], ledger, approvedAt, snaps, res, moved, rest, k);
        StemPrecedes(c, ps, ledger, approvedAt, res, rest[k].t);
      }
    }
  }

  lemma StemPrecedes(c: Calendar, ps: seq<Posting>, ledger: seq<Record>, approvedAt: int, res: Resolutions, t: Transfer)
    requires ps != [] && Sorted(Key, ps) && Stems(c, ps[..|ps| - 1], ledger, approvedAt, res, t)
    ensures Precedes(t, ps[|ps| - 1].t)
  {
    var n := |ps| - 1;
    var p :| p in ps[..n] && p.t == t;
    var j :| 0 <= j < n && ps[..n][j] == p;
    assert Precedes(Key(ps[j]), Key(ps[n]));
  }

  lemma RecordsAre(c: Calendar, st: Statement, ledger: seq<Record>, approvedAt: int, snaps: seq<Snapshot>,
                   res: Resolutions, records: seq<Record>)
    requires LedgerOk(ledger) && StatementOk(st)
    requires RecordsOf(c, InOrder(st), ledger, approvedAt, snaps, res, Moved(c, st, ledger, approvedAt, res), records)
    ensures OneEach(c, st, ledger, approvedAt, res, records)
    ensures ValidCalendar(c) && TimeOrdered(snaps) ==>
              exists moved :: Counted(c, st, ledger, approvedAt, res, moved) && Figures(c, snaps, moved, records)
  {
    var ps, moved := InOrder(st), Moved(c, st, ledger, approvedAt, res);
    InOrderIs(st);
    MovedAre(c, st, ledger, approvedAt, res);
    RecordsInTime(c, ps, ledger, approvedAt, snaps, res, moved, records);
    forall k | 0 <= k < |records| ensures exists p :: Writes(c, st, ledger, approvedAt, res, p) && p.t == records[k].t {
      RecordsStem(c, ps, ledger, approvedAt, snaps, res, moved, records, k);
      var p :| p in ps && p.t == records[k].t && Written(c, ledger, approvedAt, res, p);
      assert Writes(c, st, ledger, approvedAt, res, p);
    }
    forall p | Writes(c, st, ledger, approvedAt, res, p)
      ensures exists k :: 0 <= k < |records| && records[k].t == p.t && records[k].currency == p.currency
    {
      assert p in ps;
      RecordsHold(c, ps, ledger, approvedAt, snaps, res, moved, records, p);
    }
    if ValidCalendar(c) && TimeOrdered(snaps) {
      RecordsFigures(c, ps, ledger, approvedAt, snaps, res, moved, records);
    }
  }

  /** new_movements: refused, ambiguous, or the records of every new transfer after the approval, each stating the
      account's equity just before its transfer. */
  method NewMovements(c: Calendar, st: Statement, ledger: seq<Record>, approvedAt: int, snaps: seq<Snapshot>,
                      res: Resolutions)
    returns (r: Outcome)
    requires LedgerOk(ledger) && StatementOk(st)
    ensures r.Write? <==> Accepts(c, st, ledger, approvedAt, snaps, res)
    ensures r.Ambiguous? ==> r.ids != [] && forall id :: id in r.ids <==>
              exists p :: New(st, ledger, p) && p.t.id == id && SideOf(c, p, approvedAt, res).Unknown?
    ensures r.Write? ==> RecordsOf(c, InOrder(st), ledger, approvedAt, snaps, res,
            Moved(c, st, ledger, approvedAt, res), r.records)
    ensures r.Write? ==> OneEach(c, st, ledger, approvedAt, res, r.records)
    ensures r.Write? && ValidCalendar(c) && TimeOrdered(snaps) ==>
              exists moved :: Counted(c, st, ledger, approvedAt, res, moved) && Figures(c, snaps, moved, r.records)
  {
    var transfers := InOrder(st);
    var contradicted, unknown := Sides(c, transfers, ledger, approvedAt, res);
    if contradicted {
      NotSided(c, st, ledger, approvedAt, snaps, res);
      return Refused(OwnerContradicted);
    }
    if unknown != [] {
      UnknownAre(c, st, ledger, approvedAt, res, unknown);
      return Ambiguous(unknown);
    }
    AllSided(c, st, ledger, approvedAt, res);
    AcceptsEach(c, st, ledger, approvedAt, snaps, res);
    var moved := Moved(c, st, ledger, approvedAt, res);
    r := TakeAll(c, transfers, ledger, approvedAt, snaps, res, moved);
    if r.Write? {
      RecordsAre(c, st, ledger, approvedAt, snaps, res, r.records);
    }
  }

  lemma NotSided(c: Calendar, st: Statement, ledger: seq<Record>, approvedAt: int, snaps: seq<Snapshot>,
                 res: Resolutions)
    requires StatementOk(st)
    requires exists p :: p in InOrder(st) && !InLedger(ledger, p.t.id) && SideOf(c, p, approvedAt, res).Contradicts?
    ensures !Accepts(c, st, ledger, approvedAt, snaps, res)
  {
    InOrderIs(st);
    var p :| p in InOrder(st) && !InLedger(ledger, p.t.id) && SideOf(c, p, approvedAt, res).Contradicts?;
    assert New(st, ledger, p);
  }

  lemma AcceptsEach(c: Calendar, st: Statement, ledger: seq<Record>, approvedAt: int, snaps: seq<Snapshot>,
                    res: Resolutions)
    requires StatementOk(st) && forall p :: New(st, ledger, p) ==> SideOf(c, p, approvedAt, res).Sided?
    ensures var ps, moved := InOrder(st), Moved(c, st, ledger, approvedAt, res);
            Accepts(c, st, ledger, approvedAt, snaps, res) <==>
            forall i :: 0 <= i < |ps| ==> TakesWell(c, ledger, approvedAt, snaps, res, moved, ps[i])
  {
    InOrderIs(st);
    var ps, moved := InOrder(st), Moved(c, st, ledger, approvedAt, res);
    forall i | 0 <= i < |ps| && Accepts(c, st, ledger, approvedAt, snaps, res)
      ensures TakesWell(c, ledger, approvedAt, snaps, res, moved, ps[i])
    {
      assert ps[i] in ps;
      assert Written(c, ledger, approvedAt, res, ps[i]) ==> Writes(c, st, ledger, approvedAt, res, ps[i]);
    }
    if forall i :: 0 <= i < |ps| ==> TakesWell(c, ledger, approvedAt, snaps, res, moved, ps[i]) {
      forall p | p in st.postings && p.isTransfer ensures TakesWell(c, ledger, approvedAt, snaps, res, moved, p) {
        assert p in ps;
      }
    }
  }

  /** The last loop: the records of the transfers, or the first that cannot be written. */
  method TakeAll(c: Calendar, transfers: seq<Posting>, ledger: seq<Record>, approvedAt: int, snaps: seq<Snapshot>,
                 res: Resolutions, moved: seq<Transfer>) returns (r: Outcome)
    requires LedgerOk(ledger)
    requires forall i :: 0 <= i < |transfers| && !InLedger(ledger, transfers[i].t.id) ==>
             SideOf(c, transfers[i], approvedAt, res).Sided?
    ensures r.Write? || r.Refused?
    ensures r.Write? <==> forall i :: 0 <= i < |transfers| ==>
            TakesWell(c, ledger, approvedAt, snaps, res, moved, transfers[i])
    ensures r.Write? ==> RecordsOf(c, transfers, ledger, approvedAt, snaps, res, moved, r.records)
  {
    var already := Already(ledger);
    var records: seq<Record> := [];
    var i := 0;
    while i < |transfers|
      invariant 0 <= i <= |transfers|
      invariant forall j :: 0 <= j < i ==> TakesWell(c, ledger, approvedAt, snaps, res, moved, transfers[j])
      invariant RecordsOf(c, transfers[..i], ledger, approvedAt, snaps, res, moved, records)
    {
      var taken := TakePosting(c, transfers[i], ledger, approvedAt, snaps, res, already, moved);
      if taken.Cannot? {
        return Refused(taken.why);
      }
      assert transfers[..i + 1][..i] == transfers[..i];
      if taken.Wrote? {
        assert (records + [taken.record])[..|records|] == records;
        records := records + [taken.record];
      }
      i := i + 1;
    }
    assert transfers[..i] == transfers;
    return Write(records);
  }

  ghost predicate TakesWell(c: Calendar, ledger: seq<Record>, approvedAt: int, snaps: seq<Snapshot>, res: Resolutions,
                            moved: seq<Transfer>, p: Posting) {
    if InLedger(ledger, p.t.id) then Agrees(ledger, p)
    else Written(c, ledger, approvedAt, res, p) ==> Writable(c, snaps, moved, p)
  }

  lemma AllSided(c: Calendar, st: Statement, ledger: seq<Record>, approvedAt: int, res: Resolutions)
    requires StatementOk(st)
    requires forall p :: p in InOrder(st) && !InLedger(ledger, p.t.id) ==> !SideOf(c, p, approvedAt, res).Contradicts?
    requires forall p :: p in InOrder(st) && !InLedger(ledger, p.t.id) ==> !SideOf(c, p, approvedAt, res).Unknown?
    ensures forall p :: New(st, ledger, p) ==> SideOf(c, p, approvedAt, res).Sided?
    ensures forall i :: 0 <= i < |InOrder(st)| && !InLedger(ledger, InOrder(st)[i].t.id) ==>
            SideOf(c, InOrder(st)[i], approvedAt, res).Sided?
  {
    InOrderIs(st);
  }

  lemma UnknownAre(c: Calendar, st: Statement, ledger: seq<Record>, approvedAt: int, res: Resolutions,
                   unknown: seq<int>)
    requires StatementOk(st)
    requires forall id :: id in unknown <==>
               exists p :: p in InOrder(st) && p.t.id == id && !InLedger(ledger, id)
                   && SideOf(c, p, approvedAt, res).Unknown?
    ensures forall id :: id in unknown <==>
            exists p :: New(st, ledger, p) && p.t.id == id && SideOf(c, p, approvedAt, res).Unknown?
    ensures unknown != [] ==> exists p :: New(st, ledger, p) && !SideOf(c, p, approvedAt, res).Sided?
  {
    InOrderIs(st);
    if unknown != [] {
      assert unknown[0] in unknown;
      var p :| p in InOrder(st) && p.t.id == unknown[0] && !InLedger(ledger, p.t.id)
          && SideOf(c, p, approvedAt, res).Unknown?;
      assert New(st, ledger, p);
    }
  }

  // ----- Every transfer after the approval, once -----

  /** Exactly one record states the transfer as the statement does. */
  ghost predicate RecordedOnce(ledger: seq<Record>, p: Posting) {
    && Agrees(ledger, p)
    && forall i, j :: 0 <= i < |ledger| && 0 <= j < |ledger| && ledger[i].t.id == p.t.id && ledger[j].t.id == p.t.id ==>
         i == j
  }

  /** A record's transfer is that of a posting written. */
  ghost predicate Stems(c: Calendar, ps: seq<Posting>, ledger: seq<Record>, approvedAt: int, res: Resolutions,
                        t: Transfer) {
    exists p :: p in ps && p.t == t && Written(c, ledger, approvedAt, res, p)
  }

  lemma {:induction false} RecordsStem(c: Calendar, ps: seq<Posting>, ledger: seq<Record>, approvedAt: int,
                                       snaps: seq<Snapshot>, res: Resolutions,
                                       moved: seq<Transfer>, records: seq<Record>, k: nat)
    requires RecordsOf(c, ps, ledger, approvedAt, snaps, res, moved, records) && k < |records|
    ensures Stems(c, ps, ledger, approvedAt, res, records[k].t)
    decreases |ps|
  {
    var n := |ps| - 1;
    assert ps[n] in ps && forall p :: p in ps[..n] ==> p in ps;
    if Written(c, ledger, approvedAt, res, ps[n]) {
      if k < |records| - 1 {
        RecordsStem(c, ps[..n], ledger, approvedAt, snaps, res, moved, records[..|records| - 1], k);
      }
    } else {
      RecordsStem(c, ps[..n], ledger, approvedAt, snaps, res, moved, records, k);
    }
  }

  lemma {:induction false} RecordsHold(c: Calendar, ps: seq<Posting>, ledger: seq<Record>, approvedAt: int,
                                       snaps: seq<Snapshot>, res: Resolutions,
                                       moved: seq<Transfer>, records: seq<Record>, p: Posting)
    requires RecordsOf(c, ps, ledger, approvedAt, snaps, res, moved, records) && p in ps
             && Written(c, ledger, approvedAt, res, p)
    ensures Agrees(records, p)
    decreases |ps|
  {
    var n := |ps| - 1;
    if p == ps[n] {
      assert records[|records| - 1].t == p.t;
    } else {
      assert p in ps[..n];
      var rest := if Written(c, ledger, approvedAt, res, ps[n]) then records[..|records| - 1] else records;
      RecordsHold(c, ps[..n], ledger, approvedAt, snaps, res, moved, rest, p);
      AgreesIn(rest, records[|rest|..], p);
      assert records == rest + records[|rest|..];
    }
  }

  lemma StemDiffers(c: Calendar, ps: seq<Posting>, ledger: seq<Record>, approvedAt: int, res: Resolutions, t: Transfer)
    requires ps != [] && DistinctIds(Key, ps) && Stems(c, ps[..|ps| - 1], ledger, approvedAt, res, t)
    ensures t.id != ps[|ps| - 1].t.id
  {
    var n := |ps| - 1;
    var p :| p in ps[..n] && p.t == t;
    var j :| 0 <= j < n && ps[..n][j] == p;
    assert Key(ps[j]).id != Key(ps[n]).id;
  }

  lemma {:induction false} RecordsDistinct(c: Calendar, ps: seq<Posting>, ledger: seq<Record>, approvedAt: int,
                                           snaps: seq<Snapshot>, res: Resolutions,
                                           moved: seq<Transfer>, records: seq<Record>)
    requires RecordsOf(c, ps, ledger, approvedAt, snaps, res, moved, records) && DistinctIds(Key, ps)
    ensures LedgerOk(records)
    decreases |ps|
  {
    if ps != [] {
      var n := |ps| - 1;
      var rest := if Written(c, ledger, approvedAt, res, ps[n]) then records[..|records| - 1] else records;
      RecordsDistinct(c, ps[..n], ledger, approvedAt, snaps, res, moved, rest);
      forall k | 0 <= k < |rest| ensures rest[k].t.id != ps[n].t.id {
        RecordsStem(c, ps[..n], ledger, approvedAt, snaps, res, moved, rest, k);
        StemDiffers(c, ps, ledger, approvedAt, res, rest[k].t);
      }
    }
  }

  /** A ledger and the records a statement adds to it. */
  lemma Appended(c: Calendar, st: Statement, ledger: seq<Record>, approvedAt: int, snaps: seq<Snapshot>,
                 res: Resolutions, records: seq<Record>)
    requires LedgerOk(ledger) && StatementOk(st) && Accepts(c, st, ledger, approvedAt, snaps, res)
    requires RecordsOf(c, InOrder(st), ledger, approvedAt, snaps, res, Moved(c, st, ledger, approvedAt, res), records)
    ensures LedgerOk(ledger + records)
    ensures forall p ::
              && p in st.postings && p.isTransfer
              && SideOf(c, p, approvedAt, res).Sided? && SideOf(c, p, approvedAt, res).after ==>
                Agrees(ledger + records, p)
  {
    InOrderIs(st);
    var ps := InOrder(st);
    var moved := Moved(c, st, ledger, approvedAt, res);
    RecordsDistinct(c, ps, ledger, approvedAt, snaps, res, moved, records);
    var all := ledger + records;
    forall i, j | 0 <= i < |ledger| && 0 <= j < |records| ensures ledger[i].t.id != records[j].t.id {
      RecordsStem(c, ps, ledger, approvedAt, snaps, res, moved, records, j);
    }
    forall p | p in st.postings && p.isTransfer
        && (SideOf(c, p, approvedAt, res).Sided? && SideOf(c, p, approvedAt, res).after)
      ensures Agrees(all, p)
    {
      if InLedger(ledger, p.t.id) {
        AgreesIn(ledger, records, p);
      } else {
        RecordsHold(c, ps, ledger, approvedAt, snaps, res, moved, records, p);
        AgreesAfter(ledger, records, p);
      }
    }
  }

  lemma AgreesIn(ledger: seq<Record>, more: seq<Record>, p: Posting)
    requires Agrees(ledger, p)
    ensures Agrees(ledger + more, p)
  {
    var k :| 0 <= k < |ledger| && ledger[k].t == p.t && ledger[k].currency == p.currency;
    assert (ledger + more)[k] == ledger[k];
  }

  lemma AgreesAfter(ledger: seq<Record>, more: seq<Record>, p: Posting)
    requires Agrees(more, p)
    ensures Agrees(ledger + more, p)
  {
    var k :| 0 <= k < |more| && more[k].t == p.t && more[k].currency == p.currency;
    assert (ledger + more)[|ledger| + k] == more[k];
  }

  // ----- Readings, and the days they cover -----

  /** A statement whose records are in the ledger, and the owner's decisions it was read under. */
  datatype Accepted = Accepted(statement: Statement, resolutions: Resolutions)

  datatype Status = Read | CoverageGap | SetAside(why: Outcome) | Stopped

  class CashReader {
    const calendar: Calendar
    const approvedAt: int
    var ledger: seq<Record>
    var coverage: Option<Coverage>
    ghost var accepted: seq<Accepted>

    ghost predicate AllRecorded()
      reads this
    {
      forall k :: 0 <= k < |accepted| ==> HoldsAll(calendar, approvedAt, ledger, accepted[k])
    }

    ghost predicate Valid()
      reads this
    {
      LedgerOk(ledger) && AllRecorded() && NoDayMissing(Periods(accepted), coverage, calendar.day(approvedAt))
    }

    constructor (calendar: Calendar, approvedAt: int)
      ensures Valid() && ledger == [] && coverage == None && accepted == []
    {
      this.calendar, this.approvedAt := calendar, approvedAt;
      ledger, coverage, accepted := [], None, [];
    }

    /** The coverage file is lost: the next reading must reach back to the approval again. */
    method LoseCoverage()
      requires Valid()
      modifies this
      ensures Valid() && coverage == None && ledger == old(ledger) && accepted == old(accepted)
    {
      coverage := None;
    }

    /** One reading, stopped where `stop` says: the ledger is written first, then the days it covers. */
    method ReadOnce(st: Statement, snaps: seq<Snapshot>, res: Resolutions, earliest: int, stop: Stop)
      returns (status: Status)
      requires Valid() && StatementOk(st)
      modifies this
      ensures Valid()
      ensures old(ledger) <= ledger && old(accepted) <= accepted
      ensures status.Read? <==> && stop.AtTheEnd? && NoGap(st.period, old(coverage), calendar.day(approvedAt), earliest)
                                && Accepts(calendar, st, old(ledger), approvedAt, snaps, res)
      ensures status.CoverageGap? <==> !NoGap(st.period, old(coverage), calendar.day(approvedAt), earliest)
      ensures status.Read? ==> && accepted == old(accepted) + [Accepted(st, res)]
                               && coverage == Some(Coverage(st.period.from, CoveredTo(st.period, old(coverage))))
      ensures status.Read? ==> OneEach(calendar, st, old(ledger), approvedAt, res, ledger[|old(ledger)|..])
      ensures status.Read? && ValidCalendar(calendar) && TimeOrdered(snaps) ==>
                exists moved :: Counted(calendar, st, old(ledger), approvedAt, res, moved)
                                && Figures(calendar, snaps, moved, ledger[|old(ledger)|..])
      ensures !status.Read? ==> coverage == old(coverage)
      ensures status.CoverageGap? || status.SetAside? ==> ledger == old(ledger)
    {
      if !NoGap(st.period, coverage, calendar.day(approvedAt), earliest) {
        return CoverageGap;
      }
      var outcome := NewMovements(calendar, st, ledger, approvedAt, snaps, res);
      if !outcome.Write? {
        return SetAside(outcome);
      }
      if stop.BeforeTheLedger? {
        return Stopped;
      }
      Appended(calendar, st, ledger, approvedAt, snaps, res, outcome.records);
      HoldsAllMore(calendar, approvedAt, ledger, outcome.records, accepted, Accepted(st, res));
      CoverageKept(Periods(accepted), coverage, calendar.day(approvedAt), earliest, st.period);
      PeriodsMore(accepted, Accepted(st, res));
      assert (ledger + outcome.records)[|ledger|..] == outcome.records;
      ledger := ledger + outcome.records;
      accepted := accepted + [Accepted(st, res)];
      if stop.BetweenTheWrites? {
        return Stopped;
      }
      coverage := Some(Coverage(st.period.from, CoveredTo(st.period, coverage)));
      return Read;
    }
  }

  function Periods(accepted: seq<Accepted>): (r: seq<Period>)
    ensures |r| == |accepted| && forall k :: 0 <= k < |r| ==> r[k] == accepted[k].statement.period
  {
    seq(|accepted|, k requires 0 <= k < |accepted| => accepted[k].statement.period)
  }

  lemma PeriodsMore(accepted: seq<Accepted>, a: Accepted)
    ensures Periods(accepted + [a]) == Periods(accepted) + [a.statement.period]
  {
  }

  /** Every after-approval transfer of an accepted statement is in the ledger exactly once, as stated. */
  ghost predicate HoldsAll(c: Calendar, approvedAt: int, ledger: seq<Record>, a: Accepted) {
    forall p :: p in a.statement.postings && p.isTransfer && SideOf(c, p, approvedAt, a.resolutions).Sided?
        && SideOf(c, p, approvedAt, a.resolutions).after
      ==> RecordedOnce(ledger, p)
  }

  lemma HoldsAllMore(c: Calendar, approvedAt: int, ledger: seq<Record>, more: seq<Record>, accepted: seq<Accepted>,
                     a: Accepted)
    requires forall k :: 0 <= k < |accepted| ==> HoldsAll(c, approvedAt, ledger, accepted[k])
    requires LedgerOk(ledger + more)
    requires forall p ::
               && p in a.statement.postings && p.isTransfer
               && SideOf(c, p, approvedAt, a.resolutions).Sided? && SideOf(c, p, approvedAt, a.resolutions).after ==>
                 Agrees(ledger + more, p)
    ensures forall k :: 0 <= k < |accepted + [a]| ==> HoldsAll(c, approvedAt, ledger + more, (accepted + [a])[k])
  {
    forall k | 0 <= k < |accepted| ensures HoldsAll(c, approvedAt, ledger + more, accepted[k]) {
      forall p | p in accepted[k].statement.postings && p.isTransfer
          && SideOf(c, p, approvedAt, accepted[k].resolutions).Sided?
                 && SideOf(c, p, approvedAt, accepted[k].resolutions).after
        ensures RecordedOnce(ledger + more, p)
      {
        assert RecordedOnce(ledger, p);
        AgreesIn(ledger, more, p);
      }
    }
  }
}
