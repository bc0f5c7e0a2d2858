/** The costs ledger: its lines as written and as read back (adapter/ibkr/flex.py).

    A line's ID is the transaction's own, or its n-th restatement's. An amount is the value its float holds, or
    None past a float's range; two amounts that print alike are one value. */
module FlexCosts {
  import opened Wrappers
  import opened FlexCoverage

  datatype Cost = Cost(tx: string, kind: string, amount: int, currency: string, asOf: int)

  datatype LineId = Own(tx: string) | Restated(tx: string, n: nat)

  datatype Line = Line(id: LineId, cost: Cost, note: Option<Cost>)

  /** A commission, fee or interest posting; `nothing` is an amount of exactly zero. */
  datatype Posting = Posting(tx: string, kind: string, amount: Option<int>, nothing: bool, currency: string, asOf: int,
                             day: int)

  // ----- What a ledger's lines must be -----

  function Count(lines: seq<Line>, tx: string): nat {
    if lines == [] then 0 else (if lines[0].cost.tx == tx then 1 else 0) + Count(lines[1..], tx)
  }

  /** The last value stated for a transaction. */
  function Last(lines: seq<Line>, tx: string): (c: Cost)
    requires Count(lines, tx) > 0
    ensures c.tx == tx
  {
    if Count(lines[1..], tx) > 0 then Last(lines[1..], tx) else lines[0].cost
  }

  /** A line as the writer writes it after those before: the first of its transaction bears its own ID, no note and
      some amount; the n-th after that bears the n-th restatement's ID and a note. */
  predicate LineOk(before: seq<Line>, line: Line) {
    var n := Count(before, line.cost.tx);
    if n == 0 then line.id == Own(line.cost.tx) && line.note.None? && line.cost.amount != 0
    else line.id == Restated(line.cost.tx, n) && line.note.Some?
  }

  ghost predicate Accepted(lines: seq<Line>) {
    forall i :: 0 <= i < |lines| ==> LineOk(lines[..i], lines[i])
  }

  lemma {:induction false} CountConcat(a: seq<Line>, b: seq<Line>, tx: string)
    ensures Count(a + b, tx) == Count(a, tx) + Count(b, tx)
  {
    if a == [] {
      assert a + b == b;
    } else {
      assert (a + b)[1..] == a[1..] + b;
      CountConcat(a[1..], b, tx);
    }
  }

  lemma {:induction false} LastConcat(a: seq<Line>, b: seq<Line>, tx: string)
    requires Count(a + b, tx) > 0
    ensures Count(b, tx) > 0 ==> Last(a + b, tx) == Last(b, tx)
    ensures Count(b, tx) == 0 ==> Count(a, tx) > 0 && Last(a + b, tx) == Last(a, tx)
  {
    CountConcat(a, b, tx);
    if a == [] {
      assert a + b == b;
    } else {
      assert (a + b)[1..] == a[1..] + b;
      CountConcat(a[1..], b, tx);
      if Count(a[1..] + b, tx) > 0 { LastConcat(a[1..], b, tx); }
    }
  }

  lemma CountOne(line: Line, tx: string)
    ensures Count([line], tx) == (if line.cost.tx == tx then 1 else 0)
    ensures line.cost.tx == tx ==> Last([line], tx) == line.cost
  {
    assert [line][1..] == [];
  }

  // ----- Reading a ledger -----

  /** The latest record of a transaction, and how many restatements it had. */
  datatype Latest = Latest(cost: Cost, restatements: nat)

  ghost predicate Holds(records: map<string, Latest>, lines: seq<Line>) {
    && (forall tx :: tx in records <==> Count(lines, tx) > 0)
    && (forall tx :: tx in records ==>
           records[tx].cost == Last(lines, tx) && records[tx].restatements + 1 == Count(lines, tx))
  }

  lemma HoldsMore(records: map<string, Latest>, lines: seq<Line>, line: Line)
    requires Holds(records, lines)
    ensures var n := Count(lines, line.cost.tx);
            Holds(records[line.cost.tx := Latest(line.cost, n)], lines + [line])
  {
    var n := Count(lines, line.cost.tx);
    var records' := records[line.cost.tx := Latest(line.cost, n)];
    forall tx ensures tx in records' <==> Count(lines + [line], tx) > 0 {
      CountConcat(lines, [line], tx);
      CountOne(line, tx);
    }
    forall tx | tx in records'
      ensures Count(lines + [line], tx) > 0 && records'[tx].cost == Last(lines + [line], tx)
      ensures records'[tx].restatements + 1 == Count(lines + [line], tx)
    {
      CountConcat(lines, [line], tx);
      CountOne(line, tx);
      LastConcat(lines, [line], tx);
    }
  }

  /** read_costs: refuses a ledger with a line that is not as written, and reads of every transaction the last value
      stated and how often it was restated. */
  method ReadCosts(lines: seq<Line>) returns (ok: bool, records: map<string, Latest>)
    ensures ok <==> Accepted(lines)
    ensures ok ==> Holds(records, lines)
  {
    records := map[];
    var restated: map<string, nat> := map[];
    var i := 0;
    while i < |lines|
      invariant 0 <= i <= |lines|
      invariant forall j :: 0 <= j < i ==> LineOk(lines[..j], lines[j])
      invariant Holds(records, lines[..i])
      invariant Restatements(restated, records)
    {
      var line := lines[i];
      var tx := line.cost.tx;
      assert lines[..i + 1] == lines[..i] + [line];
      HoldsMore(records, lines[..i], line);
      AsWrittenIsOk(line, records, restated, lines[..i]);
      if !AsWritten(line, records, restated) {
        return false, records;
      }
      if tx in records {
        restated := restated[tx := (if tx in restated then restated[tx] else 0) + 1];
        records := records[tx := Latest(line.cost, restated[tx])];
      } else {
        records := records[tx := Latest(line.cost, 0)];
      }
      i := i + 1;
    }
    assert lines[..i] == lines;
    ok := true;
  }

  /** The counts of restatements, for those restated at all. */
  ghost predicate Restatements(restated: map<string, nat>, records: map<string, Latest>) {
    && (forall tx :: tx in restated ==> tx in records)
    && (forall tx :: tx in records ==> records[tx].restatements == if tx in restated then restated[tx] else 0)
  }

  lemma AsWrittenIsOk(line: Line, records: map<string, Latest>, restated: map<string, nat>, before: seq<Line>)
    requires Holds(records, before) && Restatements(restated, records)
    ensures AsWritten(line, records, restated) <==> LineOk(before, line)
  {
  }

  /** The test of one line against the records so far (_cost_as_written, _cost_id_as_written). */
  predicate AsWritten(line: Line, records: map<string, Latest>, restated: map<string, nat>) {
    var tx := line.cost.tx;
    if tx !in records then line.cost.amount != 0 && line.id == Own(tx) && line.note.None?
    else line.id == Restated(tx, (if tx in restated then restated[tx] else 0) + 1) && line.note.Some?
  }

  // ----- What a statement adds -----

  predicate Same(c: Cost, p: Posting) {
    p.amount == Some(c.amount) && c.currency == p.currency && c.asOf == p.asOf && c.kind == p.kind
  }

  function CostOf(p: Posting): Cost
    requires p.amount.Some?
  {
    Cost(p.tx, p.kind, p.amount.value, p.currency, p.asOf)
  }

  /** What a posting does to a ledger. */
  datatype Effect = Unchanged | Restates | Before | Skips | Records

  function EffectOn(lines: seq<Line>, p: Posting, firstDay: int): Effect {
    if Count(lines, p.tx) > 0 then if Same(Last(lines, p.tx), p) then Unchanged else Restates
    else if p.day < firstDay then Before
    else if p.nothing then Skips
    else Records
  }

  /** A posting whose line the reader would refuse: past a float, or a new cost whose float is nothing. */
  predicate Unwritable(lines: seq<Line>, p: Posting, firstDay: int) {
    match EffectOn(lines, p, firstDay)
    case Restates => p.amount.None?
    case Records => p.amount.None? || p.amount.value == 0
    case _ => false
  }

  function LineOf(lines: seq<Line>, p: Posting): Line
    requires p.amount.Some?
  {
    var n := Count(lines, p.tx);
    if n == 0 then Line(Own(p.tx), CostOf(p), None) else Line(Restated(p.tx, n), CostOf(p), Some(Last(lines, p.tx)))
  }

  ghost predicate DistinctTx(ps: seq<Posting>) {
    forall i, j :: 0 <= i < j < |ps| ==> ps[i].tx != ps[j].tx
  }

  /** The lines of the postings with one effect, in their order. */
  function LinesOf(lines: seq<Line>, ps: seq<Posting>, firstDay: int, e: Effect): seq<Line>
    requires forall i :: 0 <= i < |ps| ==> !Unwritable(lines, ps[i], firstDay)
  {
    if ps == [] then []
    else
      var n := |ps| - 1;
      LinesOf(lines, ps[..n], firstDay, e)
      + if EffectOn(lines, ps[n], firstDay) == e && ps[n].amount.Some? then [LineOf(lines, ps[n])] else []
  }

  /** new_costs: refused for a posting it cannot write, else the new costs, the transactions before the first day
      and the restatements. */
  method NewCosts(ps: seq<Posting>, records: map<string, Latest>, firstDay: int, ghost lines: seq<Line>)
    returns (ok: bool, written: seq<Line>, before: seq<string>, restatements: seq<Line>)
    requires Holds(records, lines)
    ensures ok <==> forall i :: 0 <= i < |ps| ==> !Unwritable(lines, ps[i], firstDay)
    ensures ok ==>
              && written == LinesOf(lines, ps, firstDay, Records)
              && restatements == LinesOf(lines, ps, firstDay, Restates)
    ensures ok ==> forall tx :: tx in before <==>
            exists i :: 0 <= i < |ps| && ps[i].tx == tx && EffectOn(lines, ps[i], firstDay) == Before
  {
    written, before, restatements := [], [], [];
    var i := 0;
    while i < |ps|
      invariant 0 <= i <= |ps|
      invariant forall j :: 0 <= j < i ==> !Unwritable(lines, ps[j], firstDay)
      invariant written == LinesOf(lines, ps[..i], firstDay, Records)
                && restatements == LinesOf(lines, ps[..i], firstDay, Restates)
      invariant forall tx :: tx in before <==>
                exists j :: 0 <= j < i && ps[j].tx == tx && EffectOn(lines, ps[j], firstDay) == Before
    {
      var p := ps[i];
      if p.tx in records {
        var recorded := records[p.tx];
        if !Same(recorded.cost, p) {
          if p.amount.None? {
            return false, written, before, restatements;
          }
          restatements := restatements + [Line(Restated(p.tx, recorded.restatements + 1), CostOf(p),
              Some(recorded.cost))];
        }
      } else if p.day < firstDay {
        before := before + [p.tx];
      } else if !p.nothing {
        if p.amount.None? || p.amount.value == 0 {
          return false, written, before, restatements;
        }
        written := written + [Line(Own(p.tx), CostOf(p), None)];
      }
      OneMorePosting(lines, ps, i, firstDay, Records);
      OneMorePosting(lines, ps, i, firstDay, Restates);
      i := i + 1;
    }
    assert ps[..i] == ps;
    ok := true;
  }

  lemma OneMorePosting(lines: seq<Line>, ps: seq<Posting>, i: nat, firstDay: int, e: Effect)
    requires i < |ps| && forall j :: 0 <= j <= i ==> !Unwritable(lines, ps[j], firstDay)
    ensures LinesOf(lines, ps[..i + 1], firstDay, e)
            == LinesOf(lines, ps[..i], firstDay, e)
               + if EffectOn(lines, ps[i], firstDay) == e && ps[i].amount.Some? then [LineOf(lines, ps[i])] else []
  {
    assert ps[..i + 1][..i] == ps[..i];
  }

  // ----- The round trip -----

  ghost predicate DistinctLines(ls: seq<Line>) {
    forall i, j :: 0 <= i < j < |ls| ==> ls[i].cost.tx != ls[j].cost.tx
  }

  lemma {:induction false} CountAbsent(ls: seq<Line>, tx: string)
    requires forall i :: 0 <= i < |ls| ==> ls[i].cost.tx != tx
    ensures Count(ls, tx) == 0
  {
    if ls != [] { CountAbsent(ls[1..], tx); }
  }

  /** Lines of different transactions, each right after the ledger, are right after one another. */
  lemma AppendsWell(lines: seq<Line>, more: seq<Line>)
    requires Accepted(lines) && DistinctLines(more) && forall i :: 0 <= i < |more| ==> LineOk(lines, more[i])
    ensures Accepted(lines + more)
  {
    var all := lines + more;
    forall i | 0 <= i < |all| ensures LineOk(all[..i], all[i]) {
      if i < |lines| {
        assert all[..i] == lines[..i];
      } else {
        var k := i - |lines|;
        assert all[..i] == lines + more[..k];
        CountAbsent(more[..k], more[k].cost.tx);
        CountConcat(lines, more[..k], more[k].cost.tx);
      }
    }
  }

  ghost predicate Stems(lines: seq<Line>, ps: seq<Posting>, firstDay: int, e: Effect, l: Line) {
    exists i :: 0 <= i < |ps| && EffectOn(lines, ps[i], firstDay) == e && ps[i].amount.Some?
        && l == LineOf(lines, ps[i])
  }

  lemma {:induction false} LinesStem(lines: seq<Line>, ps: seq<Posting>, firstDay: int, e: Effect, k: nat)
    requires forall i :: 0 <= i < |ps| ==> !Unwritable(lines, ps[i], firstDay)
    requires k < |LinesOf(lines, ps, firstDay, e)|
    ensures Stems(lines, ps, firstDay, e, LinesOf(lines, ps, firstDay, e)[k])
    decreases |ps|
  {
    var n := |ps| - 1;
    var rest := LinesOf(lines, ps[..n], firstDay, e);
    if k < |rest| {
      LinesStem(lines, ps[..n], firstDay, e, k);
      var i :| 0 <= i < n && EffectOn(lines, ps[..n][i], firstDay) == e && ps[..n][i].amount.Some?
          && rest[k] == LineOf(lines, ps[..n][i]);
      assert ps[..n][i] == ps[i];
    }
  }

  lemma {:induction false} LinesHold(lines: seq<Line>, ps: seq<Posting>, firstDay: int, e: Effect, i: nat)
    requires forall j :: 0 <= j < |ps| ==> !Unwritable(lines, ps[j], firstDay)
    requires i < |ps| && EffectOn(lines, ps[i], firstDay) == e && ps[i].amount.Some?
    ensures LineOf(lines, ps[i]) in LinesOf(lines, ps, firstDay, e)
    decreases |ps|
  {
    var n := |ps| - 1;
    if i < n {
      assert ps[..n][i] == ps[i];
      LinesHold(lines, ps[..n], firstDay, e, i);
    }
  }

  lemma {:induction false} LinesDistinct(lines: seq<Line>, ps: seq<Posting>, firstDay: int, e: Effect)
    requires DistinctTx(ps) && forall j :: 0 <= j < |ps| ==> !Unwritable(lines, ps[j], firstDay)
    ensures DistinctLines(LinesOf(lines, ps, firstDay, e))
    decreases |ps|
  {
    if ps != [] {
      var n := |ps| - 1;
      LinesDistinct(lines, ps[..n], firstDay, e);
      var rest := LinesOf(lines, ps[..n], firstDay, e);
      forall k | 0 <= k < |rest| ensures rest[k].cost.tx != ps[n].tx {
        LinesStem(lines, ps[..n], firstDay, e, k);
        var i :| 0 <= i < n && EffectOn(lines, ps[..n][i], firstDay) == e && ps[..n][i].amount.Some?
            && rest[k] == LineOf(lines, ps[..n][i]);
        assert ps[..n][i] == ps[i];
      }
    }
  }

  /** Everything one reading of a statement appends: its restatements, then its new costs. */
  function Appended(lines: seq<Line>, ps: seq<Posting>, firstDay: int): seq<Line>
    requires forall i :: 0 <= i < |ps| ==> !Unwritable(lines, ps[i], firstDay)
  {
    LinesOf(lines, ps, firstDay, Restates) + LinesOf(lines, ps, firstDay, Records)
  }

  lemma AppendedIs(lines: seq<Line>, ps: seq<Posting>, firstDay: int)
    requires DistinctTx(ps) && forall j :: 0 <= j < |ps| ==> !Unwritable(lines, ps[j], firstDay)
    ensures DistinctLines(Appended(lines, ps, firstDay))
    ensures forall k :: 0 <= k < |Appended(lines, ps, firstDay)| ==> LineOk(lines, Appended(lines, ps, firstDay)[k])
    ensures forall k :: 0 <= k < |Appended(lines, ps, firstDay)| ==>
              Stems(lines, ps, firstDay, Restates, Appended(lines, ps, firstDay)[k])
                  || Stems(lines, ps, firstDay, Records, Appended(lines, ps, firstDay)[k])
  {
    var a, b := LinesOf(lines, ps, firstDay, Restates), LinesOf(lines, ps, firstDay, Records);
    LinesDistinct(lines, ps, firstDay, Restates);
    LinesDistinct(lines, ps, firstDay, Records);
    forall k | 0 <= k < |a| ensures Stems(lines, ps, firstDay, Restates, a[k]) && LineOk(lines, a[k])
        && Count(lines, a[k].cost.tx) > 0 {
      LinesStem(lines, ps, firstDay, Restates, k);
    }
    forall k | 0 <= k < |b| ensures Stems(lines, ps, firstDay, Records, b[k]) && LineOk(lines, b[k])
        && Count(lines, b[k].cost.tx) == 0 {
      LinesStem(lines, ps, firstDay, Records, k);
    }
  }

  /** Every ledger the writer extends is one the reader accepts. */
  lemma ExtendedIsAccepted(lines: seq<Line>, ps: seq<Posting>, firstDay: int)
    requires Accepted(lines) && DistinctTx(ps) && forall j :: 0 <= j < |ps| ==> !Unwritable(lines, ps[j], firstDay)
    ensures Accepted(lines + Appended(lines, ps, firstDay))
  {
    AppendedIs(lines, ps, firstDay);
    AppendsWell(lines, Appended(lines, ps, firstDay));
  }

  lemma {:induction false} LastIn(ls: seq<Line>, l: Line)
    requires DistinctLines(ls) && l in ls
    ensures Count(ls, l.cost.tx) == 1 && Last(ls, l.cost.tx) == l.cost
  {
    if ls[0] == l {
      CountAbsent(ls[1..], l.cost.tx);
    } else {
      assert l in ls[1..];
      LastIn(ls[1..], l);
      var k :| 0 <= k < |ls[1..]| && ls[1..][k] == l;
      assert ls[k + 1] == l;
    }
  }

  /** A posting written or restated is then the last value stated; one not written leaves its transaction as it was. */
  lemma StatedLast(lines: seq<Line>, ps: seq<Posting>, firstDay: int, i: nat)
    requires DistinctTx(ps) && i < |ps| && forall j :: 0 <= j < |ps| ==> !Unwritable(lines, ps[j], firstDay)
    ensures var all := lines + Appended(lines, ps, firstDay);
            match EffectOn(lines, ps[i], firstDay)
            case Restates => Count(all, ps[i].tx) == Count(lines, ps[i].tx) + 1 && Same(Last(all, ps[i].tx), ps[i])
            case Records => Count(all, ps[i].tx) == 1 && Same(Last(all, ps[i].tx), ps[i])
            case Unchanged => Count(all, ps[i].tx) > 0 && Same(Last(all, ps[i].tx), ps[i])
            case _ => Count(all, ps[i].tx) == 0
  {
    var more := Appended(lines, ps, firstDay);
    var tx, e := ps[i].tx, EffectOn(lines, ps[i], firstDay);
    AppendedIs(lines, ps, firstDay);
    CountConcat(lines, more, tx);
    if e == Restates || e == Records {
      LinesHold(lines, ps, firstDay, e, i);
      LastIn(more, LineOf(lines, ps[i]));
      LastConcat(lines, more, tx);
    } else {
      Untouched(lines, ps, firstDay, i);
      CountAbsent(more, tx);
      if e == Unchanged { LastConcat(lines, more, tx); }
    }
  }

  lemma Untouched(lines: seq<Line>, ps: seq<Posting>, firstDay: int, i: nat)
    requires DistinctTx(ps) && i < |ps| && forall j :: 0 <= j < |ps| ==> !Unwritable(lines, ps[j], firstDay)
    requires EffectOn(lines, ps[i], firstDay) != Restates && EffectOn(lines, ps[i], firstDay) != Records
    ensures forall k :: 0 <= k < |Appended(lines, ps, firstDay)| ==>
            Appended(lines, ps, firstDay)[k].cost.tx != ps[i].tx
  {
    AppendedIs(lines, ps, firstDay);
    var more := Appended(lines, ps, firstDay);
    forall k | 0 <= k < |more| ensures more[k].cost.tx != ps[i].tx {
      var e := if Stems(lines, ps, firstDay, Restates, more[k]) then Restates else Records;
      var j :| 0 <= j < |ps| && EffectOn(lines, ps[j], firstDay) == e && ps[j].amount.Some?
          && more[k] == LineOf(lines, ps[j]);
      assert j != i;
    }
  }

  lemma {:induction false} NoLines(lines: seq<Line>, ps: seq<Posting>, firstDay: int, e: Effect)
    requires forall i :: 0 <= i < |ps| ==> !Unwritable(lines, ps[i], firstDay) && EffectOn(lines, ps[i], firstDay) != e
    ensures LinesOf(lines, ps, firstDay, e) == []
    decreases |ps|
  {
    if ps != [] { NoLines(lines, ps[..|ps| - 1], firstDay, e); }
  }

  /** Reading the same statement again is accepted and appends nothing. */
  lemma RereadAppendsNothing(lines: seq<Line>, ps: seq<Posting>, firstDay: int)
    requires DistinctTx(ps) && forall j :: 0 <= j < |ps| ==> !Unwritable(lines, ps[j], firstDay)
    ensures var all := lines + Appended(lines, ps, firstDay);
            && (forall j :: 0 <= j < |ps| ==> !Unwritable(all, ps[j], firstDay))
            && Appended(all, ps, firstDay) == []
  {
    var all := lines + Appended(lines, ps, firstDay);
    forall j | 0 <= j < |ps|
      ensures !Unwritable(all, ps[j], firstDay) && EffectOn(all, ps[j], firstDay) != Restates
              && EffectOn(all, ps[j], firstDay) != Records
    {
      StatedLast(lines, ps, firstDay, j);
    }
    NoLines(all, ps, firstDay, Restates);
    NoLines(all, ps, firstDay, Records);
  }

  // ----- Over any readings -----

  /** What the writer makes of a line: as the reader asks, and a restatement's note is the value stated before it, which
      it changes. */
  predicate LineIs(before: seq<Line>, line: Line) {
    && LineOk(before, line)
    && (Count(before, line.cost.tx) > 0 ==>
          line.note == Some(Last(before, line.cost.tx)) && line.cost != Last(before, line.cost.tx))
  }

  ghost predicate AllLinesAre(lines: seq<Line>) {
    forall i :: 0 <= i < |lines| ==> LineIs(lines[..i], lines[i])
  }

  predicate Writable(lines: seq<Line>, ps: seq<Posting>, firstDay: int) {
    forall i :: 0 <= i < |ps| ==> !Unwritable(lines, ps[i], firstDay)
  }

  /** The ledger after readings of these statements' postings, from an empty one; one that cannot be written leaves
      it. */
  function LedgerAfter(readings: seq<seq<Posting>>, firstDay: int): seq<Line> {
    if readings == [] then []
    else
      var n := |readings| - 1;
      var lines := LedgerAfter(readings[..n], firstDay);
      if Writable(lines, readings[n], firstDay) then lines + Appended(lines, readings[n], firstDay) else lines
  }

  lemma LedgerMore(readings: seq<seq<Posting>>, ps: seq<Posting>, firstDay: int)
    ensures var lines := LedgerAfter(readings, firstDay);
            LedgerAfter(readings + [ps], firstDay) == if Writable(lines, ps, firstDay)
                then lines + Appended(lines, ps, firstDay) else lines
  {
    assert (readings + [ps])[..|readings|] == readings;
  }

  lemma AppendedAre(lines: seq<Line>, ps: seq<Posting>, firstDay: int, k: nat)
    requires DistinctTx(ps) && Writable(lines, ps, firstDay) && k < |Appended(lines, ps, firstDay)|
    ensures LineIs(lines, Appended(lines, ps, firstDay)[k])
  {
    AppendedIs(lines, ps, firstDay);
    var l := Appended(lines, ps, firstDay)[k];
    var e := if Stems(lines, ps, firstDay, Restates, l) then Restates else Records;
    var i :| 0 <= i < |ps| && EffectOn(lines, ps[i], firstDay) == e && ps[i].amount.Some? && l == LineOf(lines, ps[i]);
    assert Count(lines, ps[i].tx) > 0 ==> !Same(Last(lines, ps[i].tx), ps[i]);
  }

  /** Lines of different transactions, each as written after the ledger, are as written after one another. */
  lemma AppendsAsWritten(lines: seq<Line>, more: seq<Line>)
    requires AllLinesAre(lines) && DistinctLines(more) && forall k :: 0 <= k < |more| ==> LineIs(lines, more[k])
    ensures AllLinesAre(lines + more)
  {
    var all := lines + more;
    forall i | 0 <= i < |all| ensures LineIs(all[..i], all[i]) {
      if i < |lines| {
        assert all[..i] == lines[..i];
      } else {
        var k := i - |lines|;
        assert all[..i] == lines + more[..k];
        LineStillIs(lines, more[..k], more[k]);
      }
    }
  }

  lemma LineStillIs(lines: seq<Line>, between: seq<Line>, line: Line)
    requires LineIs(lines, line) && forall i :: 0 <= i < |between| ==> between[i].cost.tx != line.cost.tx
    ensures LineIs(lines + between, line)
  {
    var tx := line.cost.tx;
    CountAbsent(between, tx);
    CountConcat(lines, between, tx);
    if Count(lines, tx) > 0 { LastConcat(lines, between, tx); }
  }

  ghost predicate AllDistinct(readings: seq<seq<Posting>>) {
    forall r :: r in readings ==> DistinctTx(r)
  }

  lemma {:induction false} LedgerAsWritten(readings: seq<seq<Posting>>, firstDay: int)
    requires AllDistinct(readings)
    ensures AllLinesAre(LedgerAfter(readings, firstDay))
    decreases |readings|
  {
    if readings != [] {
      var n := |readings| - 1;
      assert forall r :: r in readings[..n] ==> r in readings;
      LedgerAsWritten(readings[..n], firstDay);
      var lines, ps := LedgerAfter(readings[..n], firstDay), readings[n];
      if Writable(lines, ps, firstDay) {
        AppendedIs(lines, ps, firstDay);
        var more := Appended(lines, ps, firstDay);
        forall k | 0 <= k < |more| ensures LineIs(lines, more[k]) { AppendedAre(lines, ps, firstDay, k); }
        AppendsAsWritten(lines, more);
      }
    }
  }

  /** After any readings from an empty ledger: the first line of a transaction bears its own ID and no note, the n-th
      after it bears the n-th restatement's ID, and its note is the value stated before it, which it changes. */
  lemma NumberedInTurn(readings: seq<seq<Posting>>, firstDay: int, i: nat)
    requires AllDistinct(readings) && i < |LedgerAfter(readings, firstDay)|
    ensures var lines := LedgerAfter(readings, firstDay);
            var tx := lines[i].cost.tx;
            var n := Count(lines[..i], tx);
            if n == 0 then lines[i].id == Own(tx) && lines[i].note == None && lines[i].cost.amount != 0
            else && lines[i].id == Restated(tx, n) && lines[i].note == Some(Last(lines[..i], tx))
                 && lines[i].cost != Last(lines[..i], tx)
  {
    LedgerAsWritten(readings, firstDay);
    var lines := LedgerAfter(readings, firstDay);
    assert LineIs(lines[..i], lines[i]);
  }

  /** A statement read again straight after adds no line, after any readings. */
  lemma RereadAddsNone(readings: seq<seq<Posting>>, ps: seq<Posting>, firstDay: int)
    requires DistinctTx(ps)
    ensures LedgerAfter(readings + [ps] + [ps], firstDay) == LedgerAfter(readings + [ps], firstDay)
  {
    LedgerMore(readings, ps, firstDay);
    LedgerMore(readings + [ps], ps, firstDay);
    var lines := LedgerAfter(readings, firstDay);
    if Writable(lines, ps, firstDay) { RereadAppendsNothing(lines, ps, firstDay); }
  }

  lemma AsWrittenIsAccepted(lines: seq<Line>)
    requires AllLinesAre(lines)
    ensures Accepted(lines)
  {
    forall i | 0 <= i < |lines| ensures LineOk(lines[..i], lines[i]) {
      assert LineIs(lines[..i], lines[i]);
    }
  }

  datatype Status = Read | CoverageGap | SetAside | Stopped

  class CostsLedger {
    const firstDay: int
    var lines: seq<Line>
    var coverage: Option<Coverage>
    ghost var readings: seq<seq<Posting>>
    ghost var periods: seq<Period>

    /** The lines are those of the readings accepted, and no day from the first to the last covered is missing. */
    ghost predicate Valid()
      reads this
    {
      && AllDistinct(readings) && lines == LedgerAfter(readings, firstDay)
      && NoDayMissing(periods, coverage, firstDay)
    }

    constructor (firstDay: int)
      ensures Valid() && lines == [] && coverage == None && readings == [] && this.firstDay == firstDay
    {
      this.firstDay, lines, coverage, readings, periods := firstDay, [], None, [], [];
    }

    /** The coverage file is lost: the next reading must reach back to the first day again. */
    method LoseCoverage()
      requires Valid()
      modifies this
      ensures Valid() && coverage == None && lines == old(lines) && readings == old(readings)
    {
      coverage := None;
    }

    /** The costs step of a reading (_read_costs_once), stopped where `stop` says: one write of the whole ledger, then
        the days it covers. */
    method ReadOnce(ps: seq<Posting>, period: Period, earliest: int, stop: Stop) returns (status: Status)
      requires Valid() && DistinctTx(ps)
      modifies this
      ensures Valid() && Accepted(lines)
      ensures status.CoverageGap? <==> !NoGap(period, old(coverage), firstDay, earliest)
      ensures status.SetAside? <==>
                NoGap(period, old(coverage), firstDay, earliest) && !Writable(old(lines), ps, firstDay)
      ensures status.Read? || (status.Stopped? && stop.BetweenTheWrites?) ==>
                && readings == old(readings) + [ps] && periods == old(periods) + [period]
                && Writable(old(lines), ps, firstDay) && lines == old(lines) + Appended(old(lines), ps, firstDay)
      ensures !(status.Read? || (status.Stopped? && stop.BetweenTheWrites?)) ==>
              lines == old(lines) && readings == old(readings)
      ensures coverage == if status.Read? then Some(Coverage(period.from, CoveredTo(period, old(coverage))))
              else old(coverage)
      ensures status.Stopped? ==> !stop.AtTheEnd?
    {
      LedgerAsWritten(readings, firstDay);
      AsWrittenIsAccepted(lines);
      var readable, records := ReadCosts(lines);
      if !NoGap(period, coverage, firstDay, earliest) {
        return CoverageGap;
      }
      var ok, written, before, restatements := NewCosts(ps, records, firstDay, lines);
      if !ok {
        return SetAside;
      }
      if stop.BeforeTheLedger? {
        return Stopped;
      }
      Extend(ps, period, earliest, restatements + written);
      if stop.BetweenTheWrites? {
        return Stopped;
      }
      coverage := Some(Coverage(period.from, CoveredTo(period, coverage)));
      return Read;
    }

    /** The ledger's one write. */
    method Extend(ps: seq<Posting>, ghost period: Period, ghost earliest: int, more: seq<Line>)
      requires Valid() && DistinctTx(ps) && Writable(lines, ps, firstDay) && more == Appended(lines, ps, firstDay)
      requires NoGap(period, coverage, firstDay, earliest)
      modifies this`lines, this`readings, this`periods
      ensures Valid() && Accepted(lines) && lines == old(lines) + more
      ensures readings == old(readings) + [ps] && periods == old(periods) + [period]
      ensures NoDayMissing(periods, Some(Coverage(period.from, CoveredTo(period, coverage))), firstDay)
    {
      LedgerMore(readings, ps, firstDay);
      CoverageKept(periods, coverage, firstDay, earliest, period);
      lines := lines + more;
      readings := readings + [ps];
      periods := periods + [period];
      LedgerAsWritten(readings, firstDay);
      AsWrittenIsAccepted(lines);
    }
  }
}
