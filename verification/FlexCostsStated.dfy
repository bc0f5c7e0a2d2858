/** What a reading of a statement's costs does to the ledger, in terms of the lines it holds and the postings
    (adapter/ibkr/flex.py:1203-1237). */
module FlexCostsStated {
  import opened Wrappers
  import opened FlexCosts

  ghost predicate Recorded(lines: seq<Line>, tx: string) {
    exists i :: 0 <= i < |lines| && lines[i].cost.tx == tx
  }

  /** The transaction's latest line. */
  ghost predicate LatestLine(lines: seq<Line>, tx: string, k: int) {
    0 <= k < |lines| && lines[k].cost.tx == tx && forall j :: k < j < |lines| ==> lines[j].cost.tx != tx
  }

  /** The value is the posting's, in every field. */
  ghost predicate States(c: Cost, p: Posting) {
    && c.tx == p.tx && c.kind == p.kind && p.amount == Some(c.amount) && c.currency == p.currency
    && c.asOf == p.asOf
  }

  /** Recorded, and IBKR now states it otherwise. */
  ghost predicate Changed(lines: seq<Line>, p: Posting) {
    exists k :: LatestLine(lines, p.tx, k) && !States(lines[k].cost, p)
  }

  /** Not recorded, of the first run's approval day or later, and of some amount. */
  ghost predicate Fresh(lines: seq<Line>, p: Posting, firstDay: int) {
    !Recorded(lines, p.tx) && firstDay <= p.day && !p.nothing
  }

  ghost predicate Written(lines: seq<Line>, p: Posting, firstDay: int) {
    Changed(lines, p) || Fresh(lines, p, firstDay)
  }

  /** Nothing at all is written: a posting to write is past a float, or a new cost's float is nothing. */
  ghost predicate Refused(lines: seq<Line>, ps: seq<Posting>, firstDay: int) {
    exists i :: 0 <= i < |ps|
        && ((Written(lines, ps[i], firstDay) && ps[i].amount == None)
            || (Fresh(lines, ps[i], firstDay) && ps[i].amount == Some(0)))
  }

  ghost predicate StatesOne(lines: seq<Line>, ps: seq<Posting>, firstDay: int, c: Cost) {
    exists i :: 0 <= i < |ps| && Written(lines, ps[i], firstDay) && States(c, ps[i])
  }

  ghost predicate StatedIn(more: seq<Line>, p: Posting) {
    exists k :: 0 <= k < |more| && States(more[k].cost, p)
  }

  /** One new line for each posting changed or fresh, stating it, and none for any other; the restatements first. */
  ghost predicate Adds(lines: seq<Line>, ps: seq<Posting>, firstDay: int, more: seq<Line>) {
    && (forall k :: 0 <= k < |more| ==> StatesOne(lines, ps, firstDay, more[k].cost))
    && (forall i :: 0 <= i < |ps| && Written(lines, ps[i], firstDay) ==> StatedIn(more, ps[i]))
    && DistinctLines(more)
    && (forall j, k :: 0 <= j < k < |more| && Recorded(lines, more[k].cost.tx) ==> Recorded(lines, more[j].cost.tx))
  }

  lemma {:induction false} CountedIs(lines: seq<Line>, tx: string)
    ensures Count(lines, tx) > 0 <==> Recorded(lines, tx)
    ensures Count(lines, tx) > 0 ==> exists k :: LatestLine(lines, tx, k) && lines[k].cost == Last(lines, tx)
  {
    if lines != [] {
      var rest := lines[1..];
      assert forall i :: 0 <= i < |rest| ==> rest[i] == lines[i + 1];
      CountedIs(rest, tx);
      if Count(rest, tx) > 0 {
        var k :| LatestLine(rest, tx, k) && rest[k].cost == Last(rest, tx);
        assert LatestLine(lines, tx, k + 1);
      } else if lines[0].cost.tx == tx {
        assert LatestLine(lines, tx, 0);
      }
    }
  }

  lemma OneLatest(lines: seq<Line>, tx: string, j: int, k: int)
    requires LatestLine(lines, tx, j) && LatestLine(lines, tx, k)
    ensures j == k
  {
    assert !(j < k) && !(k < j);
  }

  /** A posting's effect, by what the ledger holds of its transaction. */
  lemma EffectIs(lines: seq<Line>, p: Posting, firstDay: int)
    ensures match EffectOn(lines, p, firstDay)
            case Unchanged => Recorded(lines, p.tx) && !Changed(lines, p)
            case Restates => Recorded(lines, p.tx) && Changed(lines, p)
            case Before => !Recorded(lines, p.tx) && p.day < firstDay
            case Skips => !Recorded(lines, p.tx) && p.day >= firstDay && p.nothing
            case Records => Fresh(lines, p, firstDay)
  {
    CountedIs(lines, p.tx);
    if Count(lines, p.tx) > 0 {
      var k :| LatestLine(lines, p.tx, k) && lines[k].cost == Last(lines, p.tx);
      if Changed(lines, p) {
        var j :| LatestLine(lines, p.tx, j) && !States(lines[j].cost, p);
        OneLatest(lines, p.tx, j, k);
      }
    }
  }

  /** A reading, from the ledger's lines and the postings: refused exactly so, and otherwise exactly these lines
      more. */
  lemma CostsResult(lines: seq<Line>, ps: seq<Posting>, firstDay: int)
    requires DistinctTx(ps)
    ensures Writable(lines, ps, firstDay) <==> !Refused(lines, ps, firstDay)
    ensures Writable(lines, ps, firstDay) ==> Adds(lines, ps, firstDay, Appended(lines, ps, firstDay))
  {
    forall i | 0 <= i < |ps|
      ensures Unwritable(lines, ps[i], firstDay) <==>
                || (Written(lines, ps[i], firstDay) && ps[i].amount == None)
                || (Fresh(lines, ps[i], firstDay) && ps[i].amount == Some(0))
    {
      EffectIs(lines, ps[i], firstDay);
    }
    if Writable(lines, ps, firstDay) {
      var more := Appended(lines, ps, firstDay);
      AppendedIs(lines, ps, firstDay);
      forall k | 0 <= k < |more| ensures StatesOne(lines, ps, firstDay, more[k].cost) {
        LineStates(lines, ps, firstDay, k);
      }
      forall i | 0 <= i < |ps| && Written(lines, ps[i], firstDay) ensures StatedIn(more, ps[i]) {
        PostingStated(lines, ps, firstDay, i);
      }
      RestatementsFirst(lines, ps, firstDay);
    }
  }

  lemma LineStates(lines: seq<Line>, ps: seq<Posting>, firstDay: int, k: nat)
    requires DistinctTx(ps) && Writable(lines, ps, firstDay) && k < |Appended(lines, ps, firstDay)|
    ensures StatesOne(lines, ps, firstDay, Appended(lines, ps, firstDay)[k].cost)
  {
    AppendedIs(lines, ps, firstDay);
    var l := Appended(lines, ps, firstDay)[k];
    var e := if Stems(lines, ps, firstDay, Restates, l) then Restates else Records;
    var i :| 0 <= i < |ps| && EffectOn(lines, ps[i], firstDay) == e && ps[i].amount.Some? && l == LineOf(lines, ps[i]);
    EffectIs(lines, ps[i], firstDay);
  }

  lemma PostingStated(lines: seq<Line>, ps: seq<Posting>, firstDay: int, i: nat)
    requires Writable(lines, ps, firstDay) && i < |ps| && Written(lines, ps[i], firstDay)
    ensures StatedIn(Appended(lines, ps, firstDay), ps[i])
  {
    var more, e := Appended(lines, ps, firstDay), EffectOn(lines, ps[i], firstDay);
    EffectIs(lines, ps[i], firstDay);
    LinesHold(lines, ps, firstDay, e, i);
    assert LineOf(lines, ps[i]) in more;
    var k :| 0 <= k < |more| && more[k] == LineOf(lines, ps[i]);
  }

  lemma RestatementsFirst(lines: seq<Line>, ps: seq<Posting>, firstDay: int)
    requires DistinctTx(ps) && Writable(lines, ps, firstDay)
    ensures var more := Appended(lines, ps, firstDay);
            forall j, k :: 0 <= j < k < |more| && Recorded(lines, more[k].cost.tx) ==> Recorded(lines, more[j].cost.tx)
  {
    var a, b := LinesOf(lines, ps, firstDay, Restates), LinesOf(lines, ps, firstDay, Records);
    forall k | 0 <= k < |a| ensures Recorded(lines, a[k].cost.tx) {
      LinesStem(lines, ps, firstDay, Restates, k);
      var i :| 0 <= i < |ps| && EffectOn(lines, ps[i], firstDay) == Restates && ps[i].amount.Some?
               && a[k] == LineOf(lines, ps[i]);
      EffectIs(lines, ps[i], firstDay);
    }
    forall k | 0 <= k < |b| ensures !Recorded(lines, b[k].cost.tx) {
      LinesStem(lines, ps, firstDay, Records, k);
      var i :| 0 <= i < |ps| && EffectOn(lines, ps[i], firstDay) == Records && ps[i].amount.Some?
               && b[k] == LineOf(lines, ps[i]);
      EffectIs(lines, ps[i], firstDay);
    }
  }
}
