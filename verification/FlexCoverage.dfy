/** The days a ledger's readings cover (adapter/ibkr/flex.py). */
module FlexCoverage {
  import opened Wrappers

  /** A statement's first and last day. */
  datatype Period = Period(from: int, to: int)

  datatype Coverage = Coverage(from: int, coveredTo: int)

  /** Where a reading stops: nowhere, before its ledger is written, or between that and the days it covers. */
  datatype Stop = AtTheEnd | BeforeTheLedger | BetweenTheWrites

  /** _check_coverage, with the session before the last one before today: no gap at either end. */
  predicate NoGap(p: Period, coverage: Option<Coverage>, approvalDay: int, earliest: int) {
    p.to >= earliest && p.from <= if coverage.None? then approvalDay else coverage.value.coveredTo + 1
  }

  /** _covered_to: the day before the statement's last, never earlier than the days covered before. */
  function CoveredTo(p: Period, coverage: Option<Coverage>): int {
    if coverage.Some? && coverage.value.coveredTo > p.to - 1 then coverage.value.coveredTo else p.to - 1
  }

  ghost predicate Covers(ps: seq<Period>, d: int) {
    exists k :: 0 <= k < |ps| && ps[k].from <= d < ps[k].to
  }

  /** Every day from the approval's to the last covered is in an accepted statement, before its last day. */
  ghost predicate NoDayMissing(ps: seq<Period>, coverage: Option<Coverage>, approvalDay: int) {
    coverage.Some? ==> forall d :: approvalDay <= d <= coverage.value.coveredTo ==> Covers(ps, d)
  }

  lemma CoversMore(ps: seq<Period>, p: Period)
    ensures forall d :: Covers(ps, d) ==> Covers(ps + [p], d)
    ensures forall d :: p.from <= d < p.to ==> Covers(ps + [p], d)
  {
    var all := ps + [p];
    forall d | Covers(ps, d) ensures Covers(all, d) {
      var k :| 0 <= k < |ps| && ps[k].from <= d < ps[k].to;
      assert all[k] == ps[k];
    }
    assert all[|ps|] == p;
  }

  /** A statement accepted without a gap keeps every day, before its days are recorded and after. */
  lemma CoverageKept(ps: seq<Period>, coverage: Option<Coverage>, approvalDay: int, earliest: int, p: Period)
    requires NoDayMissing(ps, coverage, approvalDay) && NoGap(p, coverage, approvalDay, earliest)
    ensures NoDayMissing(ps + [p], coverage, approvalDay)
    ensures NoDayMissing(ps + [p], Some(Coverage(p.from, CoveredTo(p, coverage))), approvalDay)
  {
    CoversMore(ps, p);
  }

  /** A day not known to be covered: from the approval's on, or after the days covered. */
  ghost predicate Open(coverage: Option<Coverage>, approvalDay: int, d: int) {
    if coverage.None? then approvalDay <= d else coverage.value.coveredTo < d
  }

  /** A current statement is refused exactly when some such day comes before its first; one accepted covers every day of
      its own but the last, and opens none covered before. */
  lemma GapIsADay(p: Period, coverage: Option<Coverage>, approvalDay: int, earliest: int)
    ensures NoGap(p, coverage, approvalDay, earliest) <==>
              earliest <= p.to && forall d :: Open(coverage, approvalDay, d) ==> p.from <= d
    ensures forall d :: Open(Some(Coverage(p.from, CoveredTo(p, coverage))), approvalDay, d) <==>
                          p.to <= d && (coverage.Some? ==> Open(coverage, approvalDay, d))
  {
    assert Open(coverage, approvalDay, if coverage.None? then approvalDay else coverage.value.coveredTo + 1);
  }
}
