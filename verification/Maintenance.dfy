/** The end of a scheduled interruption (adapter/ibkr/maintenance.py).

    Instants and days are integers. A window's zone is three functions: the local day of an instant, and the
    instants its start and its end fall on for a given local day; they may be any, even in the wrong order. */
module Maintenance {

  const Day: nat := 86_400
  const Reach: int := 8

  datatype Window = Window(days: set<int>, dayOf: int -> int, begins: int -> int, finishes: int -> int)

  datatype Interval = Interval(start: int, end: int)

  datatype Outcome = NotIn | End(at: int) | NoWeeklyGap

  predicate Contains(iv: Interval, t: int) {
    iv.start <= t < iv.end
  }

  predicate In(ivs: seq<Interval>, t: int) {
    exists iv :: iv in ivs && Contains(iv, t)
  }

  ghost predicate Covered(ivs: seq<Interval>, from: int, to: int) {
    forall t :: from <= t < to ==> In(ivs, t)
  }

  /** [s, e) is the whole stretch of the union around `now`: covered throughout, and every window that is
      not empty lies inside it or is apart from it, not even touching. */
  ghost predicate Component(ivs: seq<Interval>, now: int, s: int, e: int) {
    && s <= now < e
    && Covered(ivs, s, e)
    && forall iv :: iv in ivs && iv.start < iv.end ==> (s <= iv.start && iv.end <= e) || iv.end < s || e < iv.start
  }

  // ----- The candidate windows -----

  ghost predicate OnDay(w: Window, d: int, iv: Interval) {
    d % 7 in w.days && iv == Interval(w.begins(d), w.finishes(d))
  }

  ghost predicate Candidate(ws: seq<Window>, now: int, iv: Interval) {
    exists i, d :: 0 <= i < |ws| && ws[i].dayOf(now) - Reach <= d <= ws[i].dayOf(now) + Reach && OnDay(ws[i], d, iv)
  }

  /** A window of the schedule on any day at all. */
  ghost predicate Scheduled(ws: seq<Window>, iv: Interval) {
    exists i, d :: 0 <= i < |ws| && OnDay(ws[i], d, iv)
  }

  method Candidates(ws: seq<Window>, now: int) returns (ivs: seq<Interval>)
    ensures forall iv :: iv in ivs <==> Candidate(ws, now, iv)
  {
    ivs := [];
    var i := 0;
    while i < |ws|
      invariant 0 <= i <= |ws|
      invariant forall iv :: iv in ivs <==> Candidate(ws[..i], now, iv)
    {
      var more := OneWindow(ws[i], now);
      assert ws[..i + 1][i] == ws[i] && forall j :: 0 <= j < i ==> ws[..i + 1][j] == ws[..i][j];
      OneMore(ws, i, now, ivs, more);
      ivs := ivs + more;
      i := i + 1;
    }
    assert ws[..i] == ws;
  }

  lemma OneMore(ws: seq<Window>, i: nat, now: int, ivs: seq<Interval>, more: seq<Interval>)
    requires i < |ws|
    requires forall iv :: iv in ivs <==> Candidate(ws[..i], now, iv)
    requires forall iv :: iv in more <==> Candidate([ws[i]], now, iv)
    ensures forall iv :: iv in ivs + more <==> Candidate(ws[..i + 1], now, iv)
  {
    var all := ws[..i + 1];
    forall iv | iv in ivs + more ensures Candidate(all, now, iv) {
      if iv in ivs {
        var j, d :| 0 <= j < |ws[..i]| && ws[..i][j].dayOf(now) - Reach <= d <= ws[..i][j].dayOf(now) + Reach
            && OnDay(ws[..i][j], d, iv);
        assert OnDay(all[j], d, iv);
      } else {
        var j, d :| 0 <= j < 1 && [ws[i]][j].dayOf(now) - Reach <= d <= [ws[i]][j].dayOf(now) + Reach
            && OnDay([ws[i]][j], d, iv);
        assert OnDay(all[i], d, iv);
      }
    }
    forall iv | Candidate(all, now, iv) ensures iv in ivs + more {
      var j, d :| 0 <= j < |all| && all[j].dayOf(now) - Reach <= d <= all[j].dayOf(now) + Reach && OnDay(all[j], d, iv);
      if j < i {
        assert OnDay(ws[..i][j], d, iv);
      } else {
        assert OnDay([ws[i]][0], d, iv);
      }
    }
  }

  method OneWindow(w: Window, now: int) returns (ivs: seq<Interval>)
    ensures forall iv :: iv in ivs <==> Candidate([w], now, iv)
  {
    ivs := [];
    var today := w.dayOf(now);
    var offset := -Reach;
    while offset <= Reach
      invariant -Reach <= offset <= Reach + 1
      invariant forall iv :: iv in ivs <==> exists d :: today - Reach <= d < today + offset && OnDay(w, d, iv)
    {
      var day := today + offset;
      if day % 7 in w.days {
        assert OnDay(w, day, Interval(w.begins(day), w.finishes(day)));
        ivs := ivs + [Interval(w.begins(day), w.finishes(day))];
      }
      offset := offset + 1;
    }
    forall iv | iv in ivs ensures Candidate([w], now, iv) {
      var d :| today - Reach <= d <= today + Reach && OnDay(w, d, iv);
      assert OnDay([w][0], d, iv);
    }
  }

  // ----- Sorting and merging -----

  predicate ByStart(ivs: seq<Interval>) {
    forall i, j :: 0 <= i < j < |ivs| ==> ivs[i].start <= ivs[j].start
  }

  predicate Before(a: Interval, b: Interval) {
    a.start < b.start || (a.start == b.start && a.end <= b.end)
  }

  function Inserted(iv: Interval, ivs: seq<Interval>): (r: seq<Interval>)
    requires ByStart(ivs)
    ensures ByStart(r) && forall x :: x in r <==> x == iv || x in ivs
  {
    if ivs == [] || Before(iv, ivs[0]) then [iv] + ivs
    else
      assert forall x :: x in ivs <==> x == ivs[0] || x in ivs[1..];
      var rest := Inserted(iv, ivs[1..]);
      assert forall i :: 0 <= i < |rest| ==> rest[i] in rest;
      [ivs[0]] + rest
  }

  /** The intervals by start, then by end. */
  function InOrder(ivs: seq<Interval>): (r: seq<Interval>)
    ensures ByStart(r) && forall x :: x in r <==> x in ivs
  {
    if ivs == [] then [] else Inserted(ivs[0], InOrder(ivs[1..]))
  }

  ghost predicate Apart(merged: seq<Interval>) {
    forall a, b :: 0 <= a < b < |merged| ==> merged[a].end < merged[b].start
  }

  ghost predicate Holds(merged: seq<Interval>, iv: Interval) {
    exists k :: 0 <= k < |merged| && merged[k].start <= iv.start && iv.end <= merged[k].end
  }

  /** The merge loop: the merged intervals are apart, hold every interval and cover nothing more. */
  method Merge(ivs: seq<Interval>) returns (merged: seq<Interval>)
    requires ByStart(ivs)
    ensures Apart(merged)
    ensures forall iv :: iv in ivs ==> Holds(merged, iv)
    ensures forall k :: 0 <= k < |merged| ==> Covered(ivs, merged[k].start, merged[k].end)
  {
    merged := [];
    var i := 0;
    while i < |ivs|
      invariant 0 <= i <= |ivs|
      invariant Apart(merged)
      invariant merged != [] ==> i > 0 && merged[|merged| - 1].start <= ivs[i - 1].start
      invariant forall j :: 0 <= j < i ==> Holds(merged, ivs[j])
      invariant forall k :: 0 <= k < |merged| ==> Covered(ivs, merged[k].start, merged[k].end)
    {
      ghost var was := merged;
      merged := Take(ivs, i, merged);
      HoldsStill(was, merged, ivs, i);
      i := i + 1;
    }
  }

  /** One interval merged: into the last when it begins by its end, and otherwise put after it. */
  method Take(ivs: seq<Interval>, i: nat, merged: seq<Interval>) returns (merged': seq<Interval>)
    requires i < |ivs| && Apart(merged) && ByStart(ivs)
    requires merged != [] ==> i > 0 && merged[|merged| - 1].start <= ivs[i - 1].start
    requires forall k :: 0 <= k < |merged| ==> Covered(ivs, merged[k].start, merged[k].end)
    ensures Apart(merged') && merged' != [] && merged'[|merged'| - 1].start <= ivs[i].start && Holds(merged', ivs[i])
    ensures forall k :: 0 <= k < |merged'| ==> Covered(ivs, merged'[k].start, merged'[k].end)
    ensures |merged| <= |merged'|
    ensures forall k :: 0 <= k < |merged| ==> merged'[k].start == merged[k].start && merged[k].end <= merged'[k].end
  {
    var iv := ivs[i];
    if merged != [] && iv.start <= merged[|merged| - 1].end {
      var last := merged[|merged| - 1];
      var joined := Interval(last.start, if iv.end > last.end then iv.end else last.end);
      JoinCovers(ivs, last, iv);
      merged' := merged[|merged| - 1 := joined];
    } else {
      assert forall t :: Contains(iv, t) ==> In(ivs, t);
      merged' := merged + [iv];
    }
    assert merged'[|merged'| - 1].start <= iv.start && iv.end <= merged'[|merged'| - 1].end;
  }

  lemma HoldsStill(was: seq<Interval>, merged: seq<Interval>, ivs: seq<Interval>, i: nat)
    requires i <= |ivs| && |was| <= |merged|
    requires forall k :: 0 <= k < |was| ==> merged[k].start == was[k].start && was[k].end <= merged[k].end
    requires forall j :: 0 <= j < i ==> Holds(was, ivs[j])
    ensures forall j :: 0 <= j < i ==> Holds(merged, ivs[j])
  {
    forall j | 0 <= j < i ensures Holds(merged, ivs[j]) {
      assert Holds(was, ivs[j]);
      var k :| 0 <= k < |was| && was[k].start <= ivs[j].start && ivs[j].end <= was[k].end;
      assert merged[k].start <= ivs[j].start && ivs[j].end <= merged[k].end;
    }
  }

  lemma JoinCovers(ivs: seq<Interval>, last: Interval, iv: Interval)
    requires iv in ivs && last.start <= iv.start <= last.end && Covered(ivs, last.start, last.end)
    ensures Covered(ivs, last.start, if iv.end > last.end then iv.end else last.end)
  {
    forall t | last.start <= t < (if iv.end > last.end then iv.end else last.end) ensures In(ivs, t) {
      if t >= last.end {
        assert Contains(iv, t);
      }
    }
  }

  /** window_end: the end of the stretch of the union around now, refused when the stretch is longer than
      eight days, and nothing when no window holds now. */
  method WindowEnd(ws: seq<Window>, now: int) returns (r: Outcome, ivs: seq<Interval>)
    ensures forall iv :: iv in ivs <==> Candidate(ws, now, iv)
    ensures r == NotIn <==> !In(ivs, now)
    ensures r.End? ==> exists s :: Component(ivs, now, s, r.at) && r.at - s <= Reach * Day
    ensures r.NoWeeklyGap? ==> exists s, e :: Component(ivs, now, s, e) && e - s > Reach * Day
  {
    ivs := Candidates(ws, now);
    var sorted := InOrder(ivs);
    var merged := Merge(sorted);
    var k := 0;
    while k < |merged|
      invariant 0 <= k <= |merged|
      invariant forall j :: 0 <= j < k ==> !Contains(merged[j], now)
    {
      var m := merged[k];
      if Contains(m, now) {
        IsComponent(ivs, sorted, merged, k, now);
        if m.end - m.start > Reach * Day {
          return NoWeeklyGap, ivs;
        }
        return End(m.end), ivs;
      }
      k := k + 1;
    }
    assert forall iv :: iv in ivs ==> Holds(merged, iv);
    return NotIn, ivs;
  }

  lemma IsComponent(ivs: seq<Interval>, sorted: seq<Interval>, merged: seq<Interval>, k: nat, now: int)
    requires forall iv :: iv in sorted <==> iv in ivs
    requires k < |merged| && Contains(merged[k], now)
    requires Apart(merged) && forall iv :: iv in sorted ==> Holds(merged, iv)
    requires Covered(sorted, merged[k].start, merged[k].end)
    ensures Component(ivs, now, merged[k].start, merged[k].end) && In(ivs, now)
  {
    var s, e := merged[k].start, merged[k].end;
    assert Covered(ivs, s, e) by {
      forall t | s <= t < e ensures In(ivs, t) {
        assert In(sorted, t);
      }
    }
    assert In(ivs, now);
    forall iv | iv in ivs && iv.start < iv.end
      ensures (s <= iv.start && iv.end <= e) || iv.end < s || e < iv.start
    {
      assert Holds(merged, iv);
      var j :| 0 <= j < |merged| && merged[j].start <= iv.start && iv.end <= merged[j].end;
    }
  }

  /** The stretch around an instant is one: so the two results above exclude each other, and the end
      returned is the end of the union. */
  lemma OneComponent(ivs: seq<Interval>, now: int, s: int, e: int, s': int, e': int)
    requires Component(ivs, now, s, e) && Component(ivs, now, s', e')
    ensures s == s' && e == e'
  {
    if e < e' { NotPast(ivs, now, s, e, s', e'); }
    if e' < e { NotPast(ivs, now, s', e', s, e); }
    if s < s' { NotBefore(ivs, now, s, e, s', e'); }
    if s' < s { NotBefore(ivs, now, s', e', s, e); }
  }

  lemma NotPast(ivs: seq<Interval>, now: int, s: int, e: int, s': int, e': int)
    requires Component(ivs, now, s, e) && Component(ivs, now, s', e')
    ensures e >= e'
  {
    assert e < e' ==> In(ivs, e);
    EndIsOut(ivs, now, s, e);
  }

  lemma NotBefore(ivs: seq<Interval>, now: int, s: int, e: int, s': int, e': int)
    requires Component(ivs, now, s, e) && Component(ivs, now, s', e')
    ensures s >= s'
  {
    assert s < s' ==> In(ivs, s' - 1);
  }

  /** The end is in no window. */
  lemma EndIsOut(ivs: seq<Interval>, now: int, s: int, e: int)
    requires Component(ivs, now, s, e)
    ensures !In(ivs, e)
  {
  }

  // ----- The days looked at are enough -----

  /** A zone whose local days keep pace with the clock to within `slack`: a day to come begins no earlier, and
      a past day's window (which runs into the next day at most) ends no later, than that many whole days from now. */
  ghost predicate KeepsPace(w: Window, now: int, slack: nat) {
    && (forall d :: d > w.dayOf(now) ==> w.begins(d) > now + (d - w.dayOf(now) - 1) * Day - slack)
    && (forall d :: d < w.dayOf(now) ==> w.finishes(d) < now - (w.dayOf(now) - d - 2) * Day + slack)
  }

  /** A window of another day that holds an instant from now to eight days on is that of the day after the last one
      looked at, beginning within `slack` of the eight days. */
  lemma ReachSuffices(ws: seq<Window>, now: int, slack: nat, i: nat, d: int, iv: Interval, t: int)
    requires i < |ws| && slack <= Day && KeepsPace(ws[i], now, slack)
    requires OnDay(ws[i], d, iv) && Contains(iv, t) && now <= t <= now + Reach * Day
    ensures var today := ws[i].dayOf(now);
            || today - Reach <= d <= today + Reach
            || (d == today + Reach + 1 && t > now + Reach * Day - slack)
  {
    var today := ws[i].dayOf(now);
    assert d > today + Reach ==> (d - today - 1) * Day >= Reach * Day;
    assert d > today + Reach + 1 ==> (d - today - 1) * Day >= (Reach + 1) * Day;
    assert d < today - Reach ==> (today - d - 2) * Day >= (Reach - 1) * Day;
  }

  ghost predicate InSchedule(ws: seq<Window>, t: int) {
    exists iv :: Scheduled(ws, iv) && Contains(iv, t)
  }

  /** A window of the first day past those looked at holds t. */
  ghost predicate NextDayHolds(ws: seq<Window>, now: int, t: int) {
    exists i, iv :: 0 <= i < |ws| && OnDay(ws[i], ws[i].dayOf(now) + Reach + 1, iv) && Contains(iv, t)
  }

  /** What a caller is promised of the whole schedule: no result means no window on any day holds now; an end
      means every instant from now to it is in a window, and it is in none, unless it is within `slack` of the eight
      days and a window of the first day not looked at, and of no other, holds it. */
  lemma UnionOfTheSchedule(ws: seq<Window>, now: int, slack: nat, ivs: seq<Interval>)
    requires slack <= Day && forall i :: 0 <= i < |ws| ==> KeepsPace(ws[i], now, slack)
    requires forall iv :: iv in ivs <==> Candidate(ws, now, iv)
    ensures InSchedule(ws, now) <==> In(ivs, now)
    ensures forall s, e :: Component(ivs, now, s, e) ==> forall t :: now <= t < e ==> InSchedule(ws, t)
    ensures forall s, e :: Component(ivs, now, s, e) && e <= now + Reach * Day ==>
              && (InSchedule(ws, e) <==> NextDayHolds(ws, now, e))
              && (InSchedule(ws, e) ==> e > now + Reach * Day - slack)
  {
    LookedAtIsScheduled(ws, now, ivs);
    forall t | now <= t <= now + Reach * Day
      ensures InSchedule(ws, t) <==> In(ivs, t) || NextDayHolds(ws, now, t)
      ensures NextDayHolds(ws, now, t) ==> t > now + Reach * Day - slack
    {
      SameInReach(ws, now, slack, ivs, t);
    }
    forall s, e | Component(ivs, now, s, e) ensures !In(ivs, e) {
      EndIsOut(ivs, now, s, e);
    }
  }

  lemma LookedAtIsScheduled(ws: seq<Window>, now: int, ivs: seq<Interval>)
    requires forall iv :: iv in ivs <==> Candidate(ws, now, iv)
    ensures forall t :: In(ivs, t) ==> InSchedule(ws, t)
  {
    forall t | In(ivs, t) ensures InSchedule(ws, t) {
      var iv :| iv in ivs && Contains(iv, t);
      assert Scheduled(ws, iv);
    }
  }

  lemma SameInReach(ws: seq<Window>, now: int, slack: nat, ivs: seq<Interval>, t: int)
    requires slack <= Day && forall i :: 0 <= i < |ws| ==> KeepsPace(ws[i], now, slack)
    requires forall iv :: iv in ivs <==> Candidate(ws, now, iv)
    requires now <= t <= now + Reach * Day
    ensures InSchedule(ws, t) <==> In(ivs, t) || NextDayHolds(ws, now, t)
    ensures NextDayHolds(ws, now, t) ==> t > now + Reach * Day - slack
  {
    LookedAtIsScheduled(ws, now, ivs);
    if InSchedule(ws, t) {
      var iv :| Scheduled(ws, iv) && Contains(iv, t);
      var i, d :| 0 <= i < |ws| && OnDay(ws[i], d, iv);
      ReachSuffices(ws, now, slack, i, d, iv, t);
    }
    if NextDayHolds(ws, now, t) {
      var i, iv :| 0 <= i < |ws| && OnDay(ws[i], ws[i].dayOf(now) + Reach + 1, iv) && Contains(iv, t);
      assert Scheduled(ws, iv);
      ReachSuffices(ws, now, slack, i, ws[i].dayOf(now) + Reach + 1, iv, t);
    }
  }
}
