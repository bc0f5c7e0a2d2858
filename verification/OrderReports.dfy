/** What a status and a rejection put in the log, in terms of what the log last said of the order
    (adapter/ibkr/orders.py:343-412). */
module OrderReports {
  import opened Wrappers
  import opened OrderTracker

  /** IBKR's word is not known, or is Inactive and no rejection of the order explains it. */
  ghost predicate Unexplained(known: Known, k: Key, word: Word) {
    word == Unrecognised || (word == Inactive && k !in known.rejections)
  }

  /** The report says what the status does: its word and figures, the stage of the word, the order's own name, and
      IBKR's reason where the word is Inactive. */
  ghost predicate Says(report: Report, known: Known, k: Key, word: Word, figures: int) {
    && report.word == Some(word) && report.figures == Some(figures)
    && report.lifecycle == (if word == Inactive then Some("invalid") else if word.Stage? then word.lifecycle else None)
    && (forall name :: report.clientOrder == Some(name) <==> k in known.clientIds && known.clientIds[k] == Some(name))
    && (forall why :: report.why == Some(why) <==>
          word == Inactive && k in known.rejections && known.rejections[k] == why)
  }

  /** The log's last word on the order is the same report, or an invalidity as this one is. */
  ghost predicate SaidAlready(log: seq<Entry>, k: Key, report: Report) {
    exists i :: LastAt(log, k, i)
        && (log[i].report == report || (log[i].report.lifecycle == Some("invalid") == report.lifecycle))
  }

  /** What a report leaves of the log: nothing more where it is said already or the sink takes no more. */
  ghost predicate Emitted(log: seq<Entry>, k: Key, report: Report, arrival: Option<nat>, accepts: nat, r: Sunk) {
    if SaidAlready(log, k, report) then r.ok && r.log == log && r.left == accepts
    else if accepts == 0 then !r.ok && r.log == log && r.left == 0
    else r.ok && r.log == log + [Reported(k, report, arrival)] && r.left == accepts - 1
  }

  lemma EmitResult(log: seq<Entry>, last: map<Key, Report>, k: Key, report: Report, arrival: Option<nat>, accepts: nat)
    requires SeenReports(log, last)
    ensures var r := EmitTo(log, last, k, report, arrival, accepts);
            Emitted(log, k, report, arrival, accepts, r) && SeenReports(r.log, r.last)
  {
    SaidIs(log, last, k, report);
    if !SaidAlready(log, k, report) {
      SeenMore(log, last, k, report, arrival);
    }
  }

  lemma SaidIs(log: seq<Entry>, last: map<Key, Report>, k: Key, report: Report)
    requires SeenReports(log, last)
    ensures SaidAlready(log, k, report) <==> Repeats(last, k, report)
  {
    LastOfIs(log, k);
    if SaidAlready(log, k, report) {
      var i :| LastAt(log, k, i)
               && (log[i].report == report || (log[i].report.lifecycle == Some("invalid") == report.lifecycle));
      var j :| LastAt(log, k, j) && LastOf(log, k) == Some(log[j].report);
      OneLastAt(log, k, i, j);
    }
  }

  lemma SeenMore(log: seq<Entry>, last: map<Key, Report>, k: Key, report: Report, arrival: Option<nat>)
    requires SeenReports(log, last) && !Repeats(last, k, report)
    ensures SeenReports(log + [Reported(k, report, arrival)], last[k := report])
  {
    var e := Reported(k, report, arrival);
    LastAppended(log, e);
    CollapsedMore(log, e);
  }

  /** A status recorded: its report, the one way the log can end where it went through. */
  lemma StatusResult(log: seq<Entry>, last: map<Key, Report>, known: Known, k: Key, s: Status, accepts: nat)
    requires SeenReports(log, last)
    ensures var r := StatusTo(log, last, known, k, s, accepts);
            if Unexplained(known, k, s.word) then !r.ok && r.log == log && r.last == last && r.left == accepts
            else
              && SeenReports(r.log, r.last)
              && exists report :: Says(report, known, k, s.word, s.figures)
                                  && Emitted(log, k, report, Some(s.arrival), accepts, r)
  {
    if !Unexplained(known, k, s.word) {
      var report := ReportOf(known, k, s).value;
      EmitResult(log, last, k, report, Some(s.arrival), accepts);
      assert Says(report, known, k, s.word, s.figures);
    }
  }

  // ----- A queue released -----

  /** The log tells a status: some report of the order says it, or says as it does that the order is invalid. */
  ghost predicate Told(log: seq<Entry>, known: Known, k: Key, s: Status) {
    exists i :: 0 <= i < |log| && Of(log[i], k) && TellsOf(log[i].report, known, k, s)
  }

  ghost predicate TellsOf(report: Report, known: Known, k: Key, s: Status) {
    || Says(report, known, k, s.word, s.figures)
    || (report.lifecycle == Some("invalid")
        && (s.word == Inactive || (s.word.Stage? && s.word.lifecycle == Some("invalid"))))
  }

  lemma ToldMore(log: seq<Entry>, more: seq<Entry>, known: Known, k: Key, s: Status)
    requires Told(log, known, k, s)
    ensures Told(log + more, known, k, s)
  {
    var i :| 0 <= i < |log| && Of(log[i], k) && TellsOf(log[i].report, known, k, s);
    assert (log + more)[i] == log[i];
  }

  lemma StatusTold(log: seq<Entry>, last: map<Key, Report>, known: Known, k: Key, s: Status, accepts: nat)
    requires SeenReports(log, last) && StatusTo(log, last, known, k, s, accepts).ok
    ensures var r := StatusTo(log, last, known, k, s, accepts); log <= r.log && Told(r.log, known, k, s)
  {
    var r := StatusTo(log, last, known, k, s, accepts);
    StatusResult(log, last, known, k, s, accepts);
    var report :| Says(report, known, k, s.word, s.figures) && Emitted(log, k, report, Some(s.arrival), accepts, r);
    if SaidAlready(log, k, report) {
      var i :| LastAt(log, k, i)
               && (log[i].report == report || (log[i].report.lifecycle == Some("invalid") == report.lifecycle));
      assert TellsOf(log[i].report, known, k, s);
    } else {
      assert r.log[|log|] == Reported(k, report, Some(s.arrival));
      assert TellsOf(r.log[|log|].report, known, k, s);
    }
  }

  lemma StatusStops(log: seq<Entry>, last: map<Key, Report>, known: Known, k: Key, s: Status, accepts: nat)
    requires SeenReports(log, last)
    ensures var r := StatusTo(log, last, known, k, s, accepts);
            if r.ok then SeenReports(r.log, r.last)
            else r.log == log && (Unexplained(known, k, s.word) || r.left == 0)
  {
    StatusResult(log, last, known, k, s, accepts);
  }

  /** What is left of a queue whose statuses before that are told; nothing is left unless the first of it cannot be. */
  ghost predicate LeftOf(log: seq<Entry>, known: Known, k: Key, queue: seq<Status>, rest: seq<Status>) {
    && |rest| <= |queue| && rest == queue[|queue| - |rest|..]
    && forall i :: 0 <= i < |queue| - |rest| ==> Told(log, known, k, queue[i])
  }

  /** The queue's statuses told in order, up to the first that is not: one whose word is unexplained, or one the
      sink, full, would have had to take; it and all behind it stay held. */
  lemma {:induction false} ReleaseResult(log: seq<Entry>, last: map<Key, Report>, known: Known, k: Key,
                                         queue: seq<Status>, accepts: nat)
    requires SeenReports(log, last)
    ensures var (r, rest) := ReleaseTo(log, last, known, k, queue, accepts);
            && log <= r.log && LeftOf(r.log, known, k, queue, rest) && (r.ok <==> rest == [])
            && (!r.ok ==> Unexplained(known, k, rest[0].word) || r.left == 0)
    decreases |queue|
  {
    if queue != [] {
      var r := StatusTo(log, last, known, k, queue[0], accepts);
      StatusStops(log, last, known, k, queue[0], accepts);
      if r.ok {
        StatusTold(log, last, known, k, queue[0], accepts);
        ReleaseResult(r.log, r.last, known, k, queue[1..], r.left);
        var (all, rest) := ReleaseTo(r.log, r.last, known, k, queue[1..], r.left);
        assert all.log == r.log + all.log[|r.log|..];
        ToldMore(r.log, all.log[|r.log|..], known, k, queue[0]);
        OneMoreTold(all.log, known, k, queue, rest);
      } else {
        assert queue[0..] == queue;
      }
    }
  }

  lemma OneMoreTold(log: seq<Entry>, known: Known, k: Key, queue: seq<Status>, rest: seq<Status>)
    requires queue != [] && Told(log, known, k, queue[0])
    requires LeftOf(log, known, k, queue[1..], rest)
    ensures LeftOf(log, known, k, queue, rest)
  {
    forall i | 0 <= i < |queue| - |rest| ensures Told(log, known, k, queue[i]) {
      assert i > 0 ==> queue[i] == queue[1..][i - 1];
    }
  }

  // ----- A rejection -----

  /** A rejection's report: invalid for IBKR's reason, of no status, with the figures the log last gave for the
      order. */
  lemma RejectionSays(log: seq<Entry>, last: map<Key, Report>, clientIds: map<Key, Option<string>>, k: Key,
                      rejection: Rejection)
    requires SeenReports(log, last)
    ensures var report := RejectionReport(last, clientIds, k, rejection);
            && report.word == None && report.lifecycle == Some("invalid") && report.why == Some(rejection)
            && (forall name :: report.clientOrder == Some(name) <==> k in clientIds && clientIds[k] == Some(name))
            && (forall figures :: report.figures == Some(figures) <==>
                  exists i :: LastAt(log, k, i) && log[i].report.figures == Some(figures))
  {
    LastOfIs(log, k);
    if LastOf(log, k).Some? {
      var j :| LastAt(log, k, j) && LastOf(log, k) == Some(log[j].report);
      forall i | LastAt(log, k, i) ensures i == j {
        OneLastAt(log, k, i, j);
      }
    }
  }
}
