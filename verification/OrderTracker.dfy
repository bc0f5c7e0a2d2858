/** One account's order callbacks as records, with a sink that may fail (adapter/ibkr/orders.py).

    The log is what the sink accepted, in order. Each status carries the history's own number of its arrival,
    which the tracker does not read. `accepts` is how many more records the sink takes before it raises, so a
    call with every value of it is a call with every failure; a handler that raises returns false. */
module OrderTracker {
  import opened Wrappers

  /** An order's identity: the client and order ID that placed it, or IBKR's permanent ID. */
  datatype Key = Key(client: int, order: int, perm: int)

  /** What IBKR's status word says: a stage of the order's life, the ambiguous Inactive, or a word not known. */
  datatype Word = Stage(name: string, lifecycle: Option<string>) | Inactive | Unrecognised

  datatype Status = Status(arrival: nat, word: Word, figures: int)

  datatype Rejection = Rejection(code: int, message: string)

  datatype Report = Report(word: Option<Word>, lifecycle: Option<string>, figures: Option<int>,
                           clientOrder: Option<string>, why: Option<Rejection>)

  /** What the sink accepted; a rejection's report answers no status. */
  datatype Entry =
    | Opened(key: Key)
    | Reported(key: Key, report: Report, arrival: Option<nat>)
    | Executed(exec: string)
    | Charged(exec: string)

  const Invalid: Option<string> := Some("invalid")

  datatype ErrorCode = Rejects | RejectsPlacement | Notice

  // ----- What the log must show -----

  predicate Of(e: Entry, k: Key) {
    e.Reported? && e.key == k
  }

  /** The last report the sink accepted for an order. */
  function LastOf(log: seq<Entry>, k: Key): Option<Report> {
    if log == [] then None
    else
      var e := log[|log| - 1];
      if Of(e, k) then Some(e.report) else LastOf(log[..|log| - 1], k)
  }

  /** Each order's statuses are recorded in the order they arrived. */
  ghost predicate InArrivalOrder(log: seq<Entry>) {
    forall i, j :: 0 <= i < j < |log| && log[i].Reported? && log[j].Reported? && log[i].key == log[j].key
                   && log[i].arrival.Some? && log[j].arrival.Some?
      ==> log[i].arrival.value < log[j].arrival.value
  }

  /** No status of the order at or after `from` is recorded. */
  ghost predicate NoneFrom(log: seq<Entry>, k: Key, from: nat) {
    forall i :: 0 <= i < |log| && Of(log[i], k) && log[i].arrival.Some? ==> log[i].arrival.value < from
  }

  ghost predicate Queue(held: seq<Status>, next: nat) {
    && held != []
    && (forall i :: 0 <= i < |held| ==> held[i].arrival < next)
    && (forall i, j :: 0 <= i < j < |held| ==> held[i].arrival < held[j].arrival)
  }

  ghost predicate Once(log: seq<Entry>) {
    forall i, j :: 0 <= i < j < |log| && !log[i].Reported? && !log[i].Opened? ==> log[i] != log[j]
  }

  ghost predicate ChargedAfter(log: seq<Entry>) {
    forall j :: 0 <= j < |log| && log[j].Charged? ==> exists i :: 0 <= i < j && log[i] == Executed(log[j].exec)
  }

  lemma LastAppended(log: seq<Entry>, e: Entry)
    ensures forall k :: LastOf(log + [e], k) == if Of(e, k) then Some(e.report) else LastOf(log, k)
  {
    assert (log + [e])[..|log|] == log;
  }

  lemma NoneAppended(log: seq<Entry>, e: Entry, k: Key, from: nat)
    ensures NoneFrom(log + [e], k, from) <==>
            NoneFrom(log, k, from) && (Of(e, k) && e.arrival.Some? ==> e.arrival.value < from)
  {
    var all := log + [e];
    assert all[|log|] == e && forall i :: 0 <= i < |log| ==> all[i] == log[i];
  }

  /** Statuses are recorded in arrival order, and one that is held is behind none recorded: all of an order's
      recorded statuses arrived before every one it holds. */
  ghost predicate Ordered(log: seq<Entry>, held: map<Key, seq<Status>>, next: nat) {
    && InArrivalOrder(log)
    && (forall k :: NoneFrom(log, k, next))
    && (forall k :: k in held ==> Queue(held[k], next) && NoneFrom(log, k, held[k][0].arrival))
  }

  /** Two reports of an order with none of it between. */
  ghost predicate Neighbours(log: seq<Entry>, i: int, j: int) {
    && 0 <= i < j < |log| && log[i].Reported? && Of(log[j], log[i].key)
    && forall m :: i < m < j ==> !Of(log[m], log[i].key)
  }

  /** Nothing is said of an order twice in a row. */
  ghost predicate Collapsed(log: seq<Entry>) {
    forall i, j :: Neighbours(log, i, j) ==>
        && log[i].report != log[j].report
        && !(log[i].report.lifecycle == Some("invalid") && log[j].report.lifecycle == Some("invalid"))
  }

  /** A report counts as seen exactly when the sink accepted it, and no repeat of the last one is accepted. */
  ghost predicate SeenReports(log: seq<Entry>, last: map<Key, Report>) {
    (forall k :: LastOf(log, k) == if k in last then Some(last[k]) else None) && Collapsed(log)
  }

  /** A report of the order with none of it after. */
  ghost predicate LastAt(log: seq<Entry>, k: Key, i: int) {
    0 <= i < |log| && Of(log[i], k) && forall m :: i < m < |log| ==> !Of(log[m], k)
  }

  lemma OneLastAt(log: seq<Entry>, k: Key, i: int, j: int)
    requires LastAt(log, k, i) && LastAt(log, k, j)
    ensures i == j
  {
    assert !(i < j) && !(j < i);
  }

  lemma {:induction false} LastOfIs(log: seq<Entry>, k: Key)
    ensures match LastOf(log, k)
            case None => forall i :: 0 <= i < |log| ==> !Of(log[i], k)
            case Some(report) => exists i :: LastAt(log, k, i) && log[i].report == report
  {
    if log != [] {
      var n := |log| - 1;
      if Of(log[n], k) {
        assert LastAt(log, k, n);
      } else {
        var rest := log[..n];
        LastOfIs(rest, k);
        assert forall i :: 0 <= i < n ==> rest[i] == log[i];
        if LastOf(rest, k).Some? {
          var i :| LastAt(rest, k, i) && rest[i].report == LastOf(rest, k).value;
          assert LastAt(log, k, i);
        }
      }
    }
  }

  lemma NeighboursBefore(log: seq<Entry>, e: Entry, i: int, j: int)
    requires Neighbours(log + [e], i, j)
    ensures j < |log| ==> Neighbours(log, i, j)
    ensures j == |log| ==> e.Reported? && Of(log[i], e.key) && LastOf(log, e.key) == Some(log[i].report)
  {
    var all := log + [e];
    assert forall m :: 0 <= m < |log| ==> all[m] == log[m];
    if j == |log| {
      LastOfIs(log, e.key);
      var m :| LastAt(log, e.key, m) && LastOf(log, e.key) == Some(log[m].report);
      assert LastAt(log, e.key, i);
      OneLastAt(log, e.key, i, m);
    }
  }

  /** A record taken that is no repeat of the last report of its order. */
  lemma CollapsedMore(log: seq<Entry>, e: Entry)
    requires Collapsed(log)
    requires e.Reported? && LastOf(log, e.key).Some? ==>
               && LastOf(log, e.key).value != e.report
               && !(LastOf(log, e.key).value.lifecycle == Invalid && e.report.lifecycle == Invalid)
    ensures Collapsed(log + [e])
  {
    var all := log + [e];
    forall i, j | Neighbours(all, i, j)
      ensures all[i].report != all[j].report
              && !(all[i].report.lifecycle == Some("invalid") && all[j].report.lifecycle == Some("invalid"))
    {
      NeighboursBefore(log, e, i, j);
      assert all[i] == log[i];
      assert j < |log| ==> all[j] == log[j];
    }
  }

  ghost predicate SeenOnce(log: seq<Entry>, executions: set<string>, commissions: set<string>) {
    && (forall x :: x in executions <==> Executed(x) in log)
    && (forall x :: x in commissions <==> Charged(x) in log)
    && Once(log) && ChargedAfter(log)
  }

  // ----- What each step hands the sink -----

  /** What a step leaves: whether it went through, what the sink has taken, what counts as seen, and how many more
      records the sink takes. */
  datatype Sunk = Sunk(ok: bool, log: seq<Entry>, last: map<Key, Report>, left: nat)

  /** A report not worth recording: the one seen last again, or a second invalidity. */
  predicate Repeats(last: map<Key, Report>, k: Key, report: Report) {
    k in last && (last[k] == report || (last[k].lifecycle == Invalid && report.lifecycle == Invalid))
  }

  function EmitTo(log: seq<Entry>, last: map<Key, Report>, k: Key, report: Report, arrival: Option<nat>,
                  accepts: nat): Sunk {
    if Repeats(last, k, report) then Sunk(true, log, last, accepts)
    else if accepts == 0 then Sunk(false, log, last, accepts)
    else Sunk(true, log + [Reported(k, report, arrival)], last[k := report], accepts - 1)
  }

  /** What the tracker knows of orders when it reports one. */
  datatype Known = Known(clientIds: map<Key, Option<string>>, rejections: map<Key, Rejection>)

  /** A status's report; none where its word is not known, or is Inactive with no rejection to explain it. */
  function ReportOf(known: Known, k: Key, s: Status): Option<Report> {
    var clientOrder := if k in known.clientIds then known.clientIds[k] else None;
    match s.word
    case Stage(_, lifecycle) => Some(Report(Some(s.word), lifecycle, Some(s.figures), clientOrder, None))
    case Inactive =>
      if k in known.rejections then Some(Report(Some(s.word), Invalid, Some(s.figures), clientOrder,
          Some(known.rejections[k]))) else None
    case Unrecognised => None
  }

  function StatusTo(log: seq<Entry>, last: map<Key, Report>, known: Known, k: Key, s: Status, accepts: nat): Sunk {
    var report := ReportOf(known, k, s);
    if report.None? then Sunk(false, log, last, accepts)
        else EmitTo(log, last, k, report.value, Some(s.arrival), accepts)
  }

  /** The report of IBKR's rejection, with the figures last seen. */
  function RejectionReport(last: map<Key, Report>, clientIds: map<Key, Option<string>>, k: Key,
                           rejection: Rejection): Report {
    Report(None, Invalid, if k in last then last[k].figures else None, if k in clientIds then clientIds[k]
        else None, Some(rejection))
  }

  /** The statuses of a queue recorded in order up to the first that fails, and the queue from that one on. */
  function ReleaseTo(log: seq<Entry>, last: map<Key, Report>, known: Known, k: Key, queue: seq<Status>,
                     accepts: nat): (Sunk, seq<Status>)
    decreases |queue|
  {
    if queue == [] then (Sunk(true, log, last, accepts), [])
    else
      var r := StatusTo(log, last, known, k, queue[0], accepts);
      if !r.ok then (r, queue) else ReleaseTo(r.log, r.last, known, k, queue[1..], r.left)
  }

  function QueueOf(held: map<Key, seq<Status>>, k: Key): seq<Status> {
    if k in held then held[k] else []
  }

  function WithQueue(held: map<Key, seq<Status>>, k: Key, queue: seq<Status>): map<Key, seq<Status>> {
    if queue == [] then held - {k} else held[k := queue]
  }

  lemma QueueBack(held: map<Key, seq<Status>>, k: Key)
    requires k in held ==> held[k] != []
    ensures WithQueue(held, k, QueueOf(held, k)) == held
  {
    if k in held {
      assert held[k := held[k]] == held;
    } else {
      assert held - {k} == held;
    }
  }

  lemma QueueTwice(held: map<Key, seq<Status>>, k: Key, q: seq<Status>, queue: seq<Status>)
    ensures WithQueue(WithQueue(held, k, q), k, queue) == WithQueue(held, k, queue)
    ensures QueueOf(WithQueue(held, k, queue), k) == queue
    ensures k in WithQueue(held, k, queue) <==> queue != []
  {
    assert held[k := q] - {k} == held - {k};
    assert (held - {k})[k := queue] == held[k := queue];
  }

  /** The statuses behind the one recorded, held again. */
  lemma PutBack(log: seq<Entry>, held: map<Key, seq<Status>>, next: nat, k: Key)
    requires k in held && Queue(held[k], next) && |held[k]| > 1
    requires Ordered(log, held - {k}, next) && NoneFrom(log, k, held[k][1].arrival)
    ensures Ordered(log, held[k := held[k][1..]], next)
  {
    var held' := held[k := held[k][1..]];
    forall x | x in held' ensures Queue(held'[x], next) && NoneFrom(log, x, held'[x][0].arrival) {
      if x != k { assert x in held - {k}; }
    }
  }

  class Tracker {
    var clientIds: map<Key, Option<string>>
    var foreign: set<Key>
    var held: map<Key, seq<Status>>
    var last: map<Key, Report>
    var rejections: map<Key, Rejection>
    var executions: set<string>
    var commissions: set<string>
    var placed: set<Key>
    ghost var log: seq<Entry>
    var next: nat

    ghost predicate Valid()
      reads this
    {
      && Ordered(log, held, next) && SeenReports(log, last) && SeenOnce(log, executions, commissions)
      && forall k :: k in foreign ==> k !in held
    }

    constructor ()
      ensures Valid() && log == []
    {
      clientIds, foreign, held, last, rejections := map[], {}, map[], map[], map[];
      executions, commissions, placed, log, next := {}, {}, {}, [], 0;
    }

    method Placed(k: Key)
      requires Valid()
      modifies this`placed
      ensures Valid() && placed == old(placed) + {k}
    {
      placed := placed + {k};
    }

    /** _emit: a repeat of the last report, or a second invalidity, is collapsed; anything else is seen once the
        sink has taken it. */
    method Emit(k: Key, report: Report, ghost arrival: Option<nat>, accepts: nat) returns (ok: bool, left: nat)
      requires Valid()
      requires arrival.Some? ==> arrival.value < next && NoneFrom(log, k, arrival.value)
      requires arrival.Some? && k in held ==> held[k][0].arrival == arrival.value
      modifies this`last, this`log
      ensures SeenReports(log, last) && SeenOnce(log, executions, commissions)
      ensures Ordered(log, if arrival.Some? then held - {k} else held, next)
      ensures arrival.Some? ==> NoneFrom(log, k, arrival.value + 1)
      ensures Sunk(ok, log, last, left) == EmitTo(old(log), old(last), k, report, arrival, accepts)
    {
      left := accepts;
      if k in last {
        if report.lifecycle == Invalid && last[k].lifecycle == Invalid {
          return true, left;
        }
        if report == last[k] {
          return true, left;
        }
      }
      if accepts == 0 {
        return false, left;
      }
      ghost var e := Reported(k, report, arrival);
      LastAppended(log, e);
      CollapsedMore(log, e);
      ReportOrdered(log, held, next, e);
      NotOnce(log, executions, commissions, e);
      log := log + [Reported(k, report, arrival)];
      last := last[k := report];
      return true, accepts - 1;
    }

    /** _status: its report, unless its word is not known, or is Inactive with no rejection to explain it. */
    method RecordStatus(k: Key, s: Status, accepts: nat) returns (ok: bool, left: nat)
      requires Valid()
      requires s.arrival < next && NoneFrom(log, k, s.arrival)
      requires k in held ==> held[k][0] == s
      modifies this`last, this`log
      ensures SeenReports(log, last) && SeenOnce(log, executions, commissions)
      ensures Ordered(log, held - {k}, next) && NoneFrom(log, k, s.arrival + 1)
      ensures Sunk(ok, log, last, left) == StatusTo(old(log), old(last), Known(clientIds, rejections), k, s, accepts)
    {
      var lifecycle, why;
      match s.word {
        case Stage(_, stage) => lifecycle, why := stage, None;
        case Inactive =>
          if k !in rejections {
            return false, accepts;
          }
          lifecycle, why := Invalid, Some(rejections[k]);
        case Unrecognised =>
          return false, accepts;
      }
      var clientOrder := if k in clientIds then clientIds[k] else None;
      ok, left := Emit(k, Report(Some(s.word), lifecycle, Some(s.figures), clientOrder, why), Some(s.arrival), accepts);
    }

    /** _release: the held statuses in arrival order, each leaving the hold once it is recorded, so that a failure
        keeps it and all behind it. */
    method Release(k: Key, accepts: nat) returns (ok: bool, left: nat)
      requires Valid()
      modifies this`held, this`last, this`log
      ensures Valid()
      ensures var (r, rest) := ReleaseTo(old(log), old(last), Known(clientIds, rejections), k, QueueOf(old(held), k),
              accepts);
              Sunk(ok, log, last, left) == r && held == WithQueue(old(held), k, rest)
      ensures ok <==> k !in held
    {
      left := accepts;
      ghost var known := Known(clientIds, rejections);
      ghost var all := ReleaseTo(log, last, known, k, QueueOf(held, k), accepts);
      ghost var queue := QueueOf(held, k);
      QueueBack(held, k);
      while k in held
        invariant Valid() && queue == QueueOf(held, k) && held == WithQueue(old(held), k, queue)
        invariant ReleaseTo(log, last, known, k, queue, left) == all
        decreases |queue|
      {
        ok, left := ReleaseFirst(k, left);
        if !ok {
          return;
        }
        QueueTwice(old(held), k, queue, queue[1..]);
        queue := queue[1..];
      }
      ok := true;
    }

    /** One step of the release. */
    method ReleaseFirst(k: Key, accepts: nat) returns (ok: bool, left: nat)
      requires Valid() && k in held && held[k] != []
      modifies this`held, this`last, this`log
      ensures Valid()
      ensures Sunk(ok, log, last, left) ==
              StatusTo(old(log), old(last), Known(clientIds, rejections), k, old(held)[k][0], accepts)
      ensures held == if !ok then old(held) else WithQueue(old(held), k, old(held)[k][1..])
    {
      var s := held[k][0];
      ok, left := RecordStatus(k, s, accepts);
      if ok {
        if |held[k]| > 1 {
          NoneLater(log, k, s.arrival + 1, held[k][1].arrival);
          PutBack(log, held, next, k);
        }
        held := WithQueue(held, k, held[k][1..]);
      }
    }

    /** _on_open_order: another account's order is foreign and its held statuses are dropped; ours is recorded and
        releases them. */
    method OnOpenOrder(k: Key, ours: bool, named: bool, clientOrder: Option<string>, accepts: nat) returns (ok: bool)
      requires Valid()
      modifies this
      ensures Valid() && rejections == old(rejections)
              && foreign == (if !ours && named then old(foreign) + {k} else old(foreign))
      ensures !ours ==> && ok && log == old(log) && last == old(last) && clientIds == old(clientIds)
                        && held == if named then old(held) - {k} else old(held)
      ensures ours && accepts == 0 ==>
                && !ok && log == old(log) && last == old(last) && held == old(held)
                && clientIds == old(clientIds)
      ensures ours && accepts > 0 ==>
                && clientIds == old(clientIds)[k := clientOrder]
                && var (r, rest) := ReleaseTo(old(log) + [Opened(k)], old(last), Known(clientIds, rejections), k,
                     QueueOf(old(held), k), accepts - 1);
                   ok == r.ok && log == r.log && last == r.last && held == WithQueue(old(held), k, rest)
    {
      if !ours {
        if named {
          foreign := foreign + {k};
          held := held - {k};
        }
        return true;
      }
      if accepts == 0 {
        return false;
      }
      ok := OpenOurs(k, clientOrder, accepts - 1);
    }

    /** An order of this account: its record, then the statuses held for it. */
    method OpenOurs(k: Key, clientOrder: Option<string>, accepts: nat) returns (ok: bool)
      requires Valid()
      modifies this`log, this`clientIds, this`held, this`last
      ensures Valid() && clientIds == old(clientIds)[k := clientOrder]
      ensures var (r, rest) := ReleaseTo(old(log) + [Opened(k)], old(last), Known(clientIds, rejections), k,
              QueueOf(old(held), k), accepts);
              ok == r.ok && log == r.log && last == r.last && held == WithQueue(old(held), k, rest)
    {
      RecordOther(Opened(k));
      clientIds := clientIds[k := clientOrder];
      var left;
      ok, left := Release(k, accepts);
    }

    /** A record that is no status report, taken by the sink. */
    ghost method RecordOther(e: Entry)
      requires Valid() && e.Opened?
      modifies this`log
      ensures Valid() && log == old(log) + [e]
    {
      OtherAppended(log, e);
      CollapsedMore(log, e);
      OtherOrdered(log, held, next, e);
      NotOnce(log, executions, commissions, e);
      log := log + [e];
    }

    /** _on_order_status: behind any status still held, or held until the owner is known; recorded at once else. */
    method OnOrderStatus(k: Key, word: Word, figures: int, accepts: nat) returns (ok: bool)
      requires Valid()
      modifies this
      ensures Valid() && next == old(next) + 1
      ensures clientIds == old(clientIds) && rejections == old(rejections) && foreign == old(foreign)
      ensures var s, known := Status(old(next), word, figures), Known(clientIds, rejections);
              var queue := QueueOf(old(held), k) + [s];
              if k in foreign then ok && log == old(log) && last == old(last) && held == old(held)
              else if k !in clientIds && k !in rejections
                  then ok && log == old(log) && last == old(last) && held == old(held)[k := queue]
              else if k in old(held) then
                var (r, rest) := ReleaseTo(old(log), old(last), known, k, queue, accepts);
                ok == r.ok && log == r.log && last == r.last && held == WithQueue(old(held), k, rest)
              else
                var r := StatusTo(old(log), old(last), known, k, s, accepts);
                ok == r.ok && log == r.log && last == r.last && held == old(held)
    {
      var s := Status(next, word, figures);
      Arrives();
      if k in foreign {
        return true;
      }
      var ownerKnown := k in clientIds || k in rejections;
      if k in held || !ownerKnown {
        ok := HoldBehind(k, s, ownerKnown, accepts);
        return;
      }
      var left;
      ok, left := RecordStatus(k, s, accepts);
    }

    /** A status put behind those held for its order, and all of them released once the order is known. */
    method HoldBehind(k: Key, s: Status, ownerKnown: bool, accepts: nat) returns (ok: bool)
      requires Valid() && k !in foreign && s.arrival + 1 == next && NoneFrom(log, k, s.arrival)
      requires k in held ==> held[k][|held[k]| - 1].arrival < s.arrival
      modifies this`held, this`last, this`log
      ensures Valid()
      ensures var queue := QueueOf(old(held), k) + [s];
              var (r, rest) := ReleaseTo(old(log), old(last), Known(clientIds, rejections), k, queue, accepts);
              if ownerKnown then ok == r.ok && log == r.log && last == r.last && held == WithQueue(old(held), k, rest)
              else ok && log == old(log) && last == old(last) && held == old(held)[k := queue]
    {
      ghost var queue := QueueOf(held, k) + [s];
      Hold(k, s);
      ok := true;
      if ownerKnown {
        ghost var rest := ReleaseTo(log, last, Known(clientIds, rejections), k, queue, accepts).1;
        QueueTwice(old(held), k, queue, rest);
        var left;
        ok, left := Release(k, accepts);
      }
    }

    method Arrives()
      requires Valid()
      modifies this`next
      ensures Valid() && next == old(next) + 1 && forall k :: NoneFrom(log, k, old(next))
    {
      ghost var later := next + 1;
      forall k ensures NoneFrom(log, k, later) { NoneLater(log, k, next, later); }
      next := next + 1;
    }

    method Hold(k: Key, s: Status)
      requires Valid() && k !in foreign && s.arrival + 1 == next && (k in held ==>
               held[k][|held[k]| - 1].arrival < s.arrival)
      requires NoneFrom(log, k, s.arrival)
      modifies this`held
      ensures Valid() && held == old(held)[k := (if k in old(held) then old(held)[k] else []) + [s]]
    {
      held := held[k := (if k in held then held[k] else []) + [s]];
    }

    /** _on_error: a rejection follows the statuses held before it, and is remembered even if its report fails. */
    method OnError(k: Key, code: ErrorCode, rejection: Rejection, accepts: nat) returns (ok: bool)
      requires Valid()
      modifies this
      ensures Valid() && clientIds == old(clientIds) && foreign == old(foreign)
      ensures var heeded := && !code.Notice? && k !in old(foreign)
                            && (code.RejectsPlacement? ==>
                                  && k in old(placed) && k !in old(clientIds)
                                  && k !in old(last) && k !in old(held));
              var (r, rest) := ReleaseTo(old(log), old(last), Known(clientIds, old(rejections)), k,
                  QueueOf(old(held), k), accepts);
              if !heeded then ok && log == old(log) && last == old(last) && held == old(held)
                  && rejections == old(rejections)
              else if !r.ok then !ok && log == r.log && last == r.last && held == WithQueue(old(held), k, rest)
                  && rejections == old(rejections)
              else
                var report := RejectionReport(r.last, clientIds, k, rejection);
                var e := EmitTo(r.log, r.last, k, report, None, r.left);
                && ok == e.ok && log == e.log && last == e.last && held == old(held) - {k}
                && rejections == old(rejections)[k := rejection]
    {
      if code.Notice? || k in foreign {
        return true;
      }
      if code.RejectsPlacement? && (k !in placed || k in clientIds || k in last || k in held) {
        return true;
      }
      var left;
      ok, left := Release(k, accepts);
      if !ok {
        return;
      }
      rejections := rejections[k := rejection];
      ok, left := Emit(k, RejectionReport(last, clientIds, k, rejection), None, left);
    }

    /** _on_exec_details: each execution of this account, once. */
    method OnExecution(exec: string, ours: bool, accepts: nat) returns (ok: bool)
      requires Valid()
      modifies this`executions, this`log
      ensures Valid()
      ensures log == if ours && Executed(exec) !in old(log) && accepts > 0 then old(log) + [Executed(exec)]
              else old(log)
    {
      if !ours || exec in executions {
        return true;
      }
      if accepts == 0 {
        return false;
      }
      OtherTaken(log, held, next, last, Executed(exec));
      OnceMore(log, executions, commissions, Executed(exec));
      log := log + [Executed(exec)];
      executions := executions + {exec};
      return true;
    }

    /** _on_commission_report: once, and only after its execution. */
    method OnCommission(exec: string, accepts: nat) returns (ok: bool)
      requires Valid()
      modifies this`commissions, this`log
      ensures Valid()
      ensures log == if Executed(exec) in old(log) && Charged(exec) !in old(log) && accepts > 0
              then old(log) + [Charged(exec)] else old(log)
    {
      if exec !in executions || exec in commissions {
        return true;
      }
      if accepts == 0 {
        return false;
      }
      Charge(exec);
      return true;
    }

    method Charge(exec: string)
      requires Valid() && exec in executions && exec !in commissions
      modifies this`commissions, this`log
      ensures Valid() && log == old(log) + [Charged(exec)]
    {
      OtherTaken(log, held, next, last, Charged(exec));
      ChargeSeen(log, executions, commissions, exec);
      log := log + [Charged(exec)];
      commissions := commissions + {exec};
    }
  }

  lemma OnceMore(log: seq<Entry>, executions: set<string>, commissions: set<string>, e: Entry)
    requires SeenOnce(log, executions, commissions) && e !in log
    requires e.Executed? || (e.Charged? && Executed(e.exec) in log)
    ensures SeenOnce(log + [e], if e.Executed? then executions + {e.exec} else executions,
                     if e.Charged? then commissions + {e.exec} else commissions)
  {
    OneMore(log, e);
    ChargedMore(log, e);
  }

  lemma ChargeSeen(log: seq<Entry>, executions: set<string>, commissions: set<string>, exec: string)
    requires SeenOnce(log, executions, commissions) && exec in executions && exec !in commissions
    ensures SeenOnce(log + [Charged(exec)], executions, commissions + {exec})
  {
    OnceMore(log, executions, commissions, Charged(exec));
  }

  lemma OneMore(log: seq<Entry>, e: Entry)
    requires Once(log) && e !in log
    ensures Once(log + [e]) && forall x :: x in log + [e] <==> x == e || x in log
  {
    var all := log + [e];
    forall i, j | 0 <= i < j < |all| && !all[i].Reported? && !all[i].Opened? ensures all[i] != all[j] {
      assert all[i] == log[i] && log[i] in log;
    }
  }

  lemma ChargedMore(log: seq<Entry>, e: Entry)
    requires ChargedAfter(log) && (e.Charged? ==> Executed(e.exec) in log)
    ensures ChargedAfter(log + [e])
  {
    var all := log + [e];
    forall j | 0 <= j < |all| && all[j].Charged? ensures exists i :: 0 <= i < j && all[i] == Executed(all[j].exec) {
      if j < |log| {
        var i :| 0 <= i < j && log[i] == Executed(log[j].exec);
        assert all[i] == Executed(all[j].exec);
      } else {
        var i :| 0 <= i < |log| && log[i] == Executed(e.exec);
        assert all[i] == Executed(all[j].exec);
      }
    }
  }

  /** A report, or an open order, is no execution. */
  lemma NotOnce(log: seq<Entry>, executions: set<string>, commissions: set<string>, e: Entry)
    requires SeenOnce(log, executions, commissions) && (e.Reported? || e.Opened?)
    ensures SeenOnce(log + [e], executions, commissions)
  {
    var all := log + [e];
    assert forall x :: x in all <==> x == e || x in log;
    ChargedMore(log, e);
  }

  /** A report after the statuses before it, and before those held behind it. */
  lemma ReportOrdered(log: seq<Entry>, held: map<Key, seq<Status>>, next: nat, e: Entry)
    requires Ordered(log, held, next) && e.Reported?
    requires e.arrival.Some? ==> e.arrival.value < next && NoneFrom(log, e.key, e.arrival.value)
    ensures Ordered(log + [e], if e.arrival.Some? then held - {e.key} else held, next)
    ensures e.arrival.Some? ==> NoneFrom(log + [e], e.key, e.arrival.value + 1)
  {
    var all := log + [e];
    forall x, from: nat ensures NoneFrom(all, x, from) <==>
                            NoneFrom(log, x, from) && (Of(e, x) && e.arrival.Some? ==> e.arrival.value < from) {
      NoneAppended(log, e, x, from);
    }
    if e.arrival.Some? { NoneLater(log, e.key, e.arrival.value, e.arrival.value + 1); }
  }

  lemma OtherOrdered(log: seq<Entry>, held: map<Key, seq<Status>>, next: nat, e: Entry)
    requires Ordered(log, held, next) && !e.Reported?
    ensures Ordered(log + [e], held, next)
  {
    OtherAppended(log, e);
  }

  lemma OtherTaken(log: seq<Entry>, held: map<Key, seq<Status>>, next: nat, last: map<Key, Report>, e: Entry)
    requires Ordered(log, held, next) && SeenReports(log, last) && !e.Reported?
    ensures Ordered(log + [e], held, next) && SeenReports(log + [e], last)
  {
    OtherOrdered(log, held, next, e);
    OtherAppended(log, e);
    CollapsedMore(log, e);
  }

  lemma NoneLater(log: seq<Entry>, k: Key, from: nat, later: nat)
    requires NoneFrom(log, k, from) && from <= later
    ensures NoneFrom(log, k, later)
  {
  }

  /** A record that is no report changes no order's reports. */
  lemma OtherAppended(log: seq<Entry>, e: Entry)
    requires !e.Reported?
    ensures forall k :: LastOf(log + [e], k) == LastOf(log, k)
    ensures forall k, from: nat :: NoneFrom(log + [e], k, from) <==> NoneFrom(log, k, from)
    ensures InArrivalOrder(log) ==> InArrivalOrder(log + [e])
  {
    LastAppended(log, e);
    forall k, from: nat ensures NoneFrom(log + [e], k, from) <==> NoneFrom(log, k, from) {
      NoneAppended(log, e, k, from);
    }
  }
}
