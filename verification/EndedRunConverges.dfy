/** settle_ended_run run again after a stop at any of its writes (adapter/ibkr/relay.py:2441-2556). */
module EndedRunConverges {
  import opened Wrappers
  import opened Handover
  import opened EndedRun
  import opened HandoverRuns
  import opened HandoverKeeps
  import opened EndedRunLegal

  function NewDecision(w: World, log: EndedLog, c: Cid): Decision {
    Decision(c, DecidedNeverSent, Some(InputOf(w, log, c)), Some(log.run), Some(log.name), true)
  }

  /** The settlement file as the command leaves it. */
  function FinalLines(w: World, log: EndedLog): seq<Settlement> {
    var acts := FileActs(w, log);
    if acts == [] then w.neverSent else acts[0].lines
  }

  function FinalMarks(w: World, still: seq<Cid>): map<Cid, Mark> {
    w.marks + Marking(w, still)
  }

  function FinalOutbox(w: World, still: seq<Cid>): seq<Entry> {
    Without(w.outbox, RetirementsOfAll(w.outbox, still))
  }

  /** w1 is w part way through the command: some decisions made, the file written before any mark. */
  ghost predicate PartWay(w: World, log: EndedLog, w1: World) {
    var still := Still(w, log, log.releases);
    && w1.waiting == w.waiting && w1.runOf == w.runOf && w1.refusal == w.refusal
    && (LastRun(w1.decisions) == LastRun(w.decisions) || LastRun(w1.decisions) == Some(log.run))
    && (forall c :: LastDecision(w1.decisions, c) == LastDecision(w.decisions, c)
                    || (c in still && LastDecision(w1.decisions, c) == Some(NewDecision(w, log, c))))
    && (forall c :: MarkOf(w1.marks, c) == MarkOf(w.marks, c)
                    || (c in still && c !in w.marks && MarkOf(w1.marks, c) == Some(NeverSent)
                           && DecidedForLog(w1, log, c)))
    && (w1.neverSent == FinalLines(w, log)
        || (w1.neverSent == w.neverSent && w1.marks == w.marks && w1.outbox == w.outbox))
    && (w1.outbox == w.outbox || w1.outbox == FinalOutbox(w, still))
  }

  ghost predicate NextAct(w: World, log: EndedLog, w1: World, a: Act) {
    var still := Still(w, log, log.releases);
    match a
    case Decide(d) => d.cid in still && d == NewDecision(w, log, d.cid)
    case WriteNeverSent(lines) => lines == FinalLines(w, log)
    case SetMark(c, m) => c in still && c !in w.marks && m.NeverSent? && w1.neverSent == FinalLines(w, log)
        && DecidedForLog(w1, log, c)
    case Strike(ids) => ids == RetirementsOfAll(w.outbox, still) && w1.neverSent == FinalLines(w, log)
        && w1.outbox == w.outbox
    case _ => false
  }

  ghost predicate AllNext(w: World, log: EndedLog, w1: World, acts: seq<Act>)
    decreases |acts|
  {
    acts != [] ==> NextAct(w, log, w1, acts[0]) && AllNext(w, log, Apply(w1, acts[0]), acts[1..])
  }

  lemma {:induction false} AllNextConcat(w: World, log: EndedLog, w1: World, a: seq<Act>, b: seq<Act>)
    requires AllNext(w, log, w1, a) && AllNext(w, log, Exec(w1, a), b)
    ensures AllNext(w, log, w1, a + b)
    decreases |a|
  {
    if a == [] {
      assert a + b == b;
    } else {
      assert (a + b)[1..] == a[1..] + b;
      AllNextConcat(w, log, Apply(w1, a[0]), a[1..], b);
    }
  }

  lemma NextStaysPartWay(w: World, log: EndedLog, w1: World, a: Act)
    requires PartWay(w, log, w1) && NextAct(w, log, w1, a)
    ensures PartWay(w, log, Apply(w1, a))
  {
    match a
    case Decide(d) => DecisionStaysPartWay(w, log, w1, d);
    case SetMark(c, m) => MarkStaysPartWay(w, log, w1, c, m);
    case WriteNeverSent(_) =>
    case Strike(_) =>
    case _ => assert false;
  }

  lemma MarkStaysPartWay(w: World, log: EndedLog, w1: World, c: Cid, m: Mark)
    requires PartWay(w, log, w1) && NextAct(w, log, w1, SetMark(c, m))
    ensures PartWay(w, log, Apply(w1, SetMark(c, m)))
  {
    var w2 := Apply(w1, SetMark(c, m));
    forall k ensures MarkOf(w2.marks, k) == if k == c then Some(m) else MarkOf(w1.marks, k) {}
    assert forall k :: DecidedForLog(w2, log, k) == DecidedForLog(w1, log, k);
  }

  lemma DecisionStaysPartWay(w: World, log: EndedLog, w1: World, d: Decision)
    requires PartWay(w, log, w1) && NextAct(w, log, w1, Decide(d))
    ensures PartWay(w, log, Apply(w1, Decide(d)))
  {
    LastRunAppend(w1.decisions, d);
    var w2 := Apply(w1, Decide(d));
    assert w2.decisions == w1.decisions + [d];
    forall c ensures LastDecision(w2.decisions, c) == if d.cid == c then Some(d) else LastDecision(w1.decisions, c) {
      LastDecisionAppend(w1.decisions, d, c);
    }
    forall c | DecidedForLog(w1, log, c) ensures DecidedForLog(w2, log, c) {}
  }

  lemma {:induction false} CutIsPartWay(w: World, log: EndedLog, w1: World, acts: seq<Act>, k: nat)
    requires PartWay(w, log, w1) && AllNext(w, log, w1, acts) && k <= |acts|
    ensures PartWay(w, log, Exec(w1, acts[..k]))
    decreases k
  {
    if k == 0 {
      assert acts[..k] == [];
    } else {
      NextStaysPartWay(w, log, w1, acts[0]);
      assert acts[..k][0] == acts[0] && acts[..k][1..] == acts[1..][..k - 1];
      CutIsPartWay(w, log, Apply(w1, acts[0]), acts[1..], k - 1);
    }
  }

  // ----- The acts of the command are the next ones -----

  predicate AmongStill(s: seq<Cid>, still: seq<Cid>) {
    forall c :: c in s ==> c in still
  }

  lemma {:induction false} DecideActsNext(w: World, log: EndedLog, w1: World, s: seq<Cid>)
    requires AmongStill(s, Still(w, log, log.releases))
    ensures AllNext(w, log, w1, DecideActs(w, log, s))
    ensures var w' := Exec(w1, DecideActs(w, log, s));
            w'.neverSent == w1.neverSent && w'.marks == w1.marks && w'.outbox == w1.outbox
    decreases |s|
  {
    if s != [] {
      assert s == [s[0]] + s[1..];
      if DecidedForLog(w, log, s[0]) {
        assert DecideActs(w, log, s) == DecideActs(w, log, s[1..]);
        DecideActsNext(w, log, w1, s[1..]);
      } else {
        var a := Decide(NewDecision(w, log, s[0]));
        DecideActsNext(w, log, Apply(w1, a), s[1..]);
        assert DecideActs(w, log, s)[1..] == DecideActs(w, log, s[1..]);
      }
    }
  }

  /** Every order's last decision is the old one, or one for this log. */
  ghost predicate OnlyForLog(w: World, log: EndedLog, w1: World) {
    forall c :: LastDecision(w1.decisions, c) == LastDecision(w.decisions, c) || DecidedForLog(w1, log, c)
  }

  lemma DecideOneFor(w: World, log: EndedLog, w1: World, k: Cid, c: Cid)
    requires LastDecision(w1.decisions, c) == LastDecision(w.decisions, c) || DecidedForLog(w1, log, c)
    ensures var w2 := Apply(w1, Decide(NewDecision(w, log, k)));
            && (LastDecision(w2.decisions, c) == LastDecision(w.decisions, c) || DecidedForLog(w2, log, c))
            && (c == k || DecidedForLog(w1, log, c) ==> DecidedForLog(w2, log, c))
  {
    LastDecisionAppend(w1.decisions, NewDecision(w, log, k), c);
  }

  lemma DecideOne(w: World, log: EndedLog, w1: World, k: Cid)
    requires OnlyForLog(w, log, w1)
    ensures var w2 := Apply(w1, Decide(NewDecision(w, log, k)));
            && OnlyForLog(w, log, w2) && DecidedForLog(w2, log, k)
            && forall c :: DecidedForLog(w1, log, c) ==> DecidedForLog(w2, log, c)
  {
    forall c
      ensures var w2 := Apply(w1, Decide(NewDecision(w, log, k)));
              && (LastDecision(w2.decisions, c) == LastDecision(w.decisions, c) || DecidedForLog(w2, log, c))
              && (c == k || DecidedForLog(w1, log, c) ==> DecidedForLog(w2, log, c))
    {
      DecideOneFor(w, log, w1, k, c);
    }
  }

  lemma {:induction false} DecideActsDecide(w: World, log: EndedLog, w1: World, s: seq<Cid>)
    requires OnlyForLog(w, log, w1)
    ensures var w' := Exec(w1, DecideActs(w, log, s));
            && OnlyForLog(w, log, w')
            && forall c :: (c in s || DecidedForLog(w1, log, c)) ==> DecidedForLog(w', log, c)
    decreases |s|
  {
    if s != [] {
      assert s == [s[0]] + s[1..];
      if DecidedForLog(w, log, s[0]) {
        assert DecideActs(w, log, s) == DecideActs(w, log, s[1..]);
        DecideActsDecide(w, log, w1, s[1..]);
      } else {
        DecideOne(w, log, w1, s[0]);
        var d := NewDecision(w, log, s[0]);
        DecideActsDecide(w, log, Apply(w1, Decide(d)), s[1..]);
        assert DecideActs(w, log, s)[1..] == DecideActs(w, log, s[1..]);
      }
    }
  }

  lemma {:induction false} MarkActsNext(w: World, log: EndedLog, w1: World, s: seq<Cid>)
    requires AmongStill(s, Still(w, log, log.releases)) && w1.neverSent == FinalLines(w, log)
    requires forall c :: c in s ==> DecidedForLog(w1, log, c)
    ensures AllNext(w, log, w1, MarkActs(w, s))
    decreases |s|
  {
    if s != [] {
      assert s == [s[0]] + s[1..];
      if s[0] in w.marks {
        assert MarkActs(w, s) == MarkActs(w, s[1..]);
        MarkActsNext(w, log, w1, s[1..]);
      } else {
        var a := SetMark(s[0], NeverSent);
        assert forall c :: DecidedForLog(Apply(w1, a), log, c) == DecidedForLog(w1, log, c);
        MarkActsNext(w, log, Apply(w1, a), s[1..]);
        assert MarkActs(w, s)[1..] == MarkActs(w, s[1..]);
      }
    }
  }

  function Marking(w: World, s: seq<Cid>): map<Cid, Mark> {
    map c | c in s && c !in w.marks :: NeverSent
  }

  lemma MarkingOne(w: World, marks: map<Cid, Mark>, s: seq<Cid>)
    requires s != [] && s[0] !in w.marks
    ensures marks[s[0] := NeverSent] + Marking(w, s[1..]) == marks + Marking(w, s)
  {
    assert s == [s[0]] + s[1..];
  }

  lemma {:induction false} MarkActsResult(w: World, w1: World, s: seq<Cid>)
    ensures Exec(w1, MarkActs(w, s)) == w1.(marks := w1.marks + Marking(w, s))
    decreases |s|
  {
    if s == [] {
      assert w1.marks + Marking(w, s) == w1.marks;
    } else {
      var t := s[1..];
      assert s == [s[0]] + t;
      if s[0] in w.marks {
        assert MarkActs(w, s) == MarkActs(w, t);
        MarkActsResult(w, w1, t);
        assert Marking(w, s) == Marking(w, t);
      } else {
        var a := SetMark(s[0], NeverSent);
        MarkActsResult(w, Apply(w1, a), t);
        assert MarkActs(w, s)[1..] == MarkActs(w, t);
        MarkingOne(w, w1.marks, s);
      }
    }
  }

  /** The command's acts, performed whole, leave the final file, marks and outbox. */
  lemma CommandResult(w: World, log: EndedLog)
    requires SettleEndedRun(w, log).Some?
    ensures AllNext(w, log, w, SettleEndedRun(w, log).value)
    ensures var still := Still(w, log, log.releases);
            var w' := Exec(w, SettleEndedRun(w, log).value);
            w'.neverSent == FinalLines(w, log) && w'.marks == FinalMarks(w, still) && w'.outbox == FinalOutbox(w, still)
  {
    var still := Still(w, log, log.releases);
    var a, b, m := DecideActs(w, log, still), FileActs(w, log), MarkActs(w, still);
    var s := [Strike(RetirementsOfAll(w.outbox, still))];
    DecideActsNext(w, log, w, still);
    DecideActsDecide(w, log, w, still);
    var w1 := Exec(w, a);
    var w2 := Exec(w1, b);
    FileActsNext(w, log, w1);
    MarkActsNext(w, log, w2, still);
    MarkActsResult(w, w2, still);
    var w3 := Exec(w2, m);
    StrikeNext(w, log, w3);
    AllNextConcat(w, log, w, a, b);
    ExecConcat(w, a, b);
    AllNextConcat(w, log, w, a + b, m);
    ExecConcat(w, a + b, m);
    AllNextConcat(w, log, w, a + b + m, s);
    ExecConcat(w, a + b + m, s);
  }

  lemma FileActsNext(w: World, log: EndedLog, w1: World)
    requires w1.neverSent == w.neverSent
    ensures AllNext(w, log, w1, FileActs(w, log))
    ensures var w2 := Exec(w1, FileActs(w, log));
            w2.neverSent == FinalLines(w, log) && w2.marks == w1.marks && w2.outbox == w1.outbox
                && w2.decisions == w1.decisions
  {
    var b := FileActs(w, log);
    if b != [] { assert b[1..] == []; }
  }

  lemma StrikeNext(w: World, log: EndedLog, w1: World)
    requires w1.neverSent == FinalLines(w, log) && w1.outbox == w.outbox
    ensures var s := [Strike(RetirementsOfAll(w.outbox, Still(w, log, log.releases)))];
            AllNext(w, log, w1, s) && Exec(w1, s) == Apply(w1, s[0])
  {
    var s := [Strike(RetirementsOfAll(w.outbox, Still(w, log, log.releases)))];
    assert s[1..] == [];
  }

  // ----- Judged part way, every order is judged the same -----

  lemma {:induction false} StrikeKeepsReports(w: World, still: seq<Cid>, en: Entry)
    requires DistinctIds(w.outbox) && en.kind.Report?
    ensures en in FinalOutbox(w, still) <==> en in w.outbox
  {
    WithoutMember(w.outbox, RetirementsOfAll(w.outbox, still), en);
  }

  lemma SameReports(w: World, log: EndedLog, w1: World)
    requires PartWay(w, log, w1) && DistinctIds(w.outbox)
    ensures ReportedOn(w1, log) == ReportedOn(w, log)
  {
    var still := Still(w, log, log.releases);
    forall en: Entry | en.kind.Report? ensures en in w1.outbox <==> en in w.outbox {
      StrikeKeepsReports(w, still, en);
    }
  }

  /** What the command may assume of its own file and of the log. */
  ghost predicate Consistent(e: Engine, w: World, log: EndedLog) {
    && e.OneRelease() && LogSound(e, log) && DistinctIds(w.outbox)
    && (forall l :: l in w.neverSent ==> l.cid in e.Released(l.input))
    && (forall d :: d in w.decisions && d.log.Some? && SettlesNeverSent(d.verdict) ==>
          d.input.Some? && d.run.Some? && d.cid in e.Released(d.input.value))
  }

  lemma InputOfIs(e: Engine, w: World, log: EndedLog, x: InputId, c: Cid)
    requires Consistent(e, w, log) && Release(x, c) in log.releases
    ensures InputOf(w, log, c) == x
  {
    LineInputIsOne(w.neverSent, log.name, c);
    ReleaseInputIsOne(log.releases, c);
  }

  /** A settled order's new decision and mark are evidence again. */
  lemma ShownAgain(c: Cid, x: InputId, run: Run, m: Option<Mark>, m': Option<Mark>, d: Option<Decision>,
                   d': Option<Decision>,
                   waiting: bool, refusal: Option<Refusal>, reported: bool, retired: bool, times: nat)
    requires Judge(c, x, run, m, d, waiting, refusal, reported, retired, times).Shown?
    requires m' == m || (m.None? && m' == Some(NeverSent))
    requires (d' == d && m' == m) || (d'.Some? && d'.value.verdict.DecidedNeverSent? && d'.value.input == Some(x)
             && d'.value.run == Some(run))
    ensures Judge(c, x, run, m', d', waiting, refusal, reported, retired, times).Shown?
    ensures m' == m ==> Judge(c, x, run, m', d', waiting, refusal, reported, retired, times)
                        == Judge(c, x, run, m, d, waiting, refusal, reported, retired, times)
  {
  }

  lemma SameJudgement(e: Engine, w: World, log: EndedLog, w1: World, x: InputId, c: Cid)
    requires Consistent(e, w, log) && PartWay(w, log, w1) && Release(x, c) in log.releases
    ensures Evidence(w1, log, x, c).Shown? == Evidence(w, log, x, c).Shown?
    ensures w1.marks == w.marks ==> Evidence(w1, log, x, c) == Evidence(w, log, x, c)
  {
    SameReports(w, log, w1);
    var still := Still(w, log, log.releases);
    assert LastDecision(w1.decisions, c) == LastDecision(w.decisions, c) || c in still;
    assert MarkOf(w1.marks, c) == MarkOf(w.marks, c) || c in still;
    if c in still {
      StillShown(e, w, log, x, c);
      StillDecision(e, w, log, w1, x, c);
      ShownAgain(c, x, log.run, MarkOf(w.marks, c), MarkOf(w1.marks, c), LastDecision(w.decisions, c),
                 LastDecision(w1.decisions, c), w.waiting == Some(x), w.refusal, c in ReportedOn(w, log),
                     c in log.retired,
                 Times(log.releases, c));
    }
  }

  lemma StillShown(e: Engine, w: World, log: EndedLog, x: InputId, c: Cid)
    requires Consistent(e, w, log) && Release(x, c) in log.releases && c in Still(w, log, log.releases)
    ensures Evidence(w, log, x, c).Shown?
  {
    StillMember(w, log, log.releases, c);
    var r :| r in log.releases && r.cid == c && Evidence(w, log, r.input, c).Shown?;
    assert r.input == x;
  }

  lemma StillDecision(e: Engine, w: World, log: EndedLog, w1: World, x: InputId, c: Cid)
    requires Consistent(e, w, log) && PartWay(w, log, w1) && Release(x, c) in log.releases
             && Evidence(w, log, x, c).Shown?
    ensures var d, d' := LastDecision(w.decisions, c), LastDecision(w1.decisions, c);
            || (d' == d && MarkOf(w1.marks, c) == MarkOf(w.marks, c))
            || (d'.Some? && d'.value.verdict.DecidedNeverSent? && d'.value.input == Some(x)
                   && d'.value.run == Some(log.run))
  {
    InputOfIs(e, w, log, x, c);
    LastDecisionIsOne(w.decisions, c);
    assert MarkOf(w1.marks, c) == MarkOf(w.marks, c) || DecidedForLog(w1, log, c);
  }

  lemma {:induction false} SameStill(e: Engine, w: World, log: EndedLog, w1: World, releases: seq<Release>)
    requires Consistent(e, w, log) && PartWay(w, log, w1)
    requires forall r :: r in releases ==> r in log.releases
    ensures Still(w1, log, releases) == Still(w, log, releases)
    ensures w1.marks == w.marks && w1.neverSent == w.neverSent ==>
            NewLines(w1, log, releases) == NewLines(w, log, releases)
  {
    if releases != [] {
      var r := releases[0];
      assert r == Release(r.input, r.cid);
      assert releases == [r] + releases[1..];
      SameStill(e, w, log, w1, releases[1..]);
      SameJudgement(e, w, log, w1, r.input, r.cid);
    }
  }

  // ----- The file, the marks and the outbox are reached again -----

  lemma {:induction false} NewLinesCover(w: World, log: EndedLog, releases: seq<Release>, c: Cid)
    ensures HasLine(NewLines(w, log, releases), log.name, c)
            <==> !HasLine(w.neverSent, log.name, c) && c in Still(w, log, releases)
    ensures forall l :: l in NewLines(w, log, releases) ==> l.log == log.name && l.cid in Still(w, log, releases)
  {
    if releases != [] {
      var r := releases[0];
      var rest := NewLines(w, log, releases[1..]);
      NewLinesCover(w, log, releases[1..], c);
      InsertMember(r.cid, Still(w, log, releases[1..]));
      var j := Evidence(w, log, r.input, r.cid);
      if j.Shown? && !HasLine(w.neverSent, log.name, r.cid) {
        var l := Settlement(log.name, log.run, r.input, j.evidence, r.cid);
        assert NewLines(w, log, releases) == [l] + rest;
        assert l in NewLines(w, log, releases);
        assert forall q :: q in NewLines(w, log, releases) <==> q == l || q in rest;
      } else {
        assert NewLines(w, log, releases) == rest;
      }
    }
  }

  /** In the final file the log's lines are exactly the settled orders'. */
  lemma FinalLinesCover(w: World, log: EndedLog, c: Cid)
    ensures HasLine(FinalLines(w, log), log.name, c) <==> c in Still(w, log, log.releases)
  {
    var still := Still(w, log, log.releases);
    var added := NewLines(w, log, log.releases);
    NewLinesCover(w, log, log.releases, c);
    KeptLinesAmong(w.neverSent, log.name, still);
    if FileActs(w, log) != [] {
      var lines := KeptLines(w.neverSent, log.name, still) + added;
      assert FinalLines(w, log) == lines;
      assert forall l :: l in lines <==> l in KeptLines(w.neverSent, log.name, still) || l in added;
    }
  }

  lemma NothingToWrite(w: World, log: EndedLog)
    requires forall c :: HasLine(w.neverSent, log.name, c) <==> c in Still(w, log, log.releases)
    ensures FileActs(w, log) == []
  {
    var added := NewLines(w, log, log.releases);
    if added != [] {
      NewLinesCover(w, log, log.releases, added[0].cid);
    }
    forall l | l in w.neverSent && l.log == log.name ensures l.cid in Still(w, log, log.releases) {
      assert HasLine(w.neverSent, log.name, l.cid);
    }
  }

  lemma SameFile(e: Engine, w: World, log: EndedLog, w1: World)
    requires Consistent(e, w, log) && PartWay(w, log, w1)
    ensures FinalLines(w1, log) == FinalLines(w, log)
  {
    SameStill(e, w, log, w1, log.releases);
    if w1.neverSent == FinalLines(w, log) {
      forall c ensures HasLine(w1.neverSent, log.name, c) <==> c in Still(w1, log, log.releases) {
        FinalLinesCover(w, log, c);
      }
      NothingToWrite(w1, log);
    }
  }

  lemma {:induction false} WithoutNone(s: seq<Entry>, ids: set<InputId>)
    requires forall en :: en in s ==> en.id !in ids
    ensures Without(s, ids) == s
  {
    if s != [] {
      assert s[0] in s;
      WithoutNone(s[1..], ids);
    }
  }

  lemma SameOutbox(w: World, log: EndedLog, w1: World)
    requires PartWay(w, log, w1)
    ensures FinalOutbox(w1, Still(w, log, log.releases)) == FinalOutbox(w, Still(w, log, log.releases))
  {
    var still := Still(w, log, log.releases);
    if w1.outbox != w.outbox {
      var ids := RetirementsOfAll(w.outbox, still);
      forall en ensures en in w1.outbox <==> en in w.outbox && en.id !in ids { WithoutMember(w.outbox, ids, en); }
      assert forall c, x :: c in still && x in RetirementsOf(w.outbox, c) ==> x in ids;
      forall c | c in still ensures RetirementsOf(w1.outbox, c) == {} {
        assert forall en :: en in w.outbox && en.kind.Retire? && NamesRetirementOf(en.id, c) ==>
            en.id in RetirementsOf(w.outbox, c);
      }
      assert RetirementsOfAll(w1.outbox, still) == {};
      WithoutNone(w1.outbox, {});
    }
  }

  /** Run again after a stop at any write, settle_ended_run is accepted again, judges the same orders never
      sent, and reaches the same settlement file, marks and outbox as if it had not been stopped. */
  lemma RerunConverges(e: Engine, w: World, log: EndedLog, k: nat, w1: World)
    requires Consistent(e, w, log) && SettleEndedRun(w, log).Some? && k <= |SettleEndedRun(w, log).value|
    requires w1 == Exec(w, SettleEndedRun(w, log).value[..k])
    ensures SettleEndedRun(w1, log).Some?
    ensures Still(w1, log, log.releases) == Still(w, log, log.releases)
    ensures var once := Exec(w, SettleEndedRun(w, log).value);
            var again := Exec(w1, SettleEndedRun(w1, log).value);
            again.neverSent == once.neverSent && again.marks == once.marks && again.outbox == once.outbox
  {
    CommandResult(w, log);
    CutIsPartWay(w, log, w, SettleEndedRun(w, log).value, k);
    SameStill(e, w, log, w1, log.releases);
    CommandResult(w1, log);
    SameFile(e, w, log, w1);
    SameOutbox(w, log, w1);
    SameMarks(w, log, w1);
  }

  lemma SameMarks(w: World, log: EndedLog, w1: World)
    requires PartWay(w, log, w1)
    ensures FinalMarks(w1, Still(w, log, log.releases)) == FinalMarks(w, Still(w, log, log.releases))
  {
    var still := Still(w, log, log.releases);
    var a, b := FinalMarks(w1, still), FinalMarks(w, still);
    forall c ensures MarkOf(a, c) == MarkOf(b, c) {
      assert MarkOf(w1.marks, c) == MarkOf(w.marks, c) || (c in still && MarkOf(w1.marks, c) == Some(NeverSent));
    }
    forall c ensures c in a <==> c in b { assert MarkOf(a, c) == MarkOf(b, c); }
    forall c | c in a ensures a[c] == b[c] { assert MarkOf(a, c) == MarkOf(b, c); }
  }

  /** Every reachable world is consistent with the log of a run that ended. */
  lemma ReachableIsConsistent(e: Engine, w: World, log: EndedLog)
    requires e.OneRelease() && Inv(e, w) && LogSound(e, log)
    ensures Consistent(e, w, log)
  {
  }
}
