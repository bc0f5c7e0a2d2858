/** Which orders settle_ended_run settles, and what it writes, as the files and the ended log say
    (adapter/ibkr/relay.py:2441-2556, 2559-2621). */
module EndedRunSettled {
  import opened Wrappers
  import opened Handover
  import opened EndedRun
  import opened HandoverRuns
  import opened HandoverKeeps
  import opened EndedRunLegal
  import opened EndedRunConverges
  import opened HandoverTheorems
  import opened HandoverPass

  // ----- The condition, over the files -----

  /** IBKR reported on the order: in the ended log, or in a report still queued for the engine. */
  predicate ReportedBy(w: World, log: EndedLog, c: Cid) {
    c in log.reported || exists en :: en in w.outbox && en.kind.Report? && en.cid == Some(c)
  }

  /** The log released the order once. */
  ghost predicate ReleasedOnce(log: EndedLog, c: Cid) {
    forall i, j :: 0 <= i < j < |log.releases| ==> log.releases[i].cid != c || log.releases[j].cid != c
  }

  /** The last decision on it, if any, is no finding at IBKR, and no other run recorded it. */
  ghost predicate NothingAgainst(w: World, log: EndedLog, c: Cid) {
    forall i :: LastOn(w.decisions, c, i) ==>
      !w.decisions[i].verdict.FoundAtBroker? && (w.decisions[i].run.None? || w.decisions[i].run == Some(log.run))
  }

  /** Its last decision was made for this input, in a run it names, and says that it was never sent. */
  ghost predicate DecidedFor(w: World, x: InputId, c: Cid) {
    exists i :: LastOn(w.decisions, c, i) &&
      var d := w.decisions[i];
      (d.verdict.DecidedNeverSent? || d.verdict.NotHandedOver? || d.verdict.Retired?)
      && d.input == Some(x) && d.run.Some?
  }

  predicate UnmarkedFor(w: World, x: InputId, c: Cid) {
    c !in w.marks && w.waiting == Some(x)
  }

  /** The records show that the order, released by x, was never sent. */
  ghost predicate ToSettle(w: World, log: EndedLog, x: InputId, c: Cid) {
    && Release(x, c) in log.releases && ReleasedOnce(log, c)
    && !ReportedBy(w, log, c) && c !in log.retired
    && (c in w.marks ==> w.marks[c] == NeverSent)
    && NothingAgainst(w, log, c)
    && (UnmarkedFor(w, x, c) || DecidedFor(w, x, c))
  }

  ghost predicate Settles(w: World, log: EndedLog, c: Cid) {
    exists x :: ToSettle(w, log, x, c)
  }

  /** What the settlement names as evidence. */
  function EvidenceFor(w: World, x: InputId, c: Cid): EvidenceKind {
    if !UnmarkedFor(w, x, c) then MarkedNeverSent
    else if w.refusal.Some? && w.refusal.value.input == x && w.refusal.value.cid == c then RefusedBefore else Unmarked
  }

  /** The command is of the run that ended: the one the waiting input was sent to, and with none the one the decisions
      last record. */
  ghost predicate OfTheRun(w: World, log: EndedLog) {
    if w.waiting.Some? then w.runOf.Some? && w.runOf.value.input == w.waiting.value && w.runOf.value.run == log.run
    else exists i :: LastRunOn(w.decisions, i) && w.decisions[i].run == Some(log.run)
  }

  ghost predicate LastRunOn(ds: seq<Decision>, i: int) {
    0 <= i < |ds| && ds[i].run.Some? && forall j :: i < j < |ds| ==> ds[j].run.None?
  }

  // ----- The judgement is the condition -----

  lemma {:induction false} TimesNone(releases: seq<Release>, c: Cid)
    ensures Times(releases, c) == 0 <==> forall i :: 0 <= i < |releases| ==> releases[i].cid != c
  {
    if releases != [] {
      TimesNone(releases[1..], c);
      assert forall i :: 1 <= i < |releases| ==> releases[i] == releases[1..][i - 1];
    }
  }

  lemma {:induction false} TimesOnce(releases: seq<Release>, c: Cid)
    ensures Times(releases, c) <= 1 <==>
              forall i, j :: 0 <= i < j < |releases| ==> releases[i].cid != c || releases[j].cid != c
  {
    if releases != [] {
      var rest := releases[1..];
      TimesOnce(rest, c);
      TimesNone(rest, c);
      assert forall i :: 1 <= i < |releases| ==> releases[i] == rest[i - 1];
      forall i, j | 0 <= i < j < |rest| && Times(releases, c) <= 1 ensures rest[i].cid != c || rest[j].cid != c {
        assert releases[i + 1] == rest[i] && releases[j + 1] == rest[j];
      }
      if Times(releases, c) > 1 && releases[0].cid == c {
        var j :| 0 <= j < |rest| && rest[j].cid == c;
        assert releases[j + 1].cid == c;
      }
      if Times(rest, c) > 1 {
        var i, j :| 0 <= i < j < |rest| && rest[i].cid == c && rest[j].cid == c;
        assert releases[i + 1].cid == c && releases[j + 1].cid == c;
      }
    }
  }

  lemma ReportedIs(w: World, log: EndedLog, c: Cid)
    ensures c in ReportedOn(w, log) <==> ReportedBy(w, log, c)
  {
  }

  lemma LastIs(w: World, log: EndedLog, x: InputId, c: Cid)
    ensures var d := LastDecision(w.decisions, c);
            && (NothingAgainst(w, log, c) <==>
                  d.None? || (!d.value.verdict.FoundAtBroker? && (d.value.run.None? || d.value.run == Some(log.run))))
            && (DecidedFor(w, x, c) <==>
                  d.Some? && SettlesNeverSent(d.value.verdict) && d.value.input == Some(x) && d.value.run.Some?)
  {
    LastOnIs(w.decisions, c);
  }

  /** An order is judged never sent exactly when the files and the log say so, on the evidence they give. */
  lemma JudgedExactly(w: World, log: EndedLog, x: InputId, c: Cid)
    requires Release(x, c) in log.releases
    ensures Evidence(w, log, x, c).Shown? <==> ToSettle(w, log, x, c)
    ensures ToSettle(w, log, x, c) ==> Evidence(w, log, x, c) == Shown(EvidenceFor(w, x, c))
  {
    TimesOnce(log.releases, c);
    ReportedIs(w, log, c);
    LastIs(w, log, x, c);
  }

  /** Nothing for the owner to act on: the order was simply sent. Nothing contradicts its records, and either IBKR
      reported on an order they never claim unsent, or the log retires it, or it is marked sent, or its input was
      cleared with no never-sent decision or mark on it. */
  ghost predicate WasSent(w: World, log: EndedLog, x: InputId, c: Cid) {
    var claimed := Marked(w, c, NeverSent) || UnmarkedFor(w, x, c) || LastSays(w, c, Some(x));
    && ReleasedOnce(log, c) && NothingAgainst(w, log, c)
    && (c in w.marks ==> w.marks[c] == NeverSent || w.marks[c] == Sent)
    && if ReportedBy(w, log, c) then !claimed
       else c in log.retired || Marked(w, c, Sent)
            || (!Marked(w, c, NeverSent) && !UnmarkedFor(w, x, c) && forall y :: !LastSays(w, c, y))
  }

  /** Its last decision says never sent, and was recorded for y. */
  ghost predicate LastSays(w: World, c: Cid, y: Option<InputId>) {
    exists i :: LastOn(w.decisions, c, i) && w.decisions[i].input == y &&
      (w.decisions[i].verdict.DecidedNeverSent? || w.decisions[i].verdict.NotHandedOver?
          || w.decisions[i].verdict.Retired?)
  }

  /** Every order the log released is settled, or simply sent, or refused with a reason the owner must act on. */
  lemma RefusedExactly(w: World, log: EndedLog, x: InputId, c: Cid)
    requires Release(x, c) in log.releases
    ensures Evidence(w, log, x, c).SimplySent? <==> WasSent(w, log, x, c)
    ensures Evidence(w, log, x, c).RefusedOrder? <==> !ToSettle(w, log, x, c) && !WasSent(w, log, x, c)
  {
    TimesOnce(log.releases, c);
    ReportedIs(w, log, c);
    LastIs(w, log, x, c);
    LastOnIs(w.decisions, c);
    JudgedExactly(w, log, x, c);
    var d := LastDecision(w.decisions, c);
    assert forall y :: LastSays(w, c, y) <==> d.Some? && SettlesNeverSent(d.value.verdict) && d.value.input == y;
    var says := d.Some? && SettlesNeverSent(d.value.verdict);
    assert says ==> LastSays(w, c, d.value.input);
    assert NothingAgainst(w, log, c) <==>
      (d.None? || (!d.value.verdict.FoundAtBroker? && (d.value.run.None? || d.value.run == Some(log.run))));
    if ReportedBy(w, log, c) {
      assert Evidence(w, log, x, c).SimplySent? <==> WasSent(w, log, x, c);
    } else if c in log.retired || Marked(w, c, Sent) {
      assert Evidence(w, log, x, c).SimplySent? <==> WasSent(w, log, x, c);
    } else if UnmarkedFor(w, x, c) {
      assert Evidence(w, log, x, c).SimplySent? <==> WasSent(w, log, x, c);
    } else {
      assert (forall y :: !LastSays(w, c, y)) <==> !says;
      assert Evidence(w, log, x, c).SimplySent? <==> WasSent(w, log, x, c);
    }
  }

  lemma SettledIs(w: World, log: EndedLog, c: Cid)
    ensures c in Still(w, log, log.releases) <==> Settles(w, log, c)
  {
    StillMember(w, log, log.releases, c);
    if Settles(w, log, c) {
      var x :| ToSettle(w, log, x, c);
      JudgedExactly(w, log, x, c);
      assert Release(x, c).cid == c;
    }
    if c in Still(w, log, log.releases) {
      var r :| r in log.releases && r.cid == c && Evidence(w, log, r.input, c).Shown?;
      assert r == Release(r.input, c);
      JudgedExactly(w, log, r.input, c);
    }
  }

  lemma {:induction false} LastRunIs(ds: seq<Decision>)
    ensures forall i :: LastRunOn(ds, i) ==> LastRun(ds) == ds[i].run
    ensures LastRun(ds).Some? ==> exists i :: LastRunOn(ds, i)
    decreases |ds|
  {
    if ds != [] {
      var n := |ds| - 1;
      LastRunIs(ds[..n]);
      if ds[n].run.Some? {
        assert LastRunOn(ds, n);
      } else {
        forall i | LastRunOn(ds, i) ensures LastRun(ds) == ds[i].run { assert LastRunOn(ds[..n], i); }
        if LastRun(ds[..n]).Some? {
          var i :| LastRunOn(ds[..n], i);
          assert LastRunOn(ds, i);
        }
      }
    }
  }

  // ----- What the command leaves -----

  /** The settlement file: the other logs' lines and this log's still settled as they were, and a line for each order
      newly settled. */
  ghost predicate LeavesFile(w: World, log: EndedLog, lines: seq<Settlement>) {
    forall l :: l in lines <==>
      || (l in w.neverSent && (l.log == log.name ==> Settles(w, log, l.cid)))
      || (&& l.log == log.name && l.run == log.run && ToSettle(w, log, l.input, l.cid)
          && l.evidence == EvidenceFor(w, l.input, l.cid)
          && forall q :: q in w.neverSent ==> q.log != log.name || q.cid != l.cid)
  }

  ghost predicate LeavesMarks(w: World, log: EndedLog, marks: map<Cid, Mark>) {
    forall c :: MarkOf(marks, c) == if Settles(w, log, c) && c !in w.marks then Some(NeverSent) else MarkOf(w.marks, c)
  }

  ghost predicate LeavesOutbox(w: World, log: EndedLog, outbox: seq<Entry>) {
    forall en :: en in outbox <==>
      en in w.outbox && !exists c :: Settles(w, log, c) && NamesRetirementOf(en.id, c)
  }

  /** Each order settled has a decision of this log as its last, and each newly decided names the input that released it
      and the run; no other order's last decision is touched. */
  ghost predicate LeavesDecisions(w: World, log: EndedLog, ds: seq<Decision>) {
    forall c :: if Settles(w, log, c) then
        exists i :: LastOn(ds, c, i) && ds[i].verdict.DecidedNeverSent? && ds[i].log == Some(log.name)
                    && (Some(ds[i]) == LastDecision(w.decisions, c)
                        || (ds[i].run == Some(log.run) && ds[i].input.Some? && ToSettle(w, log, ds[i].input.value, c)))
      else LastDecision(ds, c) == LastDecision(w.decisions, c)
  }

  lemma {:induction false} NewLinesAre(w: World, log: EndedLog, releases: seq<Release>)
    requires forall r :: r in releases ==> r in log.releases
    ensures forall l :: l in NewLines(w, log, releases) <==>
              && l.log == log.name && l.run == log.run && Release(l.input, l.cid) in releases
              && ToSettle(w, log, l.input, l.cid) && l.evidence == EvidenceFor(w, l.input, l.cid)
              && !HasLine(w.neverSent, log.name, l.cid)
  {
    if releases != [] {
      var r := releases[0];
      var rest := releases[1..];
      assert releases == [r] + rest && r == Release(r.input, r.cid);
      NewLinesAre(w, log, rest);
      JudgedExactly(w, log, r.input, r.cid);
      var j := Evidence(w, log, r.input, r.cid);
      var one := if j.Shown? && !HasLine(w.neverSent, log.name, r.cid)
                 then [Settlement(log.name, log.run, r.input, j.evidence, r.cid)] else [];
      assert NewLines(w, log, releases) == one + NewLines(w, log, rest);
      assert forall l :: l in one + NewLines(w, log, rest) <==> l in one || l in NewLines(w, log, rest);
    }
  }

  lemma FileIs(w: World, log: EndedLog)
    ensures LeavesFile(w, log, FinalLines(w, log))
  {
    var still := Still(w, log, log.releases);
    var kept, added := KeptLines(w.neverSent, log.name, still), NewLines(w, log, log.releases);
    NewLinesAre(w, log, log.releases);
    KeptLinesAmong(w.neverSent, log.name, still);
    forall c ensures c in still <==> Settles(w, log, c) { SettledIs(w, log, c); }
    assert forall l :: l in kept + added <==> l in kept || l in added;
    forall l | l in w.neverSent && FileActs(w, log) == [] ensures l.log == log.name ==> l.cid in still {
      assert !Withdraws(w, log, still);
    }
    assert forall l, c :: l in w.neverSent && l.log == log.name && l.cid == c ==> HasLine(w.neverSent, log.name, c);
    assert forall l: Settlement :: ToSettle(w, log, l.input, l.cid) ==> Release(l.input, l.cid) in log.releases;
  }

  lemma MarksAre(w: World, log: EndedLog)
    ensures LeavesMarks(w, log, FinalMarks(w, Still(w, log, log.releases)))
  {
    forall c ensures c in Still(w, log, log.releases) <==> Settles(w, log, c) { SettledIs(w, log, c); }
  }

  lemma OutboxIs(w: World, log: EndedLog)
    requires QueuedAsSuch(w)
    ensures LeavesOutbox(w, log, FinalOutbox(w, Still(w, log, log.releases)))
  {
    var still := Still(w, log, log.releases);
    var ids := RetirementsOfAll(w.outbox, still);
    forall en ensures en in FinalOutbox(w, still) <==>
                        en in w.outbox && !exists c :: Settles(w, log, c) && NamesRetirementOf(en.id, c)
    {
      WithoutMember(w.outbox, ids, en);
      forall c ensures c in still <==> Settles(w, log, c) { SettledIs(w, log, c); }
      if en in w.outbox && en.id in ids {
        var c :| c in still && en.id in RetirementsOf(w.outbox, c);
        assert NamesRetirementOf(en.id, c);
      }
      if en in w.outbox && exists c :: Settles(w, log, c) && NamesRetirementOf(en.id, c) {
        var c :| Settles(w, log, c) && NamesRetirementOf(en.id, c);
        assert en.id in RetirementsOf(w.outbox, c) && c in still;
      }
    }
  }

  /** After its decisions, each order among s not yet decided for this log has its new one last; the rest is as it
      was. */
  lemma {:induction false} DecisionsLeft(w: World, log: EndedLog, w1: World, s: seq<Cid>)
    ensures var w' := Exec(w1, DecideActs(w, log, s));
            forall c :: LastDecision(w'.decisions, c) == if c in s && !DecidedForLog(w, log, c)
                                                         then Some(NewDecision(w, log, c))
                                                         else LastDecision(w1.decisions, c)
    decreases |s|
  {
    if s != [] {
      assert s == [s[0]] + s[1..];
      if DecidedForLog(w, log, s[0]) {
        assert DecideActs(w, log, s) == DecideActs(w, log, s[1..]);
        DecisionsLeft(w, log, w1, s[1..]);
      } else {
        var d := NewDecision(w, log, s[0]);
        var w2 := Apply(w1, Decide(d));
        forall c ensures LastDecision(w2.decisions, c) == if c == s[0] then Some(d) else LastDecision(w1.decisions, c) {
          LastDecisionAppend(w1.decisions, d, c);
        }
        DecisionsLeft(w, log, w2, s[1..]);
        assert DecideActs(w, log, s)[1..] == DecideActs(w, log, s[1..]);
      }
    }
  }

  lemma DecisionsAre(e: Engine, w: World, log: EndedLog, ds: seq<Decision>)
    requires Consistent(e, w, log) && ds == Exec(w, DecideActs(w, log, Still(w, log, log.releases))).decisions
    ensures LeavesDecisions(w, log, ds)
  {
    var still := Still(w, log, log.releases);
    DecisionsLeft(w, log, w, still);
    forall c | Settles(w, log, c)
      ensures exists i :: LastOn(ds, c, i) && ds[i].verdict.DecidedNeverSent? && ds[i].log == Some(log.name)
                          && (Some(ds[i]) == LastDecision(w.decisions, c)
                              || (ds[i].run == Some(log.run) && ds[i].input.Some?
                                     && ToSettle(w, log, ds[i].input.value, c)))
    {
      SettledIs(w, log, c);
      var i := LastDecisionFound(ds, c);
      LastDecisionAt(ds, c, i);
      var x :| ToSettle(w, log, x, c);
      InputOfIs(e, w, log, x, c);
    }
    forall c | !Settles(w, log, c) ensures LastDecision(ds, c) == LastDecision(w.decisions, c) {
      SettledIs(w, log, c);
    }
  }

  predicate OfSettling(a: Act) {
    a.Decide? || a.WriteNeverSent? || a.SetMark? || a.Strike?
  }

  lemma {:induction false} SettlingKeeps(w: World, acts: seq<Act>)
    requires forall i :: 0 <= i < |acts| ==> OfSettling(acts[i])
    ensures var w' := Exec(w, acts); w'.sends == w.sends && w'.last == w.last && w'.waiting == w.waiting
    decreases |acts|
  {
    if acts != [] { SettlingKeeps(Apply(w, acts[0]), acts[1..]); }
  }

  lemma {:induction false} DecideActsAre(w: World, log: EndedLog, still: seq<Cid>)
    ensures forall i :: 0 <= i < |DecideActs(w, log, still)| ==> DecideActs(w, log, still)[i].Decide?
  {
    if still != [] { DecideActsAre(w, log, still[1..]); }
  }

  lemma {:induction false} MarkActsAre(w: World, still: seq<Cid>)
    ensures forall i :: 0 <= i < |MarkActs(w, still)| ==> MarkActs(w, still)[i].SetMark?
  {
    if still != [] { MarkActsAre(w, still[1..]); }
  }

  ghost predicate LeavesSettled(w: World, log: EndedLog, w': World) {
    && LeavesFile(w, log, w'.neverSent) && LeavesMarks(w, log, w'.marks) && LeavesOutbox(w, log, w'.outbox)
    && LeavesDecisions(w, log, w'.decisions)
    && w'.sends == w.sends && w'.last == w.last && w'.waiting == w.waiting
  }

  /** settle_ended_run is accepted exactly for the log of the run that ended, settles exactly the orders its log and the
      adapter's files show never sent, and leaves for them, and for no other, a line with its evidence, a decision, a
      never-sent mark and no queued retirement; it hands nothing over and leaves the waiting input. */
  lemma SettledExactly(e: Engine, w: World, log: EndedLog)
    requires Consistent(e, w, log) && QueuedAsSuch(w)
    ensures SettleEndedRun(w, log).Some? <==> OfTheRun(w, log)
    ensures OfTheRun(w, log) ==> LeavesSettled(w, log, Exec(w, SettleEndedRun(w, log).value))
  {
    LastRunIs(w.decisions);
    if OfTheRun(w, log) {
      CommandResult(w, log);
      FileIs(w, log);
      MarksAre(w, log);
      OutboxIs(w, log);
      CommandDecides(e, w, log);
    }
  }

  /** What the command does after its decisions. */
  function RestActs(w: World, log: EndedLog): seq<Act> {
    var still := Still(w, log, log.releases);
    FileActs(w, log) + (MarkActs(w, still) + [Strike(RetirementsOfAll(w.outbox, still))])
  }

  lemma CommandSplits(w: World, log: EndedLog)
    requires SettleEndedRun(w, log).Some?
    ensures SettleEndedRun(w, log).value == DecideActs(w, log, Still(w, log, log.releases)) + RestActs(w, log)
  {
  }

  lemma RestKeeps(w: World, log: EndedLog, w1: World)
    ensures Exec(w1, RestActs(w, log)).decisions == w1.decisions
  {
    MarkActsAre(w, Still(w, log, log.releases));
    DecisionsKept(w1, RestActs(w, log));
  }

  lemma CommandDecides(e: Engine, w: World, log: EndedLog)
    requires Consistent(e, w, log) && SettleEndedRun(w, log).Some?
    ensures var w' := Exec(w, SettleEndedRun(w, log).value);
            && LeavesDecisions(w, log, w'.decisions)
            && w'.sends == w.sends && w'.last == w.last && w'.waiting == w.waiting
  {
    var a, rest := DecideActs(w, log, Still(w, log, log.releases)), RestActs(w, log);
    CommandSplits(w, log);
    CommandKeeps(w, log);
    ExecConcat(w, a, rest);
    RestKeeps(w, log, Exec(w, a));
    DecisionsAre(e, w, log, Exec(w, a).decisions);
  }

  lemma CommandKeeps(w: World, log: EndedLog)
    requires SettleEndedRun(w, log).Some?
    ensures var w' := Exec(w, SettleEndedRun(w, log).value);
            w'.sends == w.sends && w'.last == w.last && w'.waiting == w.waiting
  {
    CommandSplits(w, log);
    DecideActsAre(w, log, Still(w, log, log.releases));
    MarkActsAre(w, Still(w, log, log.releases));
    SettlingKeeps(w, SettleEndedRun(w, log).value);
  }

  /** In every reachable world. */
  lemma SettledInEveryRun(e: Engine, w: World, evs: seq<Event>, log: EndedLog)
    requires e.OneRelease() && Initial(w) && Sound(e, evs) && LogSound(e, log)
    ensures var w' := RunOf(e, w, evs); Consistent(e, w', log) && QueuedAsSuch(w')
  {
    ReachedBacked(e, w, evs);
    ReachableIsConsistent(e, RunOf(e, w, evs), log);
  }
}
