/** The two settlements of an engine run that ended (adapter/ibkr/relay.py: settle_ended_run and
    resolve_run_ended), as lists of atomic acts on the hand-over's world. */
module EndedRun {
  import opened Wrappers
  import opened Handover

  // ----- settle_ended_run -----

  datatype Release = Release(input: InputId, cid: Cid)

  /** The ended run's durable log: what its committed replies released, and the orders its inputs retire
      or report on. */
  datatype EndedLog =
    EndedLog(name: nat, run: Run, releases: seq<Release>, retired: set<Cid>, reported: set<Cid>)

  function Times(releases: seq<Release>, c: Cid): nat {
    if releases == [] then 0 else (if releases[0].cid == c then 1 else 0) + Times(releases[1..], c)
  }

  function ReportedOn(w: World, log: EndedLog): set<Cid> {
    log.reported + set en | en in w.outbox && en.kind.Report? && en.cid.Some? :: en.cid.value
  }

  /** Why an order is or is not settled: `evidence` when its records show it never sent, and otherwise
      whether the owner must act on the refusal. */
  datatype Judgement = Shown(evidence: EvidenceKind) | RefusedOrder | SimplySent

  /** The records on c, released by input x of the run: its mark, its last decision, whether x awaits its
      reply, the relay's refusal, whether IBKR reported on it, whether the log retires it, how often the
      log released it. */
  function Judge(c: Cid, x: InputId, run: Run, mark: Option<Mark>, lastOne: Option<Decision>, waiting: bool,
                 refusal: Option<Refusal>, reported: bool, retired: bool, times: nat): Judgement {
    var says := lastOne.Some? && SettlesNeverSent(lastOne.value.verdict);
    if mark == Some(AtBroker) || (lastOne.Some? && lastOne.value.verdict.FoundAtBroker?) then RefusedOrder
    else if mark == Some(HandingOver) || (mark.Some? && mark.value.Resend?) then RefusedOrder
    else if times > 1 then RefusedOrder
    else if lastOne.Some? && lastOne.value.run.Some? && lastOne.value.run != Some(run) then RefusedOrder
    else if reported then
      if mark == Some(NeverSent) || (mark.None? && waiting) || (says && lastOne.value.input == Some(x))
      then RefusedOrder else SimplySent
    else if retired || mark == Some(Sent) then SimplySent
    else if mark.None? && waiting then
      if refusal.Some? && refusal.value.input == x && refusal.value.cid == c then Shown(RefusedBefore)
      else Shown(Unmarked)
    else if !says then
      if mark == Some(NeverSent) then RefusedOrder else SimplySent
    else if lastOne.value.input.None? || lastOne.value.run.None? then RefusedOrder
    else if lastOne.value.input == Some(x) then Shown(MarkedNeverSent)
    else RefusedOrder
  }

  function Evidence(w: World, log: EndedLog, x: InputId, c: Cid): Judgement {
    Judge(c, x, log.run, MarkOf(w.marks, c), LastDecision(w.decisions, c), w.waiting == Some(x), w.refusal,
          c in ReportedOn(w, log), c in log.retired, Times(log.releases, c))
  }

  function Insert(c: Cid, s: seq<Cid>): seq<Cid> {
    if s == [] then [c]
    else if c < s[0] then [c] + s
    else if c == s[0] then s
    else [s[0]] + Insert(c, s[1..])
  }

  /** The orders the records show never sent, in ID order. */
  function Still(w: World, log: EndedLog, releases: seq<Release>): seq<Cid> {
    if releases == [] then []
    else
      var rest := Still(w, log, releases[1..]);
      if Evidence(w, log, releases[0].input, releases[0].cid).Shown? then Insert(releases[0].cid, rest) else rest
  }

  predicate HasLine(lines: seq<Settlement>, name: nat, c: Cid) {
    exists l :: l in lines && l.log == name && l.cid == c
  }

  /** The new lines, in the order the log released their orders. */
  function NewLines(w: World, log: EndedLog, releases: seq<Release>): seq<Settlement> {
    if releases == [] then []
    else
      var r := releases[0];
      var j := Evidence(w, log, r.input, r.cid);
      (if j.Shown? && !HasLine(w.neverSent, log.name, r.cid)
       then [Settlement(log.name, log.run, r.input, j.evidence, r.cid)] else [])
      + NewLines(w, log, releases[1..])
  }

  function KeptLines(lines: seq<Settlement>, name: nat, still: seq<Cid>): seq<Settlement> {
    if lines == [] then []
    else (if lines[0].log != name || lines[0].cid in still then [lines[0]] else []) + KeptLines(lines[1..], name, still)
  }

  /** The input c's settlement names: the one a kept line names, else the one that released it. */
  function InputOf(w: World, log: EndedLog, c: Cid): InputId {
    var line := LineInput(w.neverSent, log.name, c);
    if line.Some? then line.value else ReleaseInput(log.releases, c)
  }

  function LineInput(lines: seq<Settlement>, name: nat, c: Cid): Option<InputId> {
    if lines == [] then None
    else if lines[|lines| - 1].log == name && lines[|lines| - 1].cid == c then Some(lines[|lines| - 1].input)
    else LineInput(lines[..|lines| - 1], name, c)
  }

  function ReleaseInput(releases: seq<Release>, c: Cid): InputId {
    if releases == [] then Plain(0)
    else if releases[0].cid == c then releases[0].input else ReleaseInput(releases[1..], c)
  }

  predicate DecidedForLog(w: World, log: EndedLog, c: Cid) {
    var d := LastDecision(w.decisions, c);
    d.Some? && d.value.verdict.DecidedNeverSent? && d.value.log == Some(log.name)
  }

  function DecideActs(w: World, log: EndedLog, still: seq<Cid>): seq<Act> {
    if still == [] then []
    else
      var c := still[0];
      (if DecidedForLog(w, log, c) then []
       else [Decide(Decision(c, DecidedNeverSent, Some(InputOf(w, log, c)), Some(log.run), Some(log.name), true))])
      + DecideActs(w, log, still[1..])
  }

  function MarkActs(w: World, still: seq<Cid>): seq<Act> {
    if still == [] then []
    else (if still[0] in w.marks then [] else [SetMark(still[0], NeverSent)]) + MarkActs(w, still[1..])
  }

  function RetirementsOfAll(s: seq<Entry>, still: seq<Cid>): set<InputId> {
    set c, x | c in still && x in RetirementsOf(s, c) :: x
  }

  /** The run the decisions last record. */
  function LastRun(ds: seq<Decision>): Option<Run> {
    if ds == [] then None
    else if ds[|ds| - 1].run.Some? then ds[|ds| - 1].run else LastRun(ds[..|ds| - 1])
  }

  predicate IsTheEndedRun(w: World, log: EndedLog) {
    if w.waiting.Some? then w.runOf == Some(RunRecord(w.waiting.value, log.run))
    else LastRun(w.decisions) == Some(log.run)
  }

  predicate Withdraws(w: World, log: EndedLog, still: seq<Cid>) {
    exists l :: l in w.neverSent && l.log == log.name && l.cid !in still
  }

  function FileActs(w: World, log: EndedLog): seq<Act> {
    var still := Still(w, log, log.releases);
    var added := NewLines(w, log, log.releases);
    if added != [] || Withdraws(w, log, still)
    then [WriteNeverSent(KeptLines(w.neverSent, log.name, still) + added)] else []
  }

  /** settle_ended_run: the decisions, then the file, then the marks, then the strike; None when refused. */
  function SettleEndedRun(w: World, log: EndedLog): Option<seq<Act>> {
    if !IsTheEndedRun(w, log) then None
    else
      var still := Still(w, log, log.releases);
      Some(DecideActs(w, log, still) + FileActs(w, log) + MarkActs(w, still)
           + [Strike(RetirementsOfAll(w.outbox, still))])
  }

  // ----- resolve_run_ended -----

  /** What the logs say: the orders the fresh run released, the orders the earlier runs of the chain
      released, and the reply to the waiting input when one of them committed it. */
  datatype Chain = Chain(current: set<Cid>, earlier: set<Cid>, reply: Option<seq<Cid>>)

  predicate IsRetirement(en: Entry) {
    en.kind.Retire? || !en.id.Plain?
  }

  predicate Malformed(en: Entry) {
    IsRetirement(en) && !en.sound
  }

  /** The orders a queued retirement may retire: its payload's, and the one its entry ID names. */
  function OrdersRetired(en: Entry): set<Cid> {
    (if en.cid.Some? then {en.cid.value} else {}) + (if en.id.Plain? then {} else {en.id.cid})
  }

  function FoundFor(w: World, x: InputId): set<Cid> {
    (set c | c in w.marks && w.marks[c].AtBroker?)
    + set d | d in w.decisions && d.verdict.FoundAtBroker? && d.input == Some(x) :: d.cid
  }

  /** The entries settled with the input: earlier runs' reports, and retirements of no order of the fresh run
      (`own`: the orders it released that IBKR was not found showing). */
  predicate Behind(en: Entry, x: InputId, named: set<InputId>, earlier: set<Cid>, own: set<Cid>) {
    && en.id != x && en.id !in named && !Malformed(en) && en.cid.Some?
    && ((en.kind.Report? && en.cid.value in earlier) || (IsRetirement(en) && en.cid.value !in own))
  }

  function BehindOf(s: seq<Entry>, x: InputId, named: set<InputId>, earlier: set<Cid>, own: set<Cid>): seq<Entry> {
    if s == [] then []
    else (if Behind(s[0], x, named, earlier, own) then [s[0]] else []) + BehindOf(s[1..], x, named, earlier, own)
  }

  function MalformedOf(s: seq<Entry>): seq<Entry> {
    if s == [] then [] else (if Malformed(s[0]) then [s[0]] else []) + MalformedOf(s[1..])
  }

  function Excluding(s: seq<Entry>, t: seq<Entry>): seq<Entry> {
    if s == [] then [] else (if s[0] in t then [] else [s[0]]) + Excluding(s[1..], t)
  }

  function NamedAside(ended: seq<EndedInput>, x: InputId): seq<Entry> {
    if ended == [] then [] else (if ended[0].input == x then ended[0].setAside else []) + NamedAside(ended[1..], x)
  }

  function Unsent(marks: map<Cid, Mark>, decisions: seq<Decision>, x: InputId, orders: seq<Cid>): seq<Cid> {
    if orders == [] then []
    else
      var m, d := MarkOf(marks, orders[0]), LastDecision(decisions, orders[0]);
      (if m == Some(Sent) || m == Some(AtBroker)
          || (d.Some? && d.value.verdict.FoundAtBroker? && d.value.input == Some(x))
       then [] else [orders[0]])
      + Unsent(marks, decisions, x, orders[1..])
  }

  /** resolve --run-ended: set aside, then recorded, then struck, then cleared; None when refused. */
  function ResolveRunEnded(w: World, chain: Chain, setAsideMalformed: bool): Option<seq<Act>> {
    if !EarlierRun(w) || w.runOf.None? || w.runOf.value.input != w.waiting.value then None
    else
      var x := w.waiting.value;
      var malformed := MalformedOf(w.outbox);
      var own := chain.current - FoundFor(w, x);
      if malformed != [] && !setAsideMalformed then None
      else if exists en :: en in malformed && OrdersRetired(en) * own != {} then None
      else
        var behind := BehindOf(w.outbox, x, RunEndedIds(w), chain.earlier, own);
        Some(EndingActs(w, chain, x, behind, malformed))
  }

  function EndingActs(w: World, chain: Chain, x: InputId, behind: seq<Entry>, malformed: seq<Entry>): seq<Act>
    requires w.runOf.Some?
  {
    var added := Excluding(malformed, w.setAside);
    var unnamed := Excluding(malformed, NamedAside(w.ended, x));
    var unsent := if chain.reply.Some? then Unsent(w.marks, w.decisions, x, chain.reply.value) else [];
    (if added == [] then [] else [SetAside(added)])
    + (if x !in RunEndedIds(w) || behind != [] || unnamed != []
       then [RecordEnded(EndedInput(x, w.runOf.value.run, unsent, behind, unnamed))] else [])
    + [Strike({x} + Ids(behind) + Ids(malformed))] + ClearActs
  }
}
