/** The adapter's write-ahead hand-over of released orders (adapter/ibkr/relay.py).

    A `World` is everything a stop can leave behind: the adapter's files, the engine's committed
    inputs, and a history that no program reads. Each operation (a pass over the orders an input
    released, an owner's command) is the list of atomic acts it performs, and a stop leaves any
    prefix of that list applied. What the source reads is read from the world the operation
    starts in, or from the world its earlier acts left, exactly where the source reads it. */
module Handover {
  import opened Wrappers

  type Cid = nat
  type Day = int
  type Run = nat

  /** An input's ID. A retirement's entry is named after its order, or after its order and an input. */
  datatype InputId = Plain(n: nat) | Retirement(cid: Cid) | RetirementFor(cid: Cid, released: InputId)

  datatype Mark = HandingOver | Sent | NeverSent | AtBroker | Resend(day: Day)

  datatype Verdict = DecidedSent | DecidedResend | DecidedNeverSent | NotHandedOver | Retired | FoundAtBroker

  /** One recorded decision. `log` is set only by a settlement of an ended run; `readable` says that a
      retirement's reason, detail and author are ones the relay records. */
  datatype Decision =
    Decision(cid: Cid, verdict: Verdict, input: Option<InputId>, run: Option<Run>, log: Option<nat>, readable: bool)

  datatype EntryKind = Report | Retire | Other

  /** One input queued for the engine. `sound` says that it reads as a retirement the relay queues. */
  datatype Entry = Entry(id: InputId, kind: EntryKind, cid: Option<Cid>, sound: bool)

  datatype Refusal = Refusal(input: InputId, cid: Cid, unsendable: bool)

  datatype RunRecord = RunRecord(input: InputId, run: Run)

  datatype EndedInput = EndedInput(input: InputId, run: Run, unsent: seq<Cid>, outbox: seq<Entry>, setAside: seq<Entry>)

  datatype EvidenceKind = Unmarked | RefusedBefore | MarkedNeverSent

  datatype Settlement = Settlement(log: nat, run: Run, input: InputId, evidence: EvidenceKind, cid: Cid)

  datatype SendResult = Returned | NothingHandedOver | Unconfirmed

  datatype CheckResult = Accepted | SessionOver | Unsendable | Refused

  datatype ReplyResult = NotReached | CommittedOnly | Replied

  datatype World = World(
    // the adapter's files
    waiting: Option<InputId>,
    runOf: Option<RunRecord>,
    marks: map<Cid, Mark>,
    decisions: seq<Decision>,
    refusal: Option<Refusal>,
    notHandedOver: Option<Refusal>,
    outbox: seq<Entry>,
    setAside: seq<Entry>,
    ended: seq<EndedInput>,
    neverSent: seq<Settlement>,
    // the relay's memory, lost at a stop
    sent: set<Cid>,
    // the engine now running
    run: Run,
    committed: set<InputId>,
    // history, read by no program
    sends: multiset<Cid>,
    last: map<Cid, SendResult>,
    overruled: set<Cid>,
    closed: set<InputId>,
    queued: multiset<InputId>)

  /** The engine: the orders its reply to each input releases to be sent, in order, and the session
      each input's event time falls in (absent when it cannot be read). */
  datatype Engine = Engine(replies: map<InputId, seq<Cid>>, sessions: map<InputId, Day>)
  {
    function Released(x: InputId): seq<Cid> {
      if x in replies then replies[x] else []
    }

    function Session(x: InputId): Option<Day> {
      if x in sessions then Some(sessions[x]) else None
    }

    /** A client order ID is released once, by one input, and a retirement's reply releases nothing. */
    ghost predicate OneRelease() {
      && (forall x, y, c :: c in Released(x) && c in Released(y) ==> x == y)
      && (forall x, c :: c in Released(x) ==> x.Plain?)
      && (forall x, i, j :: 0 <= i < j < |Released(x)| ==> Released(x)[i] != Released(x)[j])
    }
  }

  /** What the outside answers during one pass: IBKR's lists, the sender, the engine's link, the day. */
  datatype Env = Env(broker: set<Cid>, check: Cid -> CheckResult, handOver: Cid -> SendResult, today: Day,
                     reply: ReplyResult)

  /** The sender's check: a session is over only when it is before today's. */
  function Check(e: Engine, x: InputId, env: Env, c: Cid): CheckResult {
    var r := env.check(c);
    if r.SessionOver? && !(e.Session(x).Some? && e.Session(x).value < env.today) then Refused else r
  }

  // ----- Atomic acts -----

  datatype Act =
    | Save(x: InputId)
    | Ask(x: InputId)
    | RecordRun(x: InputId, run: Run)
    | SetMark(c: Cid, m: Mark)
    | Decide(d: Decision)
    | Queue(en: Entry)
    | Strike(ids: set<InputId>)
    | RecordRefusal(r: Refusal)
    | ForgetNotHandedOver
    | RecordNotHandedOver(r: Refusal)
    | Send(c: Cid, result: SendResult, releasedBy: InputId)
    | NoteSent(c: Cid)
    | SetAside(es: seq<Entry>)
    | RecordEnded(s: EndedInput)
    | WriteNeverSent(lines: seq<Settlement>)
    | RemoveInput | RemoveMarks | RemoveRefusal | RemoveRun
    | Crash | StartFreshRun

  function Ids(s: seq<Entry>): set<InputId> {
    set en | en in s :: en.id
  }

  function Without(s: seq<Entry>, ids: set<InputId>): seq<Entry> {
    if s == [] then [] else (if s[0].id in ids then [] else [s[0]]) + Without(s[1..], ids)
  }

  /** A decision on the input whose run is recorded carries that run. */
  function Tagged(w: World, d: Decision): Decision {
    if d.run.None? && w.runOf.Some? && d.input == Some(w.runOf.value.input) then d.(run := Some(w.runOf.value.run))
        else d
  }

  function LastDecision(ds: seq<Decision>, c: Cid): Option<Decision> {
    if ds == [] then None
    else if ds[|ds| - 1].cid == c then Some(ds[|ds| - 1])
    else LastDecision(ds[..|ds| - 1], c)
  }

  function LastRetired(ds: seq<Decision>, c: Cid): Option<Decision> {
    if ds == [] then None
    else if ds[|ds| - 1].cid == c && ds[|ds| - 1].verdict.Retired? then Some(ds[|ds| - 1])
    else LastRetired(ds[..|ds| - 1], c)
  }

  /** How often the owner allowed c to be sent again. */
  function Resends(ds: seq<Decision>, c: Cid): nat {
    if ds == [] then 0
    else Resends(ds[..|ds| - 1], c) + if ds[|ds| - 1].cid == c && ds[|ds| - 1].verdict.DecidedResend? then 1 else 0
  }

  predicate SettlesNeverSent(v: Verdict) {
    v.DecidedNeverSent? || v.NotHandedOver? || v.Retired?
  }

  /** The last decision on c says it was never sent, recorded for input x. */
  predicate SaysNeverSent(w: World, c: Cid, x: InputId) {
    var d := LastDecision(w.decisions, c);
    d.Some? && SettlesNeverSent(d.value.verdict) && d.value.input == Some(x)
  }

  predicate LastDecided(w: World, c: Cid, v: Verdict, x: Option<InputId>) {
    var d := LastDecision(w.decisions, c);
    d.Some? && d.value.verdict == v && d.value.input == x
  }

  function Apply(w: World, a: Act): World {
    match a
    case Save(x) => w.(waiting := Some(x))
    case Ask(x) => w.(committed := w.committed + {x})
    case RecordRun(x, run) => w.(runOf := Some(RunRecord(x, run)))
    case SetMark(c, m) => w.(marks := w.marks[c := m])
    case Decide(d) => w.(decisions := w.decisions + [Tagged(w, d)])
    case Queue(en) => w.(outbox := w.outbox + [en], queued := w.queued + multiset{en.id})
    case Strike(ids) => w.(outbox := Without(w.outbox, ids))
    case RecordRefusal(r) => w.(refusal := Some(r))
    case ForgetNotHandedOver => w.(notHandedOver := None)
    case RecordNotHandedOver(r) => w.(notHandedOver := Some(r))
    case Send(c, result, x) =>
      w.(sends := w.sends + multiset{c}, last := w.last[c := result],
         overruled := if SaysNeverSent(w, c, x) then w.overruled + {c} else w.overruled - {c})
    case NoteSent(c) => w.(sent := w.sent + {c})
    case SetAside(es) => w.(setAside := w.setAside + es)
    case RecordEnded(s) => w.(ended := w.ended + [s])
    case WriteNeverSent(lines) => w.(neverSent := lines)
    case RemoveInput => w.(waiting := None, closed := if w.waiting.Some? then w.closed + {w.waiting.value}
        else w.closed)
    case RemoveMarks => w.(marks := map[])
    case RemoveRefusal => w.(refusal := None)
    case RemoveRun => w.(runOf := None)
    case Crash => w.(sent := {})
    case StartFreshRun => w.(run := w.run + 1, committed := {})
  }

  function Exec(w: World, acts: seq<Act>): World
    decreases |acts|
  {
    if acts == [] then w else Exec(Apply(w, acts[0]), acts[1..])
  }

  lemma {:induction false} ExecConcat(w: World, a: seq<Act>, b: seq<Act>)
    ensures Exec(w, a + b) == Exec(Exec(w, a), b)
    decreases a
  {
    if a == [] {
      assert a + b == b;
    } else {
      assert (a + b)[1..] == a[1..] + b;
      ExecConcat(Apply(w, a[0]), a[1..], b);
    }
  }

  lemma ExecCut(w: World, a: seq<Act>, b: seq<Act>, n: nat)
    requires n <= |a + b|
    ensures Exec(w, (a + b)[..n]) == if n <= |a| then Exec(w, a[..n]) else Exec(Exec(w, a), b[..n - |a|])
  {
    if n <= |a| {
      assert (a + b)[..n] == a[..n];
    } else {
      assert (a + b)[..n] == a + b[..n - |a|];
      ExecConcat(w, a, b[..n - |a|]);
    }
  }

  lemma ExecCons(w: World, a: Act, rest: seq<Act>)
    ensures Exec(w, [a] + rest) == Exec(Apply(w, a), rest)
  {
    assert ([a] + rest)[1..] == rest;
  }

  lemma ExecTwo(w: World, a: Act, b: Act)
    ensures Exec(w, [a, b]) == Apply(Apply(w, a), b)
  {
    ExecCons(w, a, [b]);
    ExecCons(Apply(w, a), b, []);
    assert [a] + [b] == [a, b] && [b] + [] == [b];
  }

  // ----- Reading the records -----

  function MarkOf(marks: map<Cid, Mark>, c: Cid): Option<Mark> {
    if c in marks then Some(marks[c]) else None
  }

  predicate HasRetired(ds: seq<Decision>, c: Cid, x: InputId) {
    exists d :: d in ds && d.cid == c && d.verdict.Retired? && d.input == Some(x)
  }

  predicate NamesRetirementOf(x: InputId, c: Cid) {
    (x.Retirement? || x.RetirementFor?) && x.cid == c
  }

  /** The outbox entries that retire c, in either ID form. */
  function RetirementsOf(s: seq<Entry>, c: Cid): set<InputId> {
    set en | en in s && en.kind.Retire? && NamesRetirementOf(en.id, c) :: en.id
  }

  function RetireEntry(x: InputId): Entry
    requires !x.Plain?
  {
    Entry(x, Retire, Some(x.cid), true)
  }

  function RunEndedIds(w: World): set<InputId> {
    set s, x | s in w.ended && x in {s.input} + Ids(s.outbox) :: x
  }

  /** The input awaiting its reply was sent to a run before the one now running. */
  predicate EarlierRun(w: World) {
    && w.waiting.Some?
    && w.waiting.value !in w.committed
    && w.runOf != Some(RunRecord(w.waiting.value, w.run))
  }

  // ----- The relay's operations -----

  datatype StopReason = AtTheBroker | HandoverUnconfirmed | ResendExpired | NotSendable | RecordInvalid | NoReply

  datatype Outcome = GoOn | Stop(why: StopReason)

  datatype Result = Result(acts: seq<Act>, outcome: Outcome)

  function Append(acts: seq<Act>, r: Result): Result {
    Result(acts + r.acts, r.outcome)
  }

  /** The retirement of c for input x under entry ID id: told to the engine first, then recorded, then marked. */
  function RetireActs(w: World, c: Cid, id: InputId, x: InputId): seq<Act>
    requires !id.Plain?
  {
    (if id in Ids(w.outbox) then [] else [Queue(RetireEntry(id))])
    + [Decide(Decision(c, Retired, Some(x), None, None, true)), SetMark(c, NeverSent)]
  }

  /** IBKR shows c, settled never sent: the finding, then the mark, then every queued retirement struck. */
  function AtBrokerActs(w: World, c: Cid, x: InputId): seq<Act> {
    var owners := MarkOf(w.marks, c) == Some(AtBroker) && LastDecided(w, c, DecidedSent, Some(x));
    (if owners || LastDecided(w, c, FoundAtBroker, Some(x)) then []
     else [Decide(Decision(c, FoundAtBroker, Some(x), None, None, true))])
    + (if MarkOf(w.marks, c) == Some(AtBroker) then [] else [SetMark(c, AtBroker)])
    + [Strike(RetirementsOf(w.outbox, c))]
  }

  /** A retirement a stop left unmarked, finished; None when none was begun. */
  function FinishRetirement(w: World, c: Cid, x: InputId, atBroker: bool): Option<Result> {
    var own := HasRetired(w.decisions, c, x);
    var lastOne := LastRetired(w.decisions, c);
    var unknown := !own && lastOne.Some? && lastOne.value.input.None?;
    var thisInput := unknown && RetirementFor(c, x) in Ids(w.outbox);
    var entry := thisInput || Retirement(c) in Ids(w.outbox);
    if !own && !unknown && !entry then None
    else if atBroker then Some(Result(AtBrokerActs(w, c, x), Stop(AtTheBroker)))
    else if unknown && !entry then
      if lastOne.value.readable then Some(Result(RetireActs(w, c, RetirementFor(c, x), x), GoOn))
      else Some(Result([], Stop(RecordInvalid)))
    else
      Some(Result((if (!own && !unknown) || thisInput then [Decide(Decision(c, Retired, Some(x), None, None, true))]
          else [])
                  + [SetMark(c, NeverSent)], GoOn))
  }

  function HandOverActs(c: Cid, x: InputId, result: SendResult): Result {
    var acts := [ForgetNotHandedOver, SetMark(c, HandingOver), Send(c, result, x)];
    match result
    case Returned => Result(acts + [SetMark(c, Sent), NoteSent(c)], GoOn)
    case NothingHandedOver => Result(acts + [RecordNotHandedOver(Refusal(x, c, false))], Stop(HandoverUnconfirmed))
    case Unconfirmed => Result(acts, Stop(HandoverUnconfirmed))
  }

  /** What the relay does with an order neither settled nor shown at IBKR: its check, then the hand-over. */
  function TrySend(e: Engine, w: World, c: Cid, x: InputId, env: Env): Result {
    match Check(e, x, env, c)
    case SessionOver => Result(RetireActs(w, c, Retirement(c), x), GoOn)
    case Unsendable => Result([RecordRefusal(Refusal(x, c, true))], Stop(NotSendable))
    case Refused => Result([RecordRefusal(Refusal(x, c, false))], Stop(NotSendable))
    case Accepted => HandOverActs(c, x, env.handOver(c))
  }

  /** One released order of a pass, under the mark the pass read as it began. */
  function SettleOrder(e: Engine, w: World, mark: Option<Mark>, c: Cid, x: InputId, env: Env): Result {
    if c in w.sent || mark == Some(Sent) then Result([], GoOn)
    else if mark == Some(AtBroker)
        || ((mark.None? || mark == Some(NeverSent)) && LastDecided(w, c, FoundAtBroker, Some(x))) then
      Result(AtBrokerActs(w, c, x), Stop(AtTheBroker))
    else
      var finished := if mark.None? then FinishRetirement(w, c, x, c in env.broker) else None;
      if finished.Some? then finished.value
      else if mark == Some(NeverSent) then
        if c in env.broker then Result(AtBrokerActs(w, c, x), Stop(AtTheBroker)) else Result([], GoOn)
      else if c in env.broker then Result([NoteSent(c)], GoOn)
      else if mark == Some(HandingOver) then Result([], Stop(HandoverUnconfirmed))
      else if mark.Some? && mark != Some(Resend(env.today)) then
        Result([SetMark(c, HandingOver)], Stop(ResendExpired))
      else TrySend(e, w, c, x, env)
  }

  const ClearActs: seq<Act> := [RemoveInput, RemoveMarks, RemoveRefusal, ForgetNotHandedOver, RemoveRun]

  function SettleOrders(e: Engine, w: World, marks: map<Cid, Mark>, orders: seq<Cid>, x: InputId, env: Env): Result
    decreases |orders|
  {
    if orders == [] then Result([Strike({x})] + ClearActs, GoOn)
    else
      var r := SettleOrder(e, w, MarkOf(marks, orders[0]), orders[0], x, env);
      if r.outcome.Stop? then r
      else Append(r.acts, SettleOrders(e, Exec(w, r.acts), marks, orders[1..], x, env))
  }

  /** One exchange of input x: saved, asked, every released order settled, struck off, cleared. */
  function Pass(e: Engine, w: World, x: InputId, env: Env): Result {
    match env.reply
    case NotReached => Result([Save(x)], Stop(NoReply))
    case CommittedOnly => Result([Save(x), Ask(x)], Stop(NoReply))
    case Replied =>
      var asked := [Save(x), Ask(x)];
      var w' := Exec(w, asked);
      Append(asked, SettleOrders(e, w', w'.marks, e.Released(x), x, env))
  }

  /** One turn of the loop's drain: the waiting input first, and otherwise the entry at i. */
  function Drain(e: Engine, w: World, i: nat, env: Env): Result {
    if w.waiting.Some? then
      if EarlierRun(w) then Result([], Stop(NoReply)) else Pass(e, w, w.waiting.value, env)
    else if i >= |w.outbox| then Result([], GoOn)
    else
      var x := w.outbox[i].id;
      if x in RunEndedIds(w) || x in w.committed then Result([Strike({x})], GoOn)
      else Append([RecordRun(x, w.run)], Pass(e, Apply(w, RecordRun(x, w.run)), x, env))
  }

  /** What the clear leaves of the files. */
  lemma ClearResult(w: World)
    requires w.waiting.Some?
    ensures Exec(w, ClearActs)
            == w.(waiting := None, closed := w.closed + {w.waiting.value}, marks := map[], refusal := None,
                  notHandedOver := None, runOf := None)
  {
    ExecFive(w, RemoveInput, RemoveMarks, RemoveRefusal, ForgetNotHandedOver, RemoveRun);
  }

  lemma ExecFive(w: World, a: Act, b: Act, c: Act, d: Act, f: Act)
    ensures Exec(w, [a, b, c, d, f]) == Apply(Apply(Apply(Apply(Apply(w, a), b), c), d), f)
  {
    var w2, t := Apply(Apply(w, a), b), [c] + [d, f];
    assert [a, b, c, d, f] == [a, b] + t;
    ExecConcat(w, [a, b], t);
    ExecTwo(w, a, b);
    ExecCons(w2, c, [d, f]);
    ExecTwo(Apply(w2, c), d, f);
  }

  // ----- The owner's commands -----

  /** resolve: None when it is refused. */
  function Resolve(e: Engine, w: World, c: Cid, v: Verdict, today: Day): Option<seq<Act>> {
    var d := Decision(c, v, w.waiting, None, None, true);
    var mark := MarkOf(w.marks, c);
    match v
    case NotHandedOver =>
      if w.waiting.Some? && mark == Some(HandingOver) && w.notHandedOver.Some?
         && w.notHandedOver.value.input == w.waiting.value && w.notHandedOver.value.cid == c
      then Some([Decide(d), SetMark(c, NeverSent)]) else None
    case DecidedNeverSent =>
      if w.waiting.Some? && mark.None? && w.refusal.Some? && w.refusal.value.input == w.waiting.value
         && w.refusal.value.cid == c && !w.refusal.value.unsendable
      then Some([Decide(d), SetMark(c, NeverSent)]) else None
    case DecidedSent =>
      if mark == Some(NeverSent) || mark == Some(AtBroker) then
        Some((if mark == Some(AtBroker) then [] else [SetMark(c, AtBroker)])
             + (if LastDecided(w, c, DecidedSent, w.waiting) then [] else [Decide(d)])
             + [Strike(RetirementsOf(w.outbox, c)), SetMark(c, Sent)])
      else if mark == Some(HandingOver) || (mark.Some? && mark.value.Resend?) then Some([Decide(d), SetMark(c, Sent)])
      else None
    case DecidedResend =>
      if mark == Some(HandingOver) && w.waiting.Some? && e.Session(w.waiting.value) == Some(today)
      then Some([Decide(d), SetMark(c, Resend(today))]) else None
    case Retired => None
    case FoundAtBroker => None
  }

  /** retire: the owner's retirement of the order the relay is refusing as one IBKR can never accept. */
  function OwnerRetire(w: World, c: Cid): Option<seq<Act>> {
    if w.waiting.Some? && c !in w.marks && w.refusal.Some? && w.refusal.value.input == w.waiting.value
       && w.refusal.value.cid == c && w.refusal.value.unsendable
    then Some(RetireActs(w, c, Retirement(c), w.waiting.value)) else None
  }
}
