/** The adapter's steps as lists of writes, every run of them, and what every run keeps
    (adapter/ibkr/delivery.py, adapter/ibkr/loop.py, adapter/ibkr/relay.py). */
module DeliveryRuns {
  import opened Wrappers
  import opened Delivery

  /** The account reading a batch needs: taken, not to be had now, or refused with all the batch. */
  datatype Reading = Taken | NotNow | Unreadable

  /** What a delivery meets: the run's files in session order, a fresh snapshot's number, the entries of the batch
      as read, for a batch to finish and for a new one. */
  datatype Delivering = Delivering(finishEntries: seq<Entry>, finishReading: Reading, listing: seq<File>, snapshot: nat,
                                   entries: seq<Entry>, reading: Reading)

  /** What a step's delivery writes, and whether the adapter then stops for a person. */
  datatype Plan = Plan(acts: seq<Act>, goesOn: bool, stops: bool)

  // ----- Delivering -----

  /** _finish's test: the batch's snapshot or reconciliation is in the outbox or committed. */
  predicate Recorded(w: World, snapshot: nat) {
    || Made(snapshot, BrokerSnapshot) in Ids(w.outbox) || Made(snapshot, BrokerSnapshot) in Committed(w, w.running)
    || Made(snapshot, Reconciliation) in Ids(w.outbox) || Made(snapshot, Reconciliation) in Committed(w, w.running)
  }

  /** _finish: a batch a stop left queuing. */
  function FinishPlan(w: World, d: Delivering): Plan
    requires LastQueuing(w)
  {
    var last := w.batches[|w.batches| - 1];
    if Recorded(w, last.snapshot) then Plan([MarkQueued], true, false)
    else if last.run != w.running then Plan([MarkDropped], true, false)
    else match d.finishReading
      case Unreadable => Plan([], false, true)
      case NotNow => Plan([], false, false)
      case Taken => if Disjoint(d.finishEntries, w.outbox) then Plan([Extend(d.finishEntries), MarkQueued], true, false)
          else Plan([], false, true)
  }

  predicate IsDelivered(batches: seq<Batch>, run: Run, f: File) {
    exists n :: 0 <= n < |batches| && batches[n].run == run && !batches[n].state.Dropped? && f in batches[n].files
  }

  function NewFiles(batches: seq<Batch>, run: Run, listing: seq<File>): seq<File> {
    if listing == [] then []
    else (if IsDelivered(batches, run, listing[0]) then [] else [listing[0]]) + NewFiles(batches, run, listing[1..])
  }

  /** Each new file's session is after every session delivered. */
  predicate AllAfter(batches: seq<Batch>, run: Run, files: seq<File>) {
    forall n :: 0 <= n < |batches| && batches[n].run == run && !batches[n].state.Dropped? ==>
        AllBefore(batches[n].files, files)
  }

  predicate HoldsEnvelope(es: seq<Entry>) {
    exists i :: 0 <= i < |es| && es[i].envelope
  }

  /** deliver, with no batch queuing: the next batch of files, unless one is still being sent. */
  function BeginPlan(w: World, d: Delivering): Plan {
    var files := NewFiles(w.batches, w.running, d.listing);
    if HoldsEnvelope(w.outbox) || files == [] then Plan([], true, false)
    else if !AllAfter(w.batches, w.running, files) || !Increasing(files) || d.reading.Unreadable?
        then Plan([], false, true)
    else if d.reading.NotNow? then Plan([], true, false)
    else
      var begin := Begin(Batch(w.running, d.snapshot, files, Queuing, []));
      if Disjoint(d.entries, w.outbox) then Plan([begin, Extend(d.entries), MarkQueued], true, false)
      else Plan([begin], false, true)
  }

  function DeliverPlan(w: World, d: Delivering): Plan {
    if !LastQueuing(w) then BeginPlan(w, d)
    else
      var p := FinishPlan(w, d);
      if !p.goesOn then p
      else
        var q := BeginPlan(Exec(w, p.acts), d);
        Plan(p.acts + q.acts, q.goesOn, q.stops)
  }

  // ----- Draining -----

  /** How the exchange of one input ends: the link or the engine is lost before its commit, or after it, or it is
      answered. */
  datatype Answer = NotReached | CommittedOnly | Answered

  datatype Turn = Turn(awaitsCommission: bool, answer: Answer)

  /** _next_entry: the oldest, except that a broker report behind a stream entry goes before it. */
  function Next(es: seq<Entry>): Entry
    requires es != []
  {
    if es[0].envelope && exists i :: 1 <= i < |es| && es[i].run.None? then es[FirstOther(es)] else es[0]
  }

  function FirstOther(es: seq<Entry>): (i: nat)
    requires exists i :: 0 <= i < |es| && es[i].run.None?
    ensures i < |es| && es[i].run.None?
  {
    if es[0].run.None? then 0
    else
      assert exists i :: 0 <= i < |es[1..]| && es[1..][i].run.None? by {
        var i :| 0 <= i < |es| && es[i].run.None?;
        assert es[1..][i - 1] == es[i];
      }
      1 + FirstOther(es[1..])
  }

  /** The relay's exchange of an input: committed, then struck off, then cleared. */
  function ExchangeActs(w: World, id: Id, answer: Answer): seq<Act> {
    var commit := if id in Committed(w, w.running) then [] else [Commit(id)];
    match answer
    case NotReached => []
    case CommittedOnly => commit
    case Answered => commit + [Strike({id}), Clear]
  }

  function IdsOf(es: seq<Entry>, run: Run): set<Id> {
    set i | 0 <= i < |es| && es[i].run == Some(run) :: es[i].id
  }

  /** An entry struck off unsent: settled with an ended run, or this run's and committed already. */
  predicate Strikes(w: World, e: Entry) {
    e.id in w.settled || (!(e.run.Some? && e.run.value != w.running) && e.id in Committed(w, w.running))
  }

  /** The writes of _drain's loop; a turn that does not end in an answer, or has to wait, is its last. */
  function DrainActs(w: World, due: bool, turns: seq<Turn>): seq<Act>
    decreases |turns|
  {
    if turns == [] || w.outbox == [] then []
    else
      var e, rest := Next(w.outbox), turns[1..];
      if Strikes(w, e) then
        [Strike({e.id})] + DrainActs(Apply(w, Strike({e.id})), due, rest)
      else if e.run.Some? && e.run.value != w.running then
        var acts := [DropQueued(e.run.value), Strike(IdsOf(w.outbox, e.run.value))];
        acts + DrainActs(Exec(w, acts), due, rest)
      else if e.run.Some? && (due || turns[0].awaitsCommission) then []
      else
        var asked := Apply(w, Ask(e.id));
        var acts := ExchangeActs(asked, e.id, turns[0].answer);
        [Ask(e.id)] + acts + if turns[0].answer.Answered? then DrainActs(Exec(asked, acts), due, rest) else []
  }

  // ----- The operations -----

  datatype Op =
    | StartAdapter(run: Run, answer: Answer)
    | StepAdapter(due: bool, delivering: Delivering, waiting: Answer, turns: seq<Turn>)
    | Produce(entry: Entry)
    | SettleRunEnded(behind: set<Id>)

  /** What may step: nothing awaits a reply, or an exchange of this run that was held, its entry still in the
      outbox; start settles any other first, or stops. */
  predicate MayStep(w: World) {
    w.waiting.None? || (w.waiting.value.run == w.running && w.waiting.value.id in Ids(w.outbox))
  }

  /** _settle_waiting: the input of this run that awaits its reply is asked for again. */
  function WaitingActs(w: World, answer: Answer): seq<Act> {
    if w.waiting.None? || w.waiting.value.run != w.running then [] else ExchangeActs(w, w.waiting.value.id, answer)
  }

  function DrainAll(w: World, due: bool, answer: Answer, turns: seq<Turn>): seq<Act> {
    var acts := WaitingActs(w, answer);
    if w.waiting.Some? && !answer.Answered? then acts else acts + DrainActs(Exec(w, acts), due, turns)
  }

  function Acts(w: World, op: Op): seq<Act> {
    match op
    case StartAdapter(run, answer) => [Start(run)] + WaitingActs(Apply(w, Start(run)), answer)
    case StepAdapter(due, delivering, answer, turns) =>
      if !MayStep(w) then []
      else if due then DrainAll(w, due, answer, turns)
      else
        var p := DeliverPlan(w, delivering);
        if p.stops then p.acts else p.acts + DrainAll(Exec(w, p.acts), due, answer, turns)
    case Produce(entry) => if Disjoint([entry], w.outbox) then [Append(entry)] else []
    case SettleRunEnded(behind) =>
      if w.waiting.None? || w.waiting.value.run == w.running then []
      else
        var ids := behind + {w.waiting.value.id};
        [Settle(ids), Strike(ids), Clear]
  }

  datatype Event = Event(op: Op, cut: nat)

  function Cut(acts: seq<Act>, n: nat): seq<Act> {
    if n <= |acts| then acts[..n] else acts
  }

  function Step(w: World, e: Event): World {
    Exec(w, Cut(Acts(w, e.op), e.cut))
  }

  function RunOf(w: World, events: seq<Event>): World
    decreases |events|
  {
    if events == [] then w else RunOf(Step(w, events[0]), events[1..])
  }

  /** What the adapter's own code promises of what it is given: a batch's entries as _entries builds them, a snapshot's
      number never used before, a producer's entry under an ID of its own, and behind a settled input only reports
      and retirements. */
  ghost predicate Sound(w: World, op: Op) {
    match op
    case StartAdapter(_, _) => true
    case StepAdapter(_, d, _, _) =>
      && Unsent(w, d.snapshot) && BatchEntries(w, d.snapshot, d.entries)
      && (LastQueuing(w) ==>
            && w.batches[|w.batches| - 1].snapshot != d.snapshot
            && BatchEntries(w, w.batches[|w.batches| - 1].snapshot, d.finishEntries))
    case Produce(e) => e.run.None? && WellShapedEntry(e)
    case SettleRunEnded(behind) => forall id :: id in behind ==> id.Plain?
  }

  ghost predicate SoundRun(w: World, events: seq<Event>)
    decreases |events|
  {
    events == [] || (Sound(w, events[0].op) && SoundRun(Step(w, events[0]), events[1..]))
  }
}
