/** Delivering a run's stream files through the outbox (adapter/ibkr/delivery.py, adapter/ibkr/loop.py).

    A world is the delivery record, the outbox, the input awaiting its reply and the run it was sent to, the inputs
    an owner settled as left by an ended run, what the engine has committed for each run, and the run now running (a
    crash resume is its first run). Each operation is the list of its atomic writes, and a
    stop leaves any prefix of that list applied. A batch also carries, for the history alone, the IDs its outbox
    write recorded. */
module Delivery {
  import opened Wrappers

  type Run = nat

  datatype File = File(session: int, tag: nat)

  /** An input's ID: one made from a batch's snapshot (its broker snapshot, its reconciliation, others), a stream
      envelope's, or any other. */
  datatype Id = Made(snapshot: nat, part: nat) | Streamed(n: nat) | Plain(n: nat)

  const BrokerSnapshot: nat := 0
  const Reconciliation: nat := 1

  /** An outbox entry: the run it is for when it is a stream batch's, and whether it holds an envelope of the stream. */
  datatype Entry = Entry(id: Id, run: Option<Run>, envelope: bool)

  datatype BatchState = Queuing | Queued | Dropped

  datatype Batch = Batch(run: Run, snapshot: nat, files: seq<File>, state: BatchState, written: seq<Id>)

  datatype Waiting = Waiting(id: Id, run: Run)

  datatype World = World(batches: seq<Batch>, outbox: seq<Entry>, waiting: Option<Waiting>, settled: set<Id>,
                         committed: map<Run, seq<Id>>, running: Run)

  function FirstWorld(run: Run): World {
    World([], [], None, {}, map[], run)
  }

  function Committed(w: World, run: Run): seq<Id> {
    if run in w.committed then w.committed[run] else []
  }

  function Ids(es: seq<Entry>): (r: seq<Id>)
    ensures |r| == |es| && forall i :: 0 <= i < |es| ==> r[i] == es[i].id
  {
    seq(|es|, i requires 0 <= i < |es| => es[i].id)
  }

  /** The batch entries of the outbox, in order. */
  function OfBatches(es: seq<Entry>): seq<Entry> {
    if es == [] then [] else (if es[0].run.Some? then [es[0]] else []) + OfBatches(es[1..])
  }

  function Without(es: seq<Entry>, ids: set<Id>): seq<Entry> {
    if es == [] then [] else (if es[0].id in ids then [] else [es[0]]) + Without(es[1..], ids)
  }

  // ----- The atomic writes -----

  datatype Act =
    | Begin(batch: Batch)
    | Extend(entries: seq<Entry>)
    | MarkQueued
    | MarkDropped
    | DropQueued(run: Run)
    | Strike(ids: set<Id>)
    | Ask(id: Id)
    | Commit(id: Id)
    | Clear
    | Append(entry: Entry)
    | Settle(ids: set<Id>)
    | Start(run: Run)

  function Marked(batches: seq<Batch>, state: BatchState): seq<Batch> {
    if batches == [] then [] else batches[|batches| - 1 := batches[|batches| - 1].(state := state)]
  }

  /** The place of a run's last batch; the number of batches when it has none. */
  function LastOf(batches: seq<Batch>, run: Run): (n: nat)
    ensures n <= |batches| && (n < |batches| ==> batches[n].run == run)
    ensures n < |batches| ==> forall j :: n < j < |batches| ==> batches[j].run != run
    ensures n == |batches| ==> forall j :: 0 <= j < |batches| ==> batches[j].run != run
  {
    if batches == [] then 0
    else
      var k := |batches| - 1;
      if batches[k].run == run then k
      else
        var n := LastOf(batches[..k], run);
        if n == k then |batches| else n
  }

  function Apply(w: World, a: Act): World {
    match a
    case Begin(batch) => w.(batches := w.batches + [batch])
    case Extend(entries) =>
      w.(outbox := w.outbox + entries,
         batches := if w.batches == [] then []
             else w.batches[|w.batches| - 1 := w.batches[|w.batches| - 1].(written := Ids(entries))])
    case MarkQueued => w.(batches := Marked(w.batches, Queued))
    case MarkDropped => w.(batches := Marked(w.batches, Dropped))
    case DropQueued(run) =>
      var n := LastOf(w.batches, run);
      if n == |w.batches| || w.batches[n].state != Queued then w
      else w.(batches := w.batches[n := w.batches[n].(state := Dropped)])
    case Strike(ids) => w.(outbox := Without(w.outbox, ids))
    case Ask(id) => w.(waiting := Some(Waiting(id, w.running)))
    case Clear => w.(waiting := None)
    case Commit(id) => w.(committed := w.committed[w.running := Committed(w, w.running) + [id]])
    case Append(entry) => w.(outbox := w.outbox + [entry])
    case Settle(ids) => w.(settled := w.settled + ids)
    case Start(run) => w.(running := run)
  }

  function Exec(w: World, acts: seq<Act>): World
    decreases |acts|
  {
    if acts == [] then w else Exec(Apply(w, acts[0]), acts[1..])
  }

  // ----- What every world keeps -----

  predicate Increasing(files: seq<File>) {
    forall i, j :: 0 <= i < j < |files| ==> files[i].session < files[j].session
  }

  /** Files of one run in batches not dropped: each session after all of the batches before. */
  ghost predicate FilesOnce(batches: seq<Batch>) {
    && (forall n :: 0 <= n < |batches| ==> Increasing(batches[n].files))
    && (forall m, n :: 0 <= m < n < |batches| && batches[m].run == batches[n].run && !batches[m].state.Dropped?
           && !batches[n].state.Dropped?
          ==> AllBefore(batches[m].files, batches[n].files))
  }

  predicate AllBefore(a: seq<File>, b: seq<File>) {
    forall i, j :: 0 <= i < |a| && 0 <= j < |b| ==> a[i].session < b[j].session
  }

  ghost predicate OnlyLastQueuing(batches: seq<Batch>) {
    forall n :: 0 <= n < |batches| - 1 ==> !batches[n].state.Queuing?
  }

  ghost predicate DistinctEntries(es: seq<Entry>) {
    forall i, j :: 0 <= i < j < |es| ==> es[i].id != es[j].id
  }

  /** A batch's entries end with an envelope, the close of its last session. */
  ghost predicate EndsWithEnvelope(es: seq<Entry>) {
    es != [] ==> es[|es| - 1].envelope
  }

  predicate IsSuffix(a: seq<Id>, b: seq<Id>) {
    |a| <= |b| && a == b[|b| - |a|..]
  }

  /** The batch entries in the outbox are the last batch's, what is left of them in the order written. */
  ghost predicate OutboxOfLast(w: World) {
    var es := OfBatches(w.outbox);
    && (es != [] ==> w.batches != [])
    && (w.batches != [] ==>
          var last := w.batches[|w.batches| - 1];
          && IsSuffix(Ids(es), last.written)
          && (forall i :: 0 <= i < |es| ==> es[i].run == Some(last.run)))
    && EndsWithEnvelope(es)
  }

  /** A batch still queuing is not in the outbox at all, or all that is not there is settled or committed already;
      nothing made for it was ever sent. */
  ghost predicate QueuingWhole(w: World) {
    LastQueuing(w) ==>
      var last := w.batches[|w.batches| - 1];
      (OfBatches(w.outbox) == [] || LastAccounted(w)) && Unsent(w, last.snapshot)
  }

  ghost predicate LastAccounted(w: World)
    requires w.batches != []
  {
    var n := |w.batches| - 1;
    forall id :: id in w.batches[n].written ==> Accounted(w, n, id)
  }

  predicate LastQueuing(w: World) {
    w.batches != [] && w.batches[|w.batches| - 1].state.Queuing?
  }

  ghost predicate Unsent(w: World, snapshot: nat) {
    && (forall run, part :: Made(snapshot, part) !in Committed(w, run))
    && (forall part :: Made(snapshot, part) !in w.settled)
    && (w.waiting.Some? && w.waiting.value.id.Made? ==> w.waiting.value.id.snapshot != snapshot)
  }

  /** Entries are as the adapter records them: only a batch's are made for a snapshot or hold an envelope, and a batch
      written holds its reconciliation. */
  ghost predicate WellShaped(w: World) {
    && (forall i :: 0 <= i < |w.outbox| ==> WellShapedEntry(w.outbox[i]))
    && (w.batches != [] && w.batches[|w.batches| - 1].written != [] ==>
          Made(w.batches[|w.batches| - 1].snapshot, Reconciliation) in w.batches[|w.batches| - 1].written)
  }

  predicate WellShapedEntry(e: Entry) {
    (e.run.None? <==> e.id.Plain?) && (e.envelope ==> e.id.Streamed?)
  }

  /** Of a batch's entries, only the first left can await its reply, and from the batch's own run. */
  ghost predicate WaitingFirst(w: World) {
    w.waiting.Some? ==> FirstOfRun(OfBatches(w.outbox), w.waiting.value.id, w.waiting.value.run)
  }

  ghost predicate FirstOfRun(es: seq<Entry>, id: Id, run: Run) {
    && (forall i :: 1 <= i < |es| ==> es[i].id != id)
    && (es != [] && es[0].id == id ==> es[0].run == Some(run))
  }

  /** Every ID of a queued batch is committed for its run, or settled by the owner, or, for the last batch, still in
      the outbox. */
  ghost predicate NothingLost(w: World) {
    forall n, id :: 0 <= n < |w.batches| && w.batches[n].state.Queued? && id in w.batches[n].written ==>
        Accounted(w, n, id)
  }

  ghost predicate Accounted(w: World, n: nat, id: Id)
    requires n < |w.batches|
  {
    id in Committed(w, w.batches[n].run) || id in w.settled || (n == |w.batches| - 1 && id in Ids(OfBatches(w.outbox)))
  }

  predicate NoRepeat(ids: seq<Id>) {
    forall i, j :: 0 <= i < j < |ids| ==> ids[i] != ids[j]
  }

  /** No run commits an input twice. */
  ghost predicate CommittedOnce(w: World) {
    forall run :: NoRepeat(Committed(w, run))
  }

  ghost predicate Inv(w: World) {
    && FilesOnce(w.batches) && OnlyLastQueuing(w.batches)
    && DistinctEntries(w.outbox) && OutboxOfLast(w) && QueuingWhole(w) && NothingLost(w) && CommittedOnce(w)
    && WellShaped(w) && WaitingFirst(w)
  }

  // ----- When each write is allowed -----

  ghost predicate MayBegin(w: World, b: Batch) {
    && !LastQueuing(w) && OfBatches(w.outbox) == []
    && b.run == w.running && b.state.Queuing? && b.written == [] && Increasing(b.files)
    && (forall n :: 0 <= n < |w.batches| && w.batches[n].run == b.run && !w.batches[n].state.Dropped? ==>
           AllBefore(w.batches[n].files, b.files))
    && Unsent(w, b.snapshot)
  }

  /** The entries of one batch's write. */
  ghost predicate BatchEntries(w: World, snapshot: nat, es: seq<Entry>) {
    && DistinctEntries(es) && EndsWithEnvelope(es) && Made(snapshot, Reconciliation) in Ids(es)
    && (forall i :: 0 <= i < |es| ==> es[i].run == Some(w.running) && WellShapedEntry(es[i]))
  }

  predicate Disjoint(a: seq<Entry>, b: seq<Entry>) {
    forall i, j :: 0 <= i < |a| && 0 <= j < |b| ==> a[i].id != b[j].id
  }

  ghost predicate MayExtend(w: World, es: seq<Entry>) {
    && LastQueuing(w) && OfBatches(w.outbox) == [] && w.batches[|w.batches| - 1].run == w.running
    && BatchEntries(w, w.batches[|w.batches| - 1].snapshot, es) && Disjoint(es, w.outbox)
    && (w.waiting.Some? ==> w.waiting.value.id !in Ids(es))
  }

  /** A strike takes no batch entry; or all of them, unless the batch is queued; or the first left, once done with. */
  ghost predicate MayStrike(w: World, ids: set<Id>) {
    var es := OfBatches(w.outbox);
    || (forall i :: 0 <= i < |es| ==> es[i].id !in ids)
    || ((forall i :: 0 <= i < |es| ==> es[i].id in ids)
           && (w.batches == [] || !w.batches[|w.batches| - 1].state.Queued?))
    || (es != [] && es[0].id in ids && (forall i :: 1 <= i < |es| ==> es[i].id !in ids) && Done(w, es[0].id))
  }

  ghost predicate Done(w: World, id: Id) {
    id in w.settled || (w.batches != [] && id in Committed(w, w.batches[|w.batches| - 1].run))
  }

  ghost predicate MayAsk(w: World, id: Id) {
    id !in w.settled && (LastQueuing(w) ==> !id.Made?) && FirstOfRun(OfBatches(w.outbox), id, w.running)
  }

  ghost predicate MaySettle(w: World, ids: set<Id>) {
    forall id :: id in ids && id.Made? ==> w.waiting.Some? && w.waiting.value.id == id
  }

  ghost predicate Allowed(w: World, a: Act) {
    match a
    case Begin(b) => MayBegin(w, b)
    case Extend(es) => MayExtend(w, es)
    case MarkQueued => LastQueuing(w) && OfBatches(w.outbox) != []
    case MarkDropped => w.batches != []
    case DropQueued(_) => true
    case Strike(ids) => MayStrike(w, ids)
    case Ask(id) => MayAsk(w, id)
    case Commit(id) => id !in Committed(w, w.running) && w.waiting.Some? && w.waiting.value.id == id
    case Clear => true
    case Append(e) => e.run.None? && WellShapedEntry(e) && Disjoint([e], w.outbox)
    case Settle(ids) => MaySettle(w, ids)
    case Start(_) => true
  }
}
