/** Every run of the hand-over: any operations, in any order, each cut after any of its acts.

    `Inv` is what every act keeps. `Allowed` is the discipline an act must follow to keep it; the lemmas
    of HandoverLegal show that every operation follows it at every one of its acts, so a stop between
    any two durable writes leaves a world in which `Inv` holds. */
module HandoverRuns {
  import opened Wrappers
  import opened Handover
  import opened EndedRun

  // ----- Runs -----

  datatype Op =
    | DrainOnce(i: nat, env: Env)
    | OwnerResolves(c: Cid, v: Verdict, today: Day)
    | OwnerRetires(c: Cid)
    | OwnerSettlesEndedRun(log: EndedLog)
    | OwnerEndsRun(chain: Chain, setAsideMalformed: bool)
    | Produces(en: Entry)
    | Restarts
    | FreshRun

  /** An owner's command; none of its acts is performed when it is refused. */
  function Command(e: Engine, w: World, op: Op): seq<Act> {
    var acts := match op
      case OwnerResolves(c, v, today) => Resolve(e, w, c, v, today)
      case OwnerRetires(c) => OwnerRetire(w, c)
      case OwnerSettlesEndedRun(log) => SettleEndedRun(w, log)
      case OwnerEndsRun(chain, aside) => ResolveRunEnded(w, chain, aside)
      case _ => None;
    if acts.Some? then acts.value else []
  }

  /** The acts an operation performs. A producer's inputs have IDs of their own, never used before. The
      owner's commands hold the pending file's lock, so they run only once the relay is closed. */
  function Acts(e: Engine, w: World, op: Op): seq<Act> {
    match op
    case DrainOnce(i, env) => Drain(e, w, i, env).acts
    case Produces(en) => if en.id.Plain? && en.id !in w.queued then [Queue(en)] else []
    case Restarts => [Crash]
    case FreshRun => [StartFreshRun, Crash]
    case _ => [Crash] + Command(e, Apply(w, Crash), op)
  }

  datatype Event = Event(op: Op, cut: nat)

  function Min(a: nat, b: nat): nat { if a < b then a else b }

  /** One operation, cut after `cut` acts: a cut one is a stop, which loses the relay's memory. */
  function Step(e: Engine, w: World, ev: Event): World {
    var acts := Acts(e, w, ev.op);
    var done := Exec(w, acts[..Min(ev.cut, |acts|)]);
    if ev.cut < |acts| then Apply(done, Crash) else done
  }

  function RunOf(e: Engine, w: World, evs: seq<Event>): World
    decreases |evs|
  {
    if evs == [] then w else RunOf(e, Step(e, w, evs[0]), evs[1..])
  }

  /** An ended log names only what the engine's replies released, each by the input that released it. */
  predicate LogSound(e: Engine, log: EndedLog) {
    forall r :: r in log.releases ==> r.cid in e.Released(r.input)
  }

  predicate OpSound(e: Engine, op: Op) {
    op.OwnerSettlesEndedRun? ==> LogSound(e, op.log)
  }

  predicate Sound(e: Engine, evs: seq<Event>) {
    forall i :: 0 <= i < |evs| ==> OpSound(e, evs[i].op)
  }

  /** A first start: no files but, perhaps, retirements an older relay recorded without their input. */
  predicate Initial(w: World) {
    && w.waiting.None? && w.runOf.None? && w.marks == map[] && w.refusal.None? && w.notHandedOver.None?
    && w.outbox == [] && w.setAside == [] && w.ended == [] && w.neverSent == [] && w.sent == {} && w.committed == {}
    && w.sends == multiset{} && w.last == map[] && w.overruled == {} && w.closed == {} && w.queued == multiset{}
    && forall d :: d in w.decisions ==> d.verdict.Retired? && d.input.None? && d.log.None?
  }

  // ----- What every act keeps -----

  predicate Settled(m: Mark) {
    m.NeverSent? || m.AtBroker? || m.Sent?
  }

  predicate HasSettledMark(w: World, c: Cid) {
    c in w.marks && Settled(w.marks[c])
  }

  /** Every input that releases c awaits its reply or was cleared. */
  ghost predicate Touched(e: Engine, w: World, c: Cid) {
    forall x :: c in e.Released(x) ==> x in w.closed || w.waiting == Some(x)
  }

  /** A retirement of c is durable for input x: queued, or recorded. */
  predicate Begun(w: World, c: Cid, x: InputId) {
    HasRetired(w.decisions, c, x) || exists en :: en in w.outbox && NamesRetirementOf(en.id, c)
  }

  /** The last hand-over of c reached nothing, or none was made. */
  predicate Unhanded(w: World, c: Cid) {
    c in w.last ==> w.last[c].NothingHandedOver?
  }

  /** No act sends c any more. */
  ghost predicate Frozen(e: Engine, w: World, c: Cid) {
    forall x :: c in e.Released(x) ==>
      x in w.closed || (w.waiting == Some(x) && (Begun(w, c, x) || HasSettledMark(w, c) || EarlierRun(w)))
  }

  /** The queued retirement y of c is still queued, or c is settled, or y was settled with its ended run. */
  ghost predicate Kept(e: Engine, w: World, c: Cid, y: InputId) {
    forall x :: c in e.Released(x) ==>
      x in w.closed || y in Ids(w.outbox) || HasSettledMark(w, c) || y in RunEndedIds(w)
  }

  predicate Releases(e: Engine, w: World, c: Cid) {
    w.waiting.Some? && c in e.Released(w.waiting.value)
  }

  predicate Recorded(ds: seq<Decision>, c: Cid) {
    exists d :: d in ds && d.cid == c && d.verdict.Retired?
  }

  /** Sends of c are paid for: one, and one for each resend decision. */
  ghost predicate SendInv(e: Engine, w: World, c: Cid) {
    && w.sends[c] <= 1 + Resends(w.decisions, c)
    && (c in w.marks && w.marks[c].Resend? ==> w.sends[c] <= Resends(w.decisions, c))
    && (w.sends[c] > 0 || c in w.marks ==> Touched(e, w, c))
    && (Releases(e, w, c) && c !in w.marks ==> w.sends[c] == 0)
    && (c in w.last <==> w.sends[c] > 0)
    && (c in w.sent && c in w.marks ==> !w.marks[c].NeverSent? && !w.marks[c].AtBroker?)
  }

  /** A retirement begun is never undone, and its entry is queued once. */
  ghost predicate RetireInv(e: Engine, w: World, c: Cid) {
    && (Releases(e, w, c) && Begun(w, c, w.waiting.value) ==> c !in w.marks || Settled(w.marks[c]))
    && (Releases(e, w, c) && c in w.marks && w.marks[c].Resend? ==> e.Session(w.waiting.value) == Some(w.marks[c].day))
    && (forall y :: y in w.queued && NamesRetirementOf(y, c) ==>
          Frozen(e, w, c) && Kept(e, w, c, y) && (y.RetirementFor? ==>
              c in e.Released(y.released) && Recorded(w.decisions, c)))
  }

  /** A never-sent settlement is of an order that was not handed over, unless a pass overruled it. */
  ghost predicate EvidenceInv(e: Engine, w: World, c: Cid) {
    && (c in w.overruled ==> c in w.last)
    && (c in w.marks && w.marks[c].NeverSent? ==> Unhanded(w, c) || c in w.overruled)
    && (forall x :: SaysNeverSent(w, c, x) ==> Unhanded(w, c) || c in w.overruled)
    && (c in w.marks && w.marks[c].Resend? ==> forall x :: !SaysNeverSent(w, c, x))
    && (Releases(e, w, c) && c !in w.marks ==> !LastDecided(w, c, NotHandedOver, w.waiting))
  }

  ghost predicate OrderInv(e: Engine, w: World, c: Cid) {
    SendInv(e, w, c) && RetireInv(e, w, c) && EvidenceInv(e, w, c)
  }

  predicate DistinctIds(s: seq<Entry>) {
    forall i, j :: 0 <= i < j < |s| ==> s[i].id != s[j].id
  }

  ghost predicate FilesInv(e: Engine, w: World) {
    && (w.notHandedOver.Some? ==>
          var n := w.notHandedOver.value;
              n.cid in e.Released(n.input) && n.cid in w.last && w.last[n.cid].NothingHandedOver?)
    && (w.refusal.Some? ==> w.refusal.value.cid in e.Released(w.refusal.value.input))
    && (forall d :: d in w.decisions && SettlesNeverSent(d.verdict) && d.input.Some? ==>
          d.cid in e.Released(d.input.value) && Touched(e, w, d.cid))
    && (forall d :: d in w.decisions && d.log.Some? ==> d.input.Some? && d.run.Some?)
    && (forall en :: en in w.outbox && !en.id.Plain? ==> en == RetireEntry(en.id))
    && (forall l :: l in w.neverSent ==> l.cid in e.Released(l.input))
  }

  ghost predicate QueueInv(w: World) {
    && DistinctIds(w.outbox)
    && (forall en :: en in w.outbox ==> en.id in w.queued)
    && (forall x :: w.queued[x] <= 1 || (!x.Plain? && x in RunEndedIds(w)))
    && (forall x :: x in w.closed && x.Plain? ==> x in w.queued && x !in Ids(w.outbox) && w.waiting != Some(x))
    && (w.waiting.Some? ==> w.waiting.value in w.queued)
  }

  ghost predicate RunInv(w: World) {
    && RunEndedIds(w) !! w.committed
    && (w.waiting.Some? ==>
          && w.runOf.Some? && w.runOf.value.input == w.waiting.value && w.runOf.value.run <= w.run
          && (w.runOf.value.run < w.run ==> w.committed == {})
          && (w.waiting.value in RunEndedIds(w) ==> EarlierRun(w)))
  }

  /** A never-sent decision for the input that awaits its reply carries the run it was sent to, which is then the run
      the decisions last record. */
  ghost predicate DecidedInRun(w: World) {
    w.waiting.Some? && w.runOf.Some? ==>
      forall d :: d in w.decisions && SettlesNeverSent(d.verdict) && d.input == w.waiting ==>
        d.run == Some(w.runOf.value.run) && LastRun(w.decisions) == Some(w.runOf.value.run)
  }

  ghost predicate CoreInv(e: Engine, w: World) {
    FilesInv(e, w) && QueueInv(w) && RunInv(w) && forall c :: OrderInv(e, w, c)
  }

  ghost predicate Inv(e: Engine, w: World) {
    CoreInv(e, w) && DecidedInRun(w)
  }

  // ----- The discipline of one act -----

  /** Some decision on c says that it was never sent. */
  predicate SaidNeverSent(w: World, c: Cid) {
    exists d :: d in w.decisions && d.cid == c && SettlesNeverSent(d.verdict)
  }

  ghost predicate MarkAllowed(e: Engine, w: World, c: Cid, m: Mark) {
    && Touched(e, w, c)
    && (m.Resend? ==> w.sends[c] <= Resends(w.decisions, c)
                      && (Releases(e, w, c) ==> e.Session(w.waiting.value) == Some(m.day)))
    && (!Settled(m) ==> !HasSettledMark(w, c) && (Releases(e, w, c) ==> !Begun(w, c, w.waiting.value)))
    && (m.NeverSent? ==> (Unhanded(w, c) || c in w.overruled) && SaidNeverSent(w, c))
    && (m.NeverSent? || m.AtBroker? ==> c !in w.sent)
    && (m.Resend? ==> forall x :: !SaysNeverSent(w, c, x))
  }

  /** A decision made while an input awaits its reply carries the run that input was sent to. */
  predicate CarriesRun(w: World, d: Decision) {
    w.waiting.Some? ==> w.runOf.Some? && Tagged(w, d).run == Some(w.runOf.value.run)
  }

  ghost predicate DecideAllowed(e: Engine, w: World, d: Decision) {
    && (SettlesNeverSent(d.verdict) && d.input.Some? ==>
          d.cid in e.Released(d.input.value) && Touched(e, w, d.cid) && (Unhanded(w, d.cid) || d.cid in w.overruled))
    && (d.log.Some? ==> d.input.Some? && d.run.Some?)
    && (d.verdict.Retired? ==> d.input.Some? && d.input == w.waiting && (d.cid !in w.marks || Settled(w.marks[d.cid])))
    && (SettlesNeverSent(d.verdict) && d.cid in w.marks ==> !w.marks[d.cid].Resend?)
    && (d.verdict.NotHandedOver? ==> d.cid in w.marks)
    && CarriesRun(w, d)
  }

  ghost predicate QueueAllowed(e: Engine, w: World, en: Entry) {
    && en.id !in Ids(w.outbox)
    && (en.id !in w.queued || (!en.id.Plain? && en.id in RunEndedIds(w)))
    && (!en.id.Plain? ==>
          && en == RetireEntry(en.id)
          && Releases(e, w, en.id.cid)
          && (en.id.cid !in w.marks || Settled(w.marks[en.id.cid]))
          && (en.id.RetirementFor? ==> w.waiting == Some(en.id.released) && Recorded(w.decisions, en.id.cid)))
  }

  /** A settlement names only what was queued. */
  predicate NamesQueued(w: World, s: EndedInput) {
    forall y :: y in {s.input} + Ids(s.outbox) ==> y in w.queued
  }

  ghost predicate Allowed(e: Engine, w: World, a: Act) {
    match a
    case Save(x) =>
      || w.waiting == Some(x)
      || (&& w.waiting.None? && x in w.queued && x in Ids(w.outbox)
          && x !in RunEndedIds(w) && w.runOf == Some(RunRecord(x, w.run)))
    case Ask(x) => w.waiting == Some(x) && w.runOf == Some(RunRecord(x, w.run)) && x !in RunEndedIds(w)
    case RecordRun(x, run) => w.waiting.None?
    case SetMark(c, m) => MarkAllowed(e, w, c, m)
    case Decide(d) => DecideAllowed(e, w, d)
    case Queue(en) => QueueAllowed(e, w, en)
    case Strike(ids) =>
      forall c, x :: x in ids && NamesRetirementOf(x, c) && Releases(e, w, c) ==>
        HasSettledMark(w, c) || (EarlierRun(w) && x in RunEndedIds(w))
    case NoteSent(c) => c in w.marks ==> !w.marks[c].NeverSent? && !w.marks[c].AtBroker?
    case RecordRefusal(r) => r.cid in e.Released(r.input)
    case RecordNotHandedOver(r) => r.cid in e.Released(r.input) && r.cid in w.last && w.last[r.cid].NothingHandedOver?
    case Send(c, result, x) =>
      && w.waiting == Some(x) && c in e.Released(x) && !EarlierRun(w) && w.notHandedOver.None?
      && c in w.marks && w.marks[c].HandingOver? && w.sends[c] <= Resends(w.decisions, c)
    case RecordEnded(s) => EarlierRun(w) && w.runOf.Some? && w.runOf.value.run < w.run && NamesQueued(w, s)
    case WriteNeverSent(lines) => forall l :: l in lines ==> l.cid in e.Released(l.input)
    case RemoveInput => w.waiting.Some? ==> w.waiting.value !in Ids(w.outbox)
    case RemoveMarks => w.waiting.None?
    case RemoveRun => w.waiting.None?
    case _ => true
  }

  /** Every act of a list follows the discipline where it is performed. */
  ghost predicate Legal(e: Engine, w: World, acts: seq<Act>)
    decreases |acts|
  {
    acts != [] ==> Allowed(e, w, acts[0]) && Legal(e, Apply(w, acts[0]), acts[1..])
  }

  lemma {:induction false} LegalConcat(e: Engine, w: World, a: seq<Act>, b: seq<Act>)
    requires Legal(e, w, a) && Legal(e, Exec(w, a), b)
    ensures Legal(e, w, a + b)
    decreases |a|
  {
    if a == [] {
      assert a + b == b;
    } else {
      assert (a + b)[1..] == a[1..] + b;
      LegalConcat(e, Apply(w, a[0]), a[1..], b);
    }
  }
}
