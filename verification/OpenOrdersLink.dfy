/** The adapter's side of the link: asking, waiting, pumping quiet, and the read that is taken as whole
    (adapter/ibkr/connection.py, adapter/ibkr/orders.py). */
module OpenOrdersLink {
  import opened Wrappers
  import opened OpenOrders

  /** Of every message before them, those a wait's deadline lets it take. */
  type Patience = nat

  /** What the link does during one read: how long an earlier list is waited for, what it sends while the link is
      pumped quiet before the request, how much has arrived when the request is noted, the answer it will send,
      how long the read waits, what it sends while the link is pumped quiet after, and whether each pump ends quiet. */
  datatype During = During(await: Patience, before: seq<Message>, quietBefore: bool, arrived: nat, answer: seq<Message>,
                           executions: nat, patience: Patience, after: seq<Message>, quietAfter: bool)

  ghost predicate Plausible(d: During, ticket: nat) {
    Spurious(d.before) && Spurious(d.after) && AnswerTo(d.answer, ticket)
  }

  /** Nothing the link sends closes it, it falls quiet, its executions come, and the read waits for all of it: what was
      on its way, the note, and the answer. */
  ghost predicate Prompt(d: During, queued: nat) {
    && Closed !in d.before && Closed !in d.answer && Closed !in d.after && d.quietBefore && d.quietAfter
    && ExecutionsEnd(d.executions) in d.answer && d.patience >= queued + 1 + |d.answer|
  }

  // ----- What every message taken keeps -----

  /** ends <= noted <= requested <= ends + 1: at most one list is outstanding, and its note is taken before its end. */
  predicate OneOutstanding(l: Lists) {
    l.ends <= l.noted <= l.requested <= l.ends + 1
  }

  /** The queue fits the counters: a note for every list asked and not yet noted, and the volunteered messages,
      which only a link that has noted nothing still holds. */
  ghost predicate Fits(l: Lists, pending: seq<Message>, inbox: seq<Message>) {
    && OneOutstanding(l)
    && Notes(pending) == 0 && Notes(inbox) == l.requested - l.noted
    && l.volunteered == ListMessages(pending) && (pending != [] ==> l.noted == 0)
    && UpTo(inbox, l.requested)
  }

  lemma PendingTaken(l: Lists, pending: seq<Message>, inbox: seq<Message>)
    requires Fits(l, pending, inbox) && pending != []
    ensures Fits(Applied(l, pending[0]), pending[1..], inbox)
  {
  }

  lemma InboxTaken(l: Lists, inbox: seq<Message>)
    requires Fits(l, [], inbox) && inbox != []
    ensures Fits(Applied(l, inbox[0]), [], inbox[1..])
  {
  }

  /** What is put by hides no stray: a list message from the inbox with no list outstanding is counted, unless it is
      the echo of an order placed. */
  lemma NothingHidesAStray(l: Lists, inbox: seq<Message>)
    requires Fits(l, [], inbox) && inbox != [] && IsList(inbox[0]) && l.ends >= l.noted && !IsEcho(l, inbox[0])
    ensures Applied(l, inbox[0]).strays == l.strays + 1 && Applied(l, inbox[0]).resyncDue
  {
  }

  /** No earlier list is out, and a link that may be behind falls quiet and stays open. */
  ghost predicate Levels(l: Lists, queue: seq<Message>, d: During) {
    && l.connected && l.ends == l.requested
    && (l.resyncDue ==> d.quietBefore && Closed !in queue && Closed !in d.before)
  }

  /** Every list asked for has ended, nothing on the way closes the link, and the read is answered in its time. */
  ghost predicate Answered(l: Lists, queue: seq<Message>, d: During) {
    l.connected && l.ends == l.requested && Closed !in queue && Prompt(d, |queue|)
  }

  /** Every undisturbed read gave exactly the rows of its own answer. */
  ghost predicate GivenAre(ds: seq<During>, requested: nat, given: seq<Option<map<int, int>>>) {
    |given| <= |ds| && forall i :: 0 <= i < |given| && Undisturbed(ds[i], requested + 1 + i) ==>
        given[i] == Some(RowsOf(ds[i].answer, map[]))
  }

  /** The next read is answered in its time, and each one after it. */
  ghost predicate Served(l: Lists, queue: seq<Message>, ds: seq<During>, from: nat) {
    (from < |ds| ==> Answered(l, queue, ds[from])) && forall i :: from < i < |ds| ==> Prompt(ds[i], 0)
  }

  lemma ServedNext(l: Lists, q: seq<Message>, l': Lists, q': seq<Message>, ds: seq<During>, from: nat)
    requires l'.connected && l'.ends == l'.requested && q' == []
    ensures Served(l, q, ds, from) ==> Served(l', q', ds, from + 1)
  {
  }

  /** Nothing comes but the list's own rows and end. */
  ghost predicate Undisturbed(d: During, ticket: nat) {
    OnlyOwn(d.answer, ticket) && forall i :: 0 <= i < |d.after| ==> !IsList(d.after[i])
  }

  /** Level, with nothing put by and nothing on its way. */
  ghost predicate Alone(l: Lists, queue: seq<Message>) {
    l.ends == l.requested && !l.resyncDue && queue == []
  }

  class Link {
    var requested: nat
    var noted: nat
    var ends: nat
    var strays: nat
    var volunteered: nat
    var resyncDue: bool
    var placed: set<int>
    var connected: bool
    var pending: seq<Message>
    var inbox: seq<Message>

    function View(): Lists
      reads this
    {
      Lists(requested, noted, ends, strays, volunteered, resyncDue, placed, connected)
    }

    function Queue(): seq<Message>
      reads this
    {
      pending + inbox
    }

    ghost predicate Valid()
      reads this
    {
      Fits(View(), pending, inbox)
    }

    /** A link just made: what connect took of the volunteered list is put by, counted. */
    constructor (kept: seq<Message>, sawEnd: bool)
      requires Spurious(kept)
      ensures Valid() && View() == Lists(0, 0, 0, 0, ListMessages(kept), !sawEnd, {}, true) && pending == kept
              && inbox == []
    {
      requested, noted, ends, strays, volunteered, resyncDue := 0, 0, 0, 0, ListMessages(kept), !sawEnd;
      placed, connected, pending, inbox := {}, true, kept, [];
      NoNotes(kept);
    }

    /** _apply. */
    method Apply(m: Message)
      modifies this`noted, this`ends, this`strays, this`volunteered, this`resyncDue, this`placed, this`connected
      ensures View() == Applied(old(View()), m)
    {
      if m.Closed? {
        connected := false;
      } else if m.Note? {
        noted := noted + 1;
      } else if IsList(m) && ends >= noted && volunteered > 0 {
        volunteered := volunteered - 1;
      } else if m.Row? {
        if ends >= noted {
          if m.order.id in placed && m.order.byThisClient {
            placed := placed - {m.order.id};
          } else {
            strays := strays + 1;
            resyncDue := true;
          }
        }
      } else if m.End? {
        if ends < noted {
          ends := ends + 1;
        } else {
          strays := strays + 1;
          resyncDue := true;
        }
      }
    }

    /** pump: the next message, what connect kept first. */
    method Pump() returns (m: Message)
      requires Valid() && Queue() != []
      modifies this
      ensures Valid() && m == old(Queue())[0] && View() == Applied(old(View()), m) && Queue() == old(Queue())[1..]
      ensures requested == old(requested) && connected == (old(connected) && m != Closed)
    {
      if pending != [] {
        PendingTaken(View(), pending, inbox);
        m := pending[0];
        pending := pending[1..];
      } else {
        assert pending + inbox == inbox;
        InboxTaken(View(), inbox);
        m := inbox[0];
        inbox := inbox[1..];
      }
      Apply(m);
    }

    /** _await_list_end: takes messages until the outstanding list ends, or drops the link. */
    method AwaitListEnd(patience: Patience) returns (ok: bool)
      requires Valid()
      modifies this
      ensures Valid() && requested == old(requested) && strays >= old(strays)
      ensures ok <==> connected && ends == requested
      ensures |Queue()| <= |old(Queue())| && forall m :: m in Queue() ==> m in old(Queue())
    {
      var left := patience;
      while connected && ends < requested && left > 0 && Queue() != []
        invariant Valid() && requested == old(requested) && strays >= old(strays)
        invariant |Queue()| <= |old(Queue())| && forall m :: m in Queue() ==> m in old(Queue())
      {
        var m := Pump();
        left := left - 1;
      }
      if connected && ends < requested {
        connected := false;
      }
      ok := connected;
    }

    /** resync_open_orders: takes everything there is and comes while pumping, and drops a link that is never quiet. */
    method Resync(await: Patience, coming: seq<Message>, quiet: bool) returns (ok: bool)
      requires Valid() && Spurious(coming)
      modifies this
      ensures Valid() && requested == old(requested) && strays >= old(strays)
      ensures ok ==> connected && Queue() == [] && ends == requested && !resyncDue
      ensures ok && old(ends) == requested ==> strays == AppliedAll(old(View()), old(Queue()) + coming).strays
      ensures old(connected) && old(ends) == requested && quiet && Closed !in old(Queue()) && Closed !in coming ==> ok
    {
      if !connected {
        return false;
      }
      if ends < requested {
        var ended := AwaitListEnd(await);
        if !ended {
          return false;
        }
      }
      Arrive(coming);
      TakeAll();
      if !connected || !quiet {
        connected := false;
        return false;
      }
      resyncDue := false;
      return true;
    }

    /** More comes of the link's own accord. */
    method Arrive(coming: seq<Message>)
      requires Valid() && Spurious(coming)
      modifies this`inbox
      ensures Valid() && Queue() == old(Queue()) + coming
    {
      SpuriousFits(View(), pending, inbox, coming);
      assert pending + (inbox + coming) == (pending + inbox) + coming;
      inbox := inbox + coming;
    }

    /** Takes every message there is, with no list outstanding, unless the link closes. */
    method TakeAll()
      requires Valid() && ends == requested
      modifies this
      ensures Valid() && requested == old(requested) && ends == requested && strays >= old(strays)
      ensures connected ==> Queue() == [] && View() == AppliedAll(old(View()), old(Queue()))
      ensures old(connected) && Closed !in old(Queue()) ==> connected
    {
      ghost var end := AppliedAll(View(), Queue());
      while connected && Queue() != []
        invariant old(connected) && Closed !in old(Queue()) ==> connected && Closed !in Queue()
        invariant Valid() && requested == old(requested) && ends == requested && strays >= old(strays)
        invariant AppliedAll(View(), Queue()) == end
        decreases |Queue()|
      {
        var m := Pump();
      }
    }

    /** ask_all_open_orders: once no list is outstanding and the link is level, the request is noted behind what has
        arrived, ahead of what is still on its way, and its answer comes after that. */
    method Ask(d: During) returns (ok: bool, ticket: nat, ghost ahead: seq<Message>, ghost behind: seq<Message>)
      requires Valid() && Plausible(d, requested + 1)
      modifies this
      ensures Valid() && strays >= old(strays)
      ensures !ok ==> requested == old(requested)
      ensures ok ==> && connected && ticket == requested == old(requested) + 1 && noted == ends == ticket - 1
                     && inbox == ahead + [Note] + (behind + d.answer)
                     && Notes(ahead) == 0 && Notes(behind) == 0 && UpTo(ahead + behind, ticket - 1)
      ensures ok ==> |pending| + |ahead| + |behind| <= |old(Queue())|
                     && forall m :: m in Queue() ==> m in old(Queue()) || m == Note || m in d.answer
      ensures ok && old(Queue()) == [] && !old(resyncDue) && old(ends) == old(requested) ==>
                Queue() == [Note] + d.answer && strays == old(strays)
      ensures Levels(old(View()), old(Queue()), d) ==> ok
    {
      ok := BringLevel(d);
      if !ok {
        return false, 0, [], [];
      }
      ticket, ahead, behind := Request(d);
    }

    /** An earlier list's end waited for, and a link that may be behind pumped quiet. */
    method BringLevel(d: During) returns (ok: bool)
      requires Valid() && Spurious(d.before)
      modifies this
      ensures Valid() && strays >= old(strays) && requested == old(requested)
      ensures ok ==> connected && ends == requested && !resyncDue
      ensures ok && !old(resyncDue) && old(ends) == requested ==> View() == old(View())
      ensures ok ==> |Queue()| <= |old(Queue())| && forall m :: m in Queue() ==> m in old(Queue())
      ensures Levels(old(View()), old(Queue()), d) ==> ok
    {
      if !connected {
        return false;
      }
      if ends < requested {
        ok := AwaitListEnd(d.await);
        if !ok {
          return false;
        }
      }
      if resyncDue {
        ok := Resync(d.await, d.before, d.quietBefore);
        return ok;
      }
      return true;
    }

    method Request(d: During) returns (ticket: nat, ghost ahead: seq<Message>, ghost behind: seq<Message>)
      requires Valid() && ends == requested && AnswerTo(d.answer, requested + 1)
      modifies this`requested, this`inbox
      ensures Valid() && ticket == requested == old(requested) + 1 && noted == ends == ticket - 1
      ensures inbox == ahead + [Note] + (behind + d.answer)
      ensures Notes(ahead) == 0 && Notes(behind) == 0 && UpTo(ahead + behind, ticket - 1)
      ensures ahead + behind == old(inbox)
    {
      var at := if d.arrived <= |inbox| then d.arrived else |inbox|;
      ahead, behind := inbox[..at], inbox[at..];
      AskFits(View(), pending, inbox, at, d.answer);
      requested := requested + 1;
      inbox := inbox[..at] + [Note] + (inbox[at..] + d.answer);
      return requested, ahead, behind;
    }

    /** collect_broker_orders, its open orders: None where the link goes, or its wait ends first. */
    method Collect(d: During) returns (r: Option<map<int, int>>, ticket: nat)
      requires Valid() && Plausible(d, requested + 1)
      modifies this
      ensures Valid() && strays >= old(strays) && requested <= old(requested) + 1
      ensures Answered(old(View()), old(Queue()), d) ==> r.Some? && Closed !in Queue()
      ensures Alone(old(View()), old(Queue())) && OnlyOwn(d.answer, old(requested) + 1) && r.Some? ==>
                r.value == RowsOf(d.answer, map[]) && AppliedAll(View(), Queue()).strays == old(strays)
      ensures r.Some? ==> && connected && ticket == requested == ends == old(requested) + 1
                          && IsCollected(r.value, ticket, d.answer)
                          && (AppliedAll(View(), Queue()).strays == old(strays) ==> HasOwn(d.answer, ticket, r.value))
    {
      ghost var ahead, behind;
      var ok;
      ok, ticket, ahead, behind := Ask(d);
      if !ok {
        return None, ticket;
      }
      ghost var l, q := View(), Queue();
      r := ReadAsked(d, ticket, ahead, behind);
      if r.Some? && q == [Note] + d.answer && OnlyOwn(d.answer, ticket) {
        UndisturbedRead(l, d.answer, ticket);
      }
    }

    /** The read once its request is out. */
    method ReadAsked(d: During, ticket: nat, ghost ahead: seq<Message>, ghost behind: seq<Message>)
      returns (r: Option<map<int, int>>)
      requires Valid() && AnswerTo(d.answer, ticket) && 0 < ticket == requested && noted == ends == ticket - 1
      requires inbox == ahead + [Note] + (behind + d.answer)
      requires Notes(ahead) == 0 && Notes(behind) == 0 && UpTo(ahead + behind, ticket - 1)
      modifies this
      ensures Valid() && strays >= old(strays) && requested == old(requested)
      ensures AppliedAll(View(), Queue()).strays >= old(strays)
      ensures AppliedAll(View(), Queue()) == AppliedAll(old(View()), old(Queue()))
      ensures forall m :: m in Queue() ==> m in old(Queue())
      ensures old(connected) && Closed !in old(Queue()) && d.patience >= |old(Queue())|
              && ExecutionsEnd(d.executions) in d.answer ==>
                r.Some?
      ensures r.Some? ==> r.value == Collected(old(View()), old(Queue()), ticket, map[])
      ensures r.Some? ==> && connected && ends == ticket && IsCollected(r.value, ticket, d.answer)
                          && (AppliedAll(View(), Queue()).strays == old(strays) ==> HasOwn(d.answer, ticket, r.value))
    {
      ghost var l, q := View(), Queue();
      AskedQueue(l, pending, inbox, ahead, behind, d.answer, ticket);
      StraysGrow(l, q);
      AskedEnds(l, pending, inbox, ahead, behind, d.answer, ticket, ExecutionsEnd(d.executions));
      var orders, executionsDone := ReadList(ticket, d);
      if !connected || ends < ticket || !executionsDone {
        return None;
      }
      EndedTakesNone(View(), Queue(), ticket, orders);
      CollectedFrom(l, q, ticket, d.answer, orders);
      return Some(orders);
    }

    /** The read's loop: messages in turn, rows kept while its list is being read, until both its lists have ended. */
    method ReadList(ticket: nat, d: During) returns (orders: map<int, int>, executionsDone: bool)
      requires Valid() && ticket == requested
      modifies this
      ensures Valid() && requested == old(requested) && strays >= old(strays)
      ensures AppliedAll(View(), Queue()) == AppliedAll(old(View()), old(Queue()))
      ensures Collected(View(), Queue(), ticket, orders) == Collected(old(View()), old(Queue()), ticket, map[])
      ensures forall m :: m in Queue() ==> m in old(Queue())
      ensures old(connected) && Closed !in old(Queue()) && d.patience >= |old(Queue())|
              && ExecutionsEnd(d.executions) in old(Queue()) && AppliedAll(old(View()), old(Queue())).ends >= ticket ==>
                connected && ends >= ticket && executionsDone
    {
      orders, executionsDone := map[], false;
      var left := d.patience;
      ghost var open := connected && Closed !in Queue();
      while connected && left > 0 && Queue() != [] && !(ends >= ticket && executionsDone)
        invariant Valid() && requested == old(requested) && strays >= old(strays)
        invariant AppliedAll(View(), Queue()) == AppliedAll(old(View()), old(Queue()))
        invariant Collected(View(), Queue(), ticket, orders) == Collected(old(View()), old(Queue()), ticket, map[])
        invariant left + |old(Queue())| == d.patience + |Queue()| && forall m :: m in Queue() ==> m in old(Queue())
        invariant open ==> connected && Closed !in Queue()
        invariant ExecutionsEnd(d.executions) in old(Queue()) ==>
                  executionsDone || ExecutionsEnd(d.executions) in Queue()
      {
        var m := Pump();
        if m.Row? && noted >= ticket && ends < ticket {
          if m.order.inAccount {
            orders := orders[m.order.key := m.order.status];
          }
        } else if m == ExecutionsEnd(d.executions) {
          executionsDone := true;
        }
        left := left - 1;
      }
    }

    /** One read of collect_settled_broker_orders, and the quiet pump after it: failed, or what it collected, None where
        a stray was counted meanwhile. */
    method ReadOnce(d: During) returns (failed: bool, clean: Option<map<int, int>>)
      requires Valid() && Plausible(d, requested + 1)
      modifies this
      ensures Valid()
      ensures !failed ==> connected && Queue() == [] && ends == requested == old(requested) + 1 && !resyncDue
      ensures Answered(old(View()), old(Queue()), d) ==> !failed
      ensures Alone(old(View()), old(Queue())) && Undisturbed(d, old(requested) + 1) && !failed ==>
                clean == Some(RowsOf(d.answer, map[]))
      ensures !failed ==> clean.Some? == (strays == old(strays))
      ensures !failed && clean.Some? ==> WholeRead(clean.value, old(requested) + 1, d.answer)
    {
      var before := strays;
      var current, ticket := Collect(d);
      if current.None? {
        return true, None;
      }
      ghost var l, q := View(), Queue();
      var level := Resync(d.await, d.after, d.quietAfter);
      if !level {
        return true, None;
      }
      AppliedConcat(l, q, d.after);
      StraysGrow(AppliedAll(l, q), d.after);
      StraysGrow(l, q);
      if Undisturbed(d, ticket) {
        NoListNoStray(AppliedAll(l, q), d.after);
      }
      return false, if strays != before then None else current;
    }

    /** The next read, after which either it and the one before were clean and agree, or none has so far. */
    method ReadNext(ds: seq<During>, read: nat, previous: Option<map<int, int>>, ghost first: nat,
                    ghost given: seq<Option<map<int, int>>>)
      returns (failed: bool, current: Option<map<int, int>>)
      requires Valid() && read < |ds| && requested == first + read && Plausible(ds[read], requested + 1)
      requires Unsettled(ds, first, given, previous) && |given| == read
      modifies this
      ensures Valid()
      ensures !failed ==> requested == ends == first + read + 1 && connected && Queue() == []
      ensures !failed ==> var all := given + [current];
              && AllWhole(ds, first, all)
              && (current.Some? && previous == current ==> Settled(ds, first, all, current))
              && (current.None? || previous != current ==> Unsettled(ds, first, all, current))
      ensures Served(old(View()), old(Queue()), ds, read) ==> !failed && Served(View(), Queue(), ds, read + 1)
      ensures Alone(old(View()), old(Queue())) && GivenAre(ds, first, given) && !failed ==>
                Alone(View(), Queue()) && GivenAre(ds, first, given + [current])
    {
      ghost var l, q := View(), Queue();
      failed, current := ReadOnce(ds[read]);
      if !failed {
        ServedNext(l, q, View(), Queue(), ds, read);
        GivenMore(ds, first, given, previous, current);
      }
    }

    /** collect_settled_broker_orders: the later of two clean reads in a row that agree, and it holds every row of its
        own list in this account; None where a read fails, or no two in a row are clean and agree in the reads allowed.
        `given` is what each read gave. */
    method CollectSettled(ds: seq<During>)
      returns (r: Option<map<int, int>>, failed: bool, ghost given: seq<Option<map<int, int>>>)
      requires Valid() && forall i :: 0 <= i < |ds| ==> Plausible(ds[i], requested + 1 + i)
      modifies this
      ensures Valid() && AllWhole(ds, old(requested), given)
      ensures r.Some? ==> Settled(ds, old(requested), given, r) && connected && Queue() == [] && ends == requested
      ensures r.None? && !failed ==> |given| == |ds| && NoneAgree(given)
      ensures Served(old(View()), old(Queue()), ds, 0) ==> !failed
      ensures Alone(old(View()), old(Queue())) ==> GivenAre(ds, old(requested), given)
    {
      given := [];
      var previous: Option<map<int, int>> := None;
      var read := 0;
      ghost var first, served, alone := requested, Served(View(), Queue(), ds, 0), Alone(View(), Queue());
      while read < |ds|
        invariant 0 <= read <= |ds| && Valid() && requested == first + read
        invariant Unsettled(ds, first, given, previous) && |given| == read
        invariant served ==> Served(View(), Queue(), ds, read)
        invariant alone ==> Alone(View(), Queue()) && GivenAre(ds, first, given)
      {
        var current;
        failed, current := ReadNext(ds, read, previous, first, given);
        if failed {
          return None, true, given;
        }
        given := given + [current];
        if current.Some? && previous == current {
          return current, false, given;
        }
        previous := current;
        read := read + 1;
      }
      return None, false, given;
    }
  }

  /** The reads so far: the clean ones whole, no two in a row agreed, and the last one to compare the next with. */
  ghost predicate Unsettled(ds: seq<During>, requested: nat, given: seq<Option<map<int, int>>>,
                            previous: Option<map<int, int>>) {
    AllWhole(ds, requested, given) && NoneAgree(given) && previous == LastGiven(given)
  }

  /** On a level link, reads that begin with two undisturbed ones showing the same rows give those rows. */
  lemma AgreeingSettles(ds: seq<During>, requested: nat, given: seq<Option<map<int, int>>>, r: Option<map<int, int>>)
    requires if r.Some? then Settled(ds, requested, given, r) else |given| == |ds| && NoneAgree(given)
    requires GivenAre(ds, requested, given) && |ds| >= 2
    requires Undisturbed(ds[0], requested + 1) && Undisturbed(ds[1], requested + 2)
    requires RowsOf(ds[0].answer, map[]) == RowsOf(ds[1].answer, map[])
    ensures |given| == 2 && r == Some(RowsOf(ds[1].answer, map[]))
  {
    assert given[0] == given[1] == Some(RowsOf(ds[1].answer, map[]));
    assert given[..|given|] == given;
    if |given| > 2 {
      FirstTwoDiffer(given, if r.Some? then |given| - 1 else |given|);
    }
  }

  lemma FirstTwoDiffer(given: seq<Option<map<int, int>>>, n: nat)
    requires 2 <= n <= |given| && NoneAgree(given[..n]) && given[1].Some?
    ensures given[0] != given[1]
  {
    assert given[..n][0] == given[0] && given[..n][1] == given[1];
  }

  /** The last two reads were clean and agreed, and no two in a row before them. */
  ghost predicate Settled(ds: seq<During>, requested: nat, given: seq<Option<map<int, int>>>,
                          r: Option<map<int, int>>) {
    && 2 <= |given| <= |ds| && r.Some? && given[|given| - 2] == given[|given| - 1] == r
    && NoneAgree(given[..|given| - 1]) && WholeRead(r.value, requested + |given|, ds[|given| - 1].answer)
  }

  ghost function LastGiven(given: seq<Option<map<int, int>>>): Option<map<int, int>> {
    if given == [] then None else given[|given| - 1]
  }

  /** No two reads in a row were clean and agreed. */
  ghost predicate NoneAgree(given: seq<Option<map<int, int>>>) {
    forall i, j :: 0 <= i && j == i + 1 && j < |given| && given[j].Some? ==> given[i] != given[j]
  }

  /** Every clean read held all the rows of its own list. */
  ghost predicate AllWhole(ds: seq<During>, requested: nat, given: seq<Option<map<int, int>>>) {
    |given| <= |ds| && forall i :: 0 <= i < |given| && given[i].Some? ==>
        WholeRead(given[i].value, requested + 1 + i, ds[i].answer)
  }

  /** What a read gave is what is taken, while its list is being read, of the queue its request left, which ends with
      its answer. */
  ghost predicate IsCollected(orders: map<int, int>, ticket: nat, answer: seq<Message>) {
    exists l: Lists, q: seq<Message> :: CollectedOf(l, q, ticket, answer, orders)
  }

  ghost predicate CollectedOf(l: Lists, q: seq<Message>, ticket: nat, answer: seq<Message>, orders: map<int, int>) {
    && ticket > 0 && l.requested == ticket && l.noted == l.ends == ticket - 1
    && |answer| <= |q| && q[|q| - |answer|..] == answer
    && orders == Collected(l, q, ticket, map[])
  }

  /** The queue a request leaves ends with its answer, and a clean read of it is whole. */
  lemma AskedQueue(l: Lists, pending: seq<Message>, inbox: seq<Message>, ahead: seq<Message>, behind: seq<Message>,
                   answer: seq<Message>, ticket: nat)
    requires ticket > 0 && l.noted == l.ends == ticket - 1 && l.volunteered == ListMessages(pending)
             && Notes(pending) == 0
    requires inbox == ahead + [Note] + (behind + answer) && AnswerTo(answer, ticket)
    requires Notes(ahead) == 0 && Notes(behind) == 0 && UpTo(ahead + behind, ticket - 1)
    ensures var q := pending + inbox;
            && |answer| <= |q| && q[|q| - |answer|..] == answer
            && (AppliedAll(l, q).strays == l.strays ==> HasOwn(answer, ticket, Collected(l, q, ticket, map[])))
  {
    Regrouped(pending, ahead, behind + answer);
    EndsWith(pending + ahead + [Note] + behind, answer);
    SuffixOf(pending, ahead, behind, answer);
    CleanReadIsWhole(l, pending, ahead, behind, answer, ticket);
  }

  /** The answer ends its list, and brings the executions' end. */
  lemma AskedEnds(l: Lists, pending: seq<Message>, inbox: seq<Message>, ahead: seq<Message>, behind: seq<Message>,
                  answer: seq<Message>, ticket: nat, done: Message)
    requires ticket > 0 && l.noted == l.ends == ticket - 1 && l.volunteered == ListMessages(pending)
    requires Notes(pending) == 0 && Notes(ahead) == 0 && Notes(behind) == 0 && AnswerTo(answer, ticket)
    requires inbox == ahead + [Note] + (behind + answer)
    ensures AppliedAll(l, pending + inbox).ends >= ticket && (done in answer ==> done in pending + inbox)
  {
    Regrouped(pending, ahead, behind + answer);
    AnswerEnds(l, pending, ahead, behind, answer, ticket);
    if done in answer {
      assert done in behind + answer && done in inbox;
    }
  }

  lemma Regrouped(pending: seq<Message>, ahead: seq<Message>, rest: seq<Message>)
    ensures pending + (ahead + [Note] + rest) == pending + ahead + [Note] + rest
  {
  }

  lemma EndsWith(first: seq<Message>, answer: seq<Message>)
    ensures var q := first + answer; |answer| <= |q| && q[|q| - |answer|..] == answer
  {
  }

  lemma SuffixOf(pending: seq<Message>, ahead: seq<Message>, behind: seq<Message>, answer: seq<Message>)
    ensures pending + ahead + [Note] + behind + answer == pending + ahead + [Note] + (behind + answer)
  {
  }

  lemma CollectedFrom(l: Lists, q: seq<Message>, ticket: nat, answer: seq<Message>, orders: map<int, int>)
    requires CollectedOf(l, q, ticket, answer, orders)
    ensures IsCollected(orders, ticket, answer)
  {
  }

  /** It is that, and every row of its own answer in this account is among it. */
  ghost predicate WholeRead(orders: map<int, int>, ticket: nat, answer: seq<Message>) {
    IsCollected(orders, ticket, answer) && HasOwn(answer, ticket, orders)
  }

  lemma GivenMore(ds: seq<During>, requested: nat, given: seq<Option<map<int, int>>>, previous: Option<map<int, int>>,
                  current: Option<map<int, int>>)
    requires Unsettled(ds, requested, given, previous) && |given| < |ds|
    requires current.Some? ==> WholeRead(current.value, requested + |given| + 1, ds[|given|].answer)
    ensures var all := given + [current];
            && AllWhole(ds, requested, all)
            && (current.Some? && previous == current ==> Settled(ds, requested, all, current))
            && (current.None? || previous != current ==> Unsettled(ds, requested, all, current))
  {
    assert (given + [current])[..|given|] == given;
    WholeMore(ds, requested, given, current);
    if current.None? || LastGiven(given) != current { AgreeMore(given, current); }
  }

  lemma WholeMore(ds: seq<During>, requested: nat, given: seq<Option<map<int, int>>>, current: Option<map<int, int>>)
    requires AllWhole(ds, requested, given) && |given| < |ds|
    requires current.Some? ==> WholeRead(current.value, requested + |given| + 1, ds[|given|].answer)
    ensures AllWhole(ds, requested, given + [current])
  {
    var all := given + [current];
    forall i | 0 <= i < |all| && all[i].Some? ensures WholeRead(all[i].value, requested + 1 + i, ds[i].answer) {
      if i < |given| { assert all[i] == given[i]; }
    }
  }

  lemma AgreeMore(given: seq<Option<map<int, int>>>, current: Option<map<int, int>>)
    requires NoneAgree(given) && (current.None? || LastGiven(given) != current)
    ensures NoneAgree(given + [current])
  {
  }

  lemma AskFits(l: Lists, pending: seq<Message>, inbox: seq<Message>, at: nat, answer: seq<Message>)
    requires Fits(l, pending, inbox) && l.ends == l.requested && at <= |inbox| && AnswerTo(answer, l.requested + 1)
    ensures Notes(inbox[..at]) == 0 && Notes(inbox[at..]) == 0 && UpTo(inbox[..at] + inbox[at..], l.requested)
    ensures Fits(l.(requested := l.requested + 1), pending, inbox[..at] + [Note] + (inbox[at..] + answer))
  {
    var ahead, behind := inbox[..at], inbox[at..];
    assert inbox == ahead + behind;
    NotesConcat(ahead, behind);
    NotesConcat(behind, answer);
    NoNotes(answer);
    NotesConcat(ahead, [Note]);
    NotesConcat(ahead + [Note], behind + answer);
    assert [Note][1..] == [] && Notes([Note]) == 1;
    var all := ahead + [Note] + (behind + answer);
    forall i | 0 <= i < |all| && IsList(all[i]) ensures all[i].list <= l.requested + 1 {
      if i < at {
        assert all[i] == inbox[i];
      } else if at < i <= |inbox| {
        assert all[i] == inbox[i - 1];
      } else if i > |inbox| {
        assert all[i] == answer[i - |inbox| - 1];
      }
    }
  }

  lemma SpuriousFits(l: Lists, pending: seq<Message>, inbox: seq<Message>, coming: seq<Message>)
    requires Fits(l, pending, inbox) && Spurious(coming)
    ensures Fits(l, pending, inbox + coming)
  {
    NotesConcat(inbox, coming);
    NoNotes(coming);
  }
}
