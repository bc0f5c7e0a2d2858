/** Reading IBKR's open orders over a link whose answers carry no request ID
    (adapter/ibkr/connection.py, adapter/ibkr/orders.py).

    Every row and end carries the history's own record of the request it answers, zero for one that answers
    none; the adapter does not read it. A queue holds what the adapter has not taken, arrived or still on its
    way, in the order it will arrive. What the link does during a call is a parameter of it. */
module OpenOrders {

  /** An open order as its row shows it. */
  datatype Order = Order(key: int, id: int, byThisClient: bool, inAccount: bool, status: int)

  datatype Message =
    | Note
    | Row(list: nat, order: Order)
    | End(list: nat)
    | ExecutionsEnd(request: nat)
    | Closed
    | OtherMessage

  predicate IsList(m: Message) {
    m.Row? || m.End?
  }

  // ----- Taking one message -----

  /** The counters of a link: lists asked for, their notes taken, ends counted as theirs; rows and ends with no list
      outstanding; what the session's start put by; orders placed whose echo is to come. */
  datatype Lists = Lists(requested: nat, noted: nat, ends: nat, strays: nat, volunteered: nat, resyncDue: bool,
                         placed: set<int>, connected: bool)

  predicate IsEcho(l: Lists, m: Message) {
    m.Row? && m.order.id in l.placed && m.order.byThisClient
  }

  /** _apply, for the messages that concern the lists. */
  function Applied(l: Lists, m: Message): Lists {
    if m.Closed? then l.(connected := false)
    else if m.Note? then l.(noted := l.noted + 1)
    else if IsList(m) && l.ends >= l.noted && l.volunteered > 0 then l.(volunteered := l.volunteered - 1)
    else if m.Row? then
      if l.ends >= l.noted then
        if IsEcho(l, m) then l.(placed := l.placed - {m.order.id}) else l.(strays := l.strays + 1, resyncDue := true)
      else l
    else if m.End? then
      if l.ends < l.noted then l.(ends := l.ends + 1) else l.(strays := l.strays + 1, resyncDue := true)
    else l
  }

  function AppliedAll(l: Lists, ms: seq<Message>): Lists
    decreases |ms|
  {
    if ms == [] then l else AppliedAll(Applied(l, ms[0]), ms[1..])
  }

  predicate Reading(l: Lists, ticket: nat) {
    l.noted >= ticket && l.ends < ticket
  }

  /** The rows of this account taken while the list is being read, by order; a later row of one replaces it. */
  function Collected(l: Lists, ms: seq<Message>, ticket: nat, so: map<int, int>): map<int, int>
    decreases |ms|
  {
    if ms == [] then so
    else
      var l' := Applied(l, ms[0]);
      Collected(l', ms[1..], ticket, if Takes(l', ms[0], ticket) then so[ms[0].order.key := ms[0].order.status] else so)
  }

  predicate Takes(l: Lists, m: Message, ticket: nat) {
    m.Row? && Reading(l, ticket) && m.order.inAccount
  }

  // ----- What a queue holds -----

  function Notes(ms: seq<Message>): nat {
    if ms == [] then 0 else (if ms[0].Note? then 1 else 0) + Notes(ms[1..])
  }

  function ListMessages(ms: seq<Message>): nat {
    if ms == [] then 0 else (if IsList(ms[0]) then 1 else 0) + ListMessages(ms[1..])
  }

  /** Nothing in it answers a request after the last. */
  ghost predicate UpTo(ms: seq<Message>, requested: nat) {
    forall i :: 0 <= i < |ms| && IsList(ms[i]) ==> ms[i].list <= requested
  }

  /** What the link sends of its own accord: answers to no request. */
  ghost predicate Spurious(ms: seq<Message>) {
    forall i :: 0 <= i < |ms| ==> !ms[i].Note? && (IsList(ms[i]) ==> ms[i].list == 0)
  }

  /** The answer to one request, with anything spurious among it: rows, then one end, none of it after. */
  ghost predicate AnswerTo(ms: seq<Message>, ticket: nat) {
    && (forall i :: 0 <= i < |ms| ==> !ms[i].Note? && (IsList(ms[i]) ==> ms[i].list == 0 || ms[i].list == ticket))
    && (exists i :: 0 <= i < |ms| && ms[i] == End(ticket))
    && (forall i, j :: 0 <= i < j < |ms| && ms[i] == End(ticket) && IsList(ms[j]) ==> ms[j].list == 0)
  }

  lemma {:induction false} AppliedConcat(l: Lists, a: seq<Message>, b: seq<Message>)
    ensures AppliedAll(l, a + b) == AppliedAll(AppliedAll(l, a), b)
    decreases |a|
  {
    if a == [] {
      assert a + b == b;
    } else {
      assert (a + b)[1..] == a[1..] + b;
      AppliedConcat(Applied(l, a[0]), a[1..], b);
    }
  }

  lemma {:induction false} CollectedConcat(l: Lists, a: seq<Message>, b: seq<Message>, ticket: nat, so: map<int, int>)
    ensures Collected(l, a + b, ticket, so) == Collected(AppliedAll(l, a), b, ticket, Collected(l, a, ticket, so))
    decreases |a|
  {
    if a == [] {
      assert a + b == b;
    } else {
      assert (a + b)[1..] == a[1..] + b;
      var l' := Applied(l, a[0]);
      CollectedConcat(l', a[1..], b, ticket, if Takes(l', a[0], ticket) then so[a[0].order.key := a[0].order.status]
          else so);
    }
  }

  lemma {:induction false} NotesConcat(a: seq<Message>, b: seq<Message>)
    ensures Notes(a + b) == Notes(a) + Notes(b)
  {
    if a == [] {
      assert a + b == b;
    } else {
      assert (a + b)[1..] == a[1..] + b;
      NotesConcat(a[1..], b);
    }
  }

  lemma {:induction false} NoNotes(ms: seq<Message>)
    ensures Notes(ms) == 0 <==> forall i :: 0 <= i < |ms| ==> !ms[i].Note?
  {
    if ms != [] { NoNotes(ms[1..]); }
  }

  // ----- A clean read is whole -----

  lemma {:induction false} StraysGrow(l: Lists, ms: seq<Message>)
    ensures l.strays <= AppliedAll(l, ms).strays
    decreases |ms|
  {
    if ms != [] { StraysGrow(Applied(l, ms[0]), ms[1..]); }
  }

  /** With no list outstanding, no note to come and nothing put by, every end is a stray. */
  lemma {:induction false} LateEndStrays(l: Lists, ms: seq<Message>, i: nat)
    requires l.ends >= l.noted && l.volunteered == 0 && Notes(ms) == 0 && i < |ms| && ms[i].End?
    ensures AppliedAll(l, ms).strays > l.strays
    decreases |ms|
  {
    var l' := Applied(l, ms[0]);
    if i == 0 {
      StraysGrow(l', ms[1..]);
    } else {
      LateEndStrays(l', ms[1..], i - 1);
    }
  }

  ghost predicate HasOwn(ms: seq<Message>, ticket: nat, so: map<int, int>) {
    forall i :: 0 <= i < |ms| && ms[i].Row? && ms[i].list == ticket && ms[i].order.inAccount ==> ms[i].order.key in so
  }

  lemma {:induction false} CollectedGrows(l: Lists, ms: seq<Message>, ticket: nat, so: map<int, int>)
    ensures so.Keys <= Collected(l, ms, ticket, so).Keys
    decreases |ms|
  {
    if ms != [] {
      var l' := Applied(l, ms[0]);
      CollectedGrows(l', ms[1..], ticket, if Takes(l', ms[0], ticket) then so[ms[0].order.key := ms[0].order.status]
          else so);
    }
  }

  /** Once the list has ended nothing more of it is taken. */
  lemma {:induction false} EndedTakesNone(l: Lists, ms: seq<Message>, ticket: nat, so: map<int, int>)
    requires l.ends >= ticket
    ensures Collected(l, ms, ticket, so) == so
    decreases |ms|
  {
    if ms != [] { EndedTakesNone(Applied(l, ms[0]), ms[1..], ticket, so); }
  }

  /** While a list is read and its own end is to come: with no stray, that end ends it, so all its rows are taken. */
  lemma {:induction false} ReadingTakesAll(l: Lists, ms: seq<Message>, ticket: nat, so: map<int, int>, i: nat)
    requires ticket > 0 && l.noted == ticket && l.ends + 1 == ticket && l.volunteered == 0 && Notes(ms) == 0
    requires i < |ms| && ms[i] == End(ticket)
    requires forall j :: i < j < |ms| && IsList(ms[j]) ==> ms[j].list != ticket
    requires AppliedAll(l, ms).strays == l.strays
    ensures HasOwn(ms, ticket, Collected(l, ms, ticket, so))
    decreases |ms|
  {
    var m := ms[0];
    var l' := Applied(l, m);
    StraysGrow(l', ms[1..]);
    var so' := if Takes(l', m, ticket) then so[m.order.key := m.order.status] else so;
    if m.End? {
      if i > 0 {
        assert ms[1..][i - 1] == ms[i];
        LateEndStrays(l', ms[1..], i - 1);
      }
    } else {
      ReadingTakesAll(l', ms[1..], ticket, so', i - 1);
      CollectedGrows(l', ms[1..], ticket, so');
      forall j | 0 <= j < |ms| && ms[j].Row? && ms[j].list == ticket && ms[j].order.inAccount
        ensures ms[j].order.key in Collected(l, ms, ticket, so)
      {
        if j > 0 { assert ms[1..][j - 1] == ms[j]; }
      }
    }
  }

  /** With no list outstanding and no note to come, counters stay and nothing put by grows. */
  lemma {:induction false} IdleStays(l: Lists, ms: seq<Message>)
    requires l.ends >= l.noted && Notes(ms) == 0
    ensures var l' := AppliedAll(l, ms);
            && l'.requested == l.requested && l'.noted == l.noted && l'.ends == l.ends
            && l'.volunteered == if ListMessages(ms) >= l.volunteered then 0 else l.volunteered - ListMessages(ms)
    decreases |ms|
  {
    if ms != [] { IdleStays(Applied(l, ms[0]), ms[1..]); }
  }

  lemma {:induction false} BeforeTakesNone(l: Lists, ms: seq<Message>, ticket: nat, so: map<int, int>)
    requires l.noted + Notes(ms) < ticket
    ensures Collected(l, ms, ticket, so) == so && AppliedAll(l, ms).noted == l.noted + Notes(ms)
    decreases |ms|
  {
    if ms != [] { BeforeTakesNone(Applied(l, ms[0]), ms[1..], ticket, so); }
  }

  /** From the request on, taking all there is: what lay ahead of the note, the note, what was on its way, and the
      answer. If no stray was counted, every row of the answer in this account was taken as the list's. */
  lemma CleanReadIsWhole(l: Lists, pending: seq<Message>, ahead: seq<Message>, behind: seq<Message>,
                         answer: seq<Message>, ticket: nat)
    requires ticket > 0 && l.noted == l.ends == ticket - 1 && l.volunteered == ListMessages(pending)
    requires Notes(pending) == 0 && Notes(ahead) == 0 && Notes(behind) == 0 && UpTo(ahead + behind, ticket - 1)
    requires AnswerTo(answer, ticket)
    ensures var ms := pending + ahead + [Note] + (behind + answer);
            AppliedAll(l, ms).strays == l.strays ==> HasOwn(answer, ticket, Collected(l, ms, ticket, map[]))
  {
    var ms := pending + ahead + [Note] + (behind + answer);
    var first, post := pending + ahead + [Note], behind + answer;
    if AppliedAll(l, ms).strays == l.strays {
      UpToTheNote(l, pending, ahead, ticket);
      var read := AppliedAll(l, first);
      AppliedConcat(l, first, post);
      CollectedConcat(l, first, post, ticket, map[]);
      StraysGrow(l, first);
      StraysGrow(read, post);
      NotesConcat(behind, answer);
      NoNotes(answer);
      var i :| 0 <= i < |answer| && answer[i] == End(ticket);
      assert post[|behind| + i] == End(ticket);
      OwnEndIsLast(ahead, behind, answer, ticket, i);
      var so := Collected(l, first, ticket, map[]);
      ReadingTakesAll(read, post, ticket, so, |behind| + i);
      forall j | 0 <= j < |answer| && answer[j].Row? && answer[j].list == ticket && answer[j].order.inAccount
        ensures answer[j].order.key in Collected(l, ms, ticket, map[])
      {
        assert post[|behind| + j] == answer[j];
      }
    }
  }

  lemma OwnEndIsLast(ahead: seq<Message>, behind: seq<Message>, answer: seq<Message>, ticket: nat, i: nat)
    requires ticket > 0 && AnswerTo(answer, ticket) && i < |answer| && answer[i] == End(ticket)
    ensures var post := behind + answer;
            forall j :: |behind| + i < j < |post| && IsList(post[j]) ==> post[j].list != ticket
  {
    var post := behind + answer;
    forall j | |behind| + i < j < |post| && IsList(post[j]) ensures post[j].list != ticket {
      assert post[j] == answer[j - |behind|];
    }
  }

  /** Up to its note nothing is taken as the list's; at it the list begins, and nothing put by is left. */
  lemma UpToTheNote(l: Lists, pending: seq<Message>, ahead: seq<Message>, ticket: nat)
    requires ticket > 0 && l.noted == l.ends == ticket - 1 && l.volunteered == ListMessages(pending)
    requires Notes(pending) == 0 && Notes(ahead) == 0
    ensures var read := AppliedAll(l, pending + ahead + [Note]);
            read.noted == ticket && read.ends == ticket - 1 && read.volunteered == 0 && read.requested == l.requested
  {
    IdleStays(l, pending);
    IdleStays(AppliedAll(l, pending), ahead);
    AppliedConcat(l, pending, ahead);
    AppliedConcat(l, pending + ahead, [Note]);
    assert [Note][1..] == [];
  }

  // ----- When a list ends, and when it ends clean -----

  /** The note of a list taken, any end among what comes ends it. */
  lemma {:induction false} EndReached(l: Lists, ms: seq<Message>, i: nat)
    requires l.noted <= l.ends + 1 && Notes(ms) == 0 && i < |ms| && ms[i].End?
    ensures AppliedAll(l, ms).ends >= l.noted
    decreases |ms|
  {
    var l' := Applied(l, ms[0]);
    if i == 0 {
      EndsGrow(l', ms[1..]);
    } else {
      EndReached(l', ms[1..], i - 1);
    }
  }

  lemma {:induction false} EndsGrow(l: Lists, ms: seq<Message>)
    ensures AppliedAll(l, ms).ends >= l.ends
    decreases |ms|
  {
    if ms != [] { EndsGrow(Applied(l, ms[0]), ms[1..]); }
  }

  /** From the request on: its answer ends its list, whatever else there is. */
  lemma AnswerEnds(l: Lists, pending: seq<Message>, ahead: seq<Message>, behind: seq<Message>, answer: seq<Message>,
                   ticket: nat)
    requires ticket > 0 && l.noted == l.ends == ticket - 1 && l.volunteered == ListMessages(pending)
    requires Notes(pending) == 0 && Notes(ahead) == 0 && Notes(behind) == 0 && AnswerTo(answer, ticket)
    ensures AppliedAll(l, pending + ahead + [Note] + (behind + answer)).ends >= ticket
  {
    var first, post := pending + ahead + [Note], behind + answer;
    UpToTheNote(l, pending, ahead, ticket);
    AppliedConcat(l, first, post);
    NotesConcat(behind, answer);
    NoNotes(answer);
    var i :| 0 <= i < |answer| && answer[i] == End(ticket);
    assert post[|behind| + i] == End(ticket);
    EndReached(AppliedAll(l, first), post, |behind| + i);
  }

  /** No row or end among it but the list's own. */
  ghost predicate OnlyOwn(ms: seq<Message>, ticket: nat) {
    forall i :: 0 <= i < |ms| && IsList(ms[i]) ==> ms[i].list == ticket
  }

  /** An answer with nothing spurious among it is read without a stray. */
  lemma {:induction false} OwnAnswerIsClean(l: Lists, ms: seq<Message>, ticket: nat, i: nat)
    requires l.noted == ticket && l.ends + 1 == ticket && Notes(ms) == 0 && OnlyOwn(ms, ticket)
    requires i < |ms| && ms[i] == End(ticket)
    requires forall j, k :: 0 <= j < k < |ms| && ms[j] == End(ticket) ==> !IsList(ms[k])
    ensures AppliedAll(l, ms).strays == l.strays && AppliedAll(l, ms).resyncDue == l.resyncDue
    decreases |ms|
  {
    var l' := Applied(l, ms[0]);
    assert forall j :: 0 <= j < |ms[1..]| ==> ms[1..][j] == ms[j + 1];
    if i == 0 {
      NoListNoStray(l', ms[1..]);
    } else {
      OwnAnswerIsClean(l', ms[1..], ticket, i - 1);
    }
  }

  lemma {:induction false} NoListNoStray(l: Lists, ms: seq<Message>)
    requires forall j :: 0 <= j < |ms| ==> !IsList(ms[j])
    ensures AppliedAll(l, ms).strays == l.strays && AppliedAll(l, ms).resyncDue == l.resyncDue
    decreases |ms|
  {
    if ms != [] {
      NoListNoStray(Applied(l, ms[0]), ms[1..]);
    }
  }

  /** The rows of an answer in this account, by order; a later row of one replaces it. */
  function RowsOf(ms: seq<Message>, so: map<int, int>): map<int, int>
    decreases |ms|
  {
    if ms == [] then so
    else RowsOf(ms[1..], if ms[0].Row? && ms[0].order.inAccount then so[ms[0].order.key := ms[0].order.status] else so)
  }

  lemma {:induction false} NoRowsNone(ms: seq<Message>, so: map<int, int>)
    requires forall j :: 0 <= j < |ms| ==> !IsList(ms[j])
    ensures RowsOf(ms, so) == so
    decreases |ms|
  {
    if ms != [] {
      NoRowsNone(ms[1..], so);
    }
  }

  /** What is taken of an answer with nothing spurious among it is its rows. */
  lemma {:induction false} OwnAnswerCollects(l: Lists, ms: seq<Message>, ticket: nat, so: map<int, int>, i: nat)
    requires l.noted == ticket && l.ends + 1 == ticket && Notes(ms) == 0 && OnlyOwn(ms, ticket)
    requires i < |ms| && ms[i] == End(ticket)
    requires forall j, k :: 0 <= j < k < |ms| && ms[j] == End(ticket) ==> !IsList(ms[k])
    ensures Collected(l, ms, ticket, so) == RowsOf(ms, so)
    decreases |ms|
  {
    var l' := Applied(l, ms[0]);
    assert forall j :: 0 <= j < |ms[1..]| ==> ms[1..][j] == ms[j + 1];
    if i == 0 {
      EndedTakesNone(l', ms[1..], ticket, so);
      NoRowsNone(ms[1..], so);
    } else {
      var so' := if Takes(l', ms[0], ticket) then so[ms[0].order.key := ms[0].order.status] else so;
      OwnAnswerCollects(l', ms[1..], ticket, so', i - 1);
    }
  }

  /** A request on a link that holds nothing, its answer undisturbed: no stray, and exactly its rows. */
  lemma UndisturbedRead(l: Lists, answer: seq<Message>, ticket: nat)
    requires ticket > 0 && l.noted == l.ends == ticket - 1 && AnswerTo(answer, ticket) && OnlyOwn(answer, ticket)
    ensures var q := [Note] + answer;
            && AppliedAll(l, q).strays == l.strays && AppliedAll(l, q).resyncDue == l.resyncDue
            && Collected(l, q, ticket, map[]) == RowsOf(answer, map[])
  {
    var q, l' := [Note] + answer, Applied(l, Note);
    assert q[1..] == answer;
    NoNotes(answer);
    var i :| 0 <= i < |answer| && answer[i] == End(ticket);
    assert !Takes(l', Note, ticket);
    OwnAnswerIsClean(l', answer, ticket, i);
    OwnAnswerCollects(l', answer, ticket, map[], i);
  }

  // ----- What counts as a stray -----

  /** A row by this client of the order. */
  ghost predicate Echoes(ms: seq<Message>, id: int) {
    exists i :: 0 <= i < |ms| && ms[i].Row? && ms[i].order.byThisClient && ms[i].order.id == id
  }

  lemma EchoesFirst(ms: seq<Message>, id: int)
    requires ms != []
    ensures Echoes(ms, id) <==>
              Echoes(ms[1..], id) || (ms[0].Row? && ms[0].order.byThisClient && ms[0].order.id == id)
  {
    if i :| 0 <= i < |ms[1..]| && ms[1..][i].Row? && ms[1..][i].order.byThisClient && ms[1..][i].order.id == id {
      assert ms[i + 1] == ms[1..][i];
    }
    if i :| 0 <= i < |ms| && ms[i].Row? && ms[i].order.byThisClient && ms[i].order.id == id {
      assert i > 0 ==> ms[1..][i - 1] == ms[i];
    }
  }

  /** With no list outstanding and nothing put by, every row and end is a stray but one row of each order this client
      has placed and not yet seen: a second row of it, or one of another client's under its number, is a stray. */
  lemma {:induction false} StraysAre(l: Lists, ms: seq<Message>)
    requires l.ends >= l.noted && l.volunteered == 0 && Notes(ms) == 0
    ensures var l' := AppliedAll(l, ms);
            && l'.strays + |l.placed - l'.placed| == l.strays + ListMessages(ms) && l'.placed <= l.placed
            && (forall id :: id in l.placed ==> (id in l'.placed <==> !Echoes(ms, id)))
            && (l'.resyncDue <==> l.resyncDue || l'.strays > l.strays)
    decreases |ms|
  {
    if ms == [] {
      assert l.placed - l.placed == {};
    } else {
      var l1 := Applied(l, ms[0]);
      StraysAre(l1, ms[1..]);
      StraysGrow(l1, ms[1..]);
      var l' := AppliedAll(l, ms);
      forall id ensures Echoes(ms, id) <==>
                          Echoes(ms[1..], id) || (ms[0].Row? && ms[0].order.byThisClient && ms[0].order.id == id) {
        EchoesFirst(ms, id);
      }
      if IsEcho(l, ms[0]) {
        var id := ms[0].order.id;
        assert l.placed - l'.placed == (l1.placed - l'.placed) + {id};
      } else {
        assert l1.placed == l.placed;
      }
    }
  }
}
