/** Pairing replies with requests over a connection that carries no request number
    (transport/client.go, transport/server.go).

    Each request and reply carries the history's own record of what it is and what it answers; neither side
    reads it. What the environment decides (deadlines, failed writes, when the server runs, how the engine
    decides) is a parameter of each call, so the runs are all of them. */
module Pairing {

  datatype Code = InvalidFrame | InvalidEnvelope | Oversized | DeciderFailed | Timeout | ShuttingDown

  /** One envelope as the wire sees it: its ID, its encoded bytes with the newline, and whether the server
      can decode and accept it. */
  datatype Bar = Bar(id: string, size: nat, decodes: bool, valid: bool)

  datatype Request = Request(serial: nat, bar: Bar)

  datatype Body = Decision(causation: string) | Failure(code: Code, causation: string) | Neither

  datatype Reply = Reply(answers: Request, body: Body, size: nat, decodes: bool)

  datatype Decided = Decides(causation: string) | DeadlineExceeded | Canceled | Refuses

  /** One turn of the server's loop; `fails` is a handler that returns without having replied. */
  datatype Turn = Turn(decided: Decided, replySize: nat, replyDecodes: bool, fails: bool)

  datatype Link = Link(requests: seq<Request>, replies: seq<Reply>, sent: nat, open: bool)

  datatype Written = Whole | Failed(arrived: bool)

  /** What happens during one call: the deadline set or not, the write, the server's turns until the client
      stops waiting, and whether it stops at its deadline. */
  datatype During = During(deadlineSet: bool, written: Written, turns: seq<Turn>, timesOut: bool)

  datatype Outcome =
    | Returned(answers: Request, causation: string)
    | Rejected(answers: Request, code: Code, causation: string)
    | TooLarge
    | Unavailable
    | OutOfOrder

  // ----- The server -----

  /** respond, and the oversized reply of handle. */
  function Respond(bar: Bar, max: nat, decided: Decided): Body {
    if bar.size > max then Failure(Oversized, "")
    else if !bar.decodes then Failure(InvalidFrame, "")
    else if !bar.valid then Failure(InvalidEnvelope, bar.id)
    else match decided
      case Decides(causation) => Decision(causation)
      case DeadlineExceeded => Failure(Timeout, bar.id)
      case Canceled => Failure(ShuttingDown, bar.id)
      case Refuses => Failure(DeciderFailed, bar.id)
  }

  /** One pass of handle's loop: one frame read, one reply written, or the connection closed. */
  function ServerTurn(l: Link, max: nat, t: Turn): Link {
    if !l.open || l.requests == [] then l
    else
      var request := l.requests[0];
      var rest := l.(requests := l.requests[1..]);
      if t.fails || t.replySize > max then rest.(open := false)
      else rest.(replies := l.replies
          + [Reply(request, Respond(request.bar, max, t.decided), t.replySize, t.replyDecodes)])
  }

  function ServerTurns(l: Link, max: nat, turns: seq<Turn>): Link
    decreases |turns|
  {
    if turns == [] then l else ServerTurns(ServerTurn(l, max, turns[0]), max, turns[1..])
  }

  // ----- The client -----

  function Sent(l: Link, bar: Bar): Link {
    l.(requests := l.requests + [Request(l.sent, bar)], sent := l.sent + 1)
  }

  /** What the client makes of one reply to its bar. */
  function Judge(reply: Reply, bar: Bar, max: nat): Outcome {
    if reply.size > max || !reply.decodes then Unavailable
    else match reply.body
      case Failure(code, causation) =>
        if causation != "" && causation != bar.id then OutOfOrder
        else if code == ShuttingDown then Unavailable
        else Rejected(reply.answers, code, causation)
      case Neither => Unavailable
      case Decision(causation) =>
        if causation != bar.id then OutOfOrder else Returned(reply.answers, causation)
  }

  /** exchange, with the server's turns between its write and its read. */
  function Exchange(l: Link, bar: Bar, max: nat, serverMax: nat, d: During): (Outcome, Link) {
    if bar.size > max then (TooLarge, l)
    else if d.written.Failed? then
      (Unavailable, if d.written.arrived then Sent(l, bar) else l)
    else
      var l' := ServerTurns(Sent(l, bar), serverMax, d.turns);
      if d.timesOut || l'.replies == [] then (Unavailable, l')
      else (Judge(l'.replies[0], bar, max), l'.(replies := l'.replies[1..]))
  }

  /** recoverable: the exchange failed and left the stream where it was. */
  predicate Recoverable(o: Outcome) {
    o.Rejected? || o.TooLarge?
  }

  /** Decide: the outcome, whether the client is now broken, and the link. */
  function Decide(broken: bool, l: Link, bar: Bar, max: nat, serverMax: nat, d: During): (Outcome, bool, Link) {
    if broken || !d.deadlineSet then (Unavailable, broken, l)
    else
      var (o, l') := Exchange(l, bar, max, serverMax, d);
      (o, !o.Returned? && !Recoverable(o), l')
  }

  // ----- The two programs -----

  class Connection {
    var link: Link
    constructor ()
      ensures link == Link([], [], 0, true)
    {
      link := Link([], [], 0, true);
    }
  }

  class Server {
    const conn: Connection
    const max: nat

    constructor (conn: Connection, max: nat)
      ensures this.conn == conn && this.max == max
    {
      this.conn, this.max := conn, max;
    }

    /** handle, for as many turns as it gets. */
    method Handle(turns: seq<Turn>)
      modifies conn
      ensures conn.link == ServerTurns(old(conn.link), max, turns)
    {
      var i := 0;
      while i < |turns|
        invariant 0 <= i <= |turns|
        invariant ServerTurns(conn.link, max, turns[i..]) == ServerTurns(old(conn.link), max, turns)
      {
        var link := conn.link;
        if link.open && link.requests != [] {
          var request := link.requests[0];
          link := link.(requests := link.requests[1..]);
          if turns[i].fails || turns[i].replySize > max {
            link := link.(open := false);
          } else {
            var body := Respond(request.bar, max, turns[i].decided);
            link := link.(replies := link.replies + [Reply(request, body, turns[i].replySize, turns[i].replyDecodes)]);
          }
          conn.link := link;
        }
        i := i + 1;
      }
    }
  }

  class Client {
    const conn: Connection
    const max: nat
    var broken: bool

    constructor (conn: Connection, max: nat)
      ensures this.conn == conn && this.max == max && !broken
    {
      this.conn, this.max, broken := conn, max, false;
    }

    method Ask(server: Server, bar: Bar, d: During) returns (o: Outcome)
      requires server.conn == conn
      modifies conn
      ensures (o, conn.link) == Exchange(old(conn.link), bar, max, server.max, d)
    {
      if bar.size > max {
        return TooLarge;
      }
      match d.written {
        case Failed(arrived) =>
          if arrived {
            conn.link := Sent(conn.link, bar);
          }
          return Unavailable;
        case Whole =>
          conn.link := Sent(conn.link, bar);
      }
      server.Handle(d.turns);
      if d.timesOut || conn.link.replies == [] {
        return Unavailable;
      }
      var reply := conn.link.replies[0];
      conn.link := conn.link.(replies := conn.link.replies[1..]);
      o := Judge(reply, bar, max);
    }

    method Call(server: Server, bar: Bar, d: During) returns (o: Outcome)
      requires server.conn == conn
      modifies this, conn
      ensures (o, broken, conn.link) == Decide(old(broken), old(conn.link), bar, max, server.max, d)
    {
      if broken {
        return Unavailable;
      }
      if !d.deadlineSet {
        return Unavailable;
      }
      o := Ask(server, bar, d);
      if !o.Returned? && !Recoverable(o) {
        broken := true;
      }
    }
  }

  // ----- Every run -----

  datatype Event = Called(bar: Bar, during: During) | ServerRuns(turns: seq<Turn>)

  /** A call and the request it would have been: its bar under the next serial. */
  datatype Entry = Entry(asked: Request, outcome: Outcome)

  datatype State = State(broken: bool, link: Link, log: seq<Entry>)

  function Step(s: State, max: nat, serverMax: nat, e: Event): State {
    match e
    case ServerRuns(turns) => s.(link := ServerTurns(s.link, serverMax, turns))
    case Called(bar, during) =>
      var (o, broken, link) := Decide(s.broken, s.link, bar, max, serverMax, during);
      State(broken, link, s.log + [Entry(Request(s.link.sent, bar), o)])
  }

  function Run(s: State, max: nat, serverMax: nat, events: seq<Event>): State
    decreases |events|
  {
    if events == [] then s else Run(Step(s, max, serverMax, events[0]), max, serverMax, events[1..])
  }

  function Dialled(): State {
    State(false, Link([], [], 0, true), [])
  }

  /** The server's side: requests wait in the order sent, and each reply answers, as `respond` may, the
      request at its own place in line. */
  ghost predicate InOrder(l: Link, max: nat) {
    && |l.requests| + |l.replies| <= l.sent
    && (forall i :: 0 <= i < |l.requests| ==> l.requests[i].serial == l.sent - |l.requests| + i)
    && (forall i :: 0 <= i < |l.replies| ==> MayAnswer(l.replies[i], max))
    && (forall i, j :: 0 <= i < j < |l.replies| ==> l.replies[i].answers.serial < l.replies[j].answers.serial)
    && (forall i :: 0 <= i < |l.replies| ==> l.replies[i].answers.serial < l.sent - |l.requests|)
  }

  ghost predicate MayAnswer(r: Reply, max: nat) {
    exists decided :: r.body == Respond(r.answers.bar, max, decided)
  }

  predicate Aligned(l: Link) {
    l.requests == [] && l.replies == []
  }

  lemma TurnInOrder(l: Link, max: nat, t: Turn)
    requires InOrder(l, max)
    ensures InOrder(ServerTurn(l, max, t), max)
  {
  }

  lemma {:induction false} TurnsInOrder(l: Link, max: nat, turns: seq<Turn>)
    requires InOrder(l, max)
    ensures InOrder(ServerTurns(l, max, turns), max) && ServerTurns(l, max, turns).sent == l.sent
    decreases |turns|
  {
    if turns != [] {
      TurnInOrder(l, max, turns[0]);
      TurnsInOrder(ServerTurn(l, max, turns[0]), max, turns[1..]);
    }
  }

  /** With one request out, whatever the server's turns, the link holds that request or its one answer. */
  ghost predicate OneOut(l: Link, request: Request, max: nat) {
    || (l.requests == [request] && l.replies == [])
    || (l.requests == [] && l.replies == [] && !l.open)
    || (l.requests == [] && |l.replies| == 1 && l.replies[0].answers == request && MayAnswer(l.replies[0], max))
  }

  lemma {:induction false} OneOutStays(l: Link, request: Request, max: nat, turns: seq<Turn>)
    requires OneOut(l, request, max)
    ensures OneOut(ServerTurns(l, max, turns), request, max)
    decreases |turns|
  {
    if turns != [] { OneOutStays(ServerTurn(l, max, turns[0]), request, max, turns[1..]); }
  }

  lemma {:induction false} IdleStays(l: Link, max: nat, turns: seq<Turn>)
    requires Aligned(l)
    ensures ServerTurns(l, max, turns) == l
    decreases |turns|
  {
    if turns != [] { IdleStays(l, max, turns[1..]); }
  }

  /** What an outcome says of the request just sent: a decision names it, a rejection is one the server gives
      to that very bar. */
  ghost predicate Answers(e: Entry, serverMax: nat) {
    match e.outcome
    case Returned(answers, causation) => answers == e.asked && causation == e.asked.bar.id
    case Rejected(answers, code, causation) =>
      answers == e.asked && exists decided :: Failure(code, causation) == Respond(e.asked.bar, serverMax, decided)
    case _ => true
  }

  lemma ExchangeAnswers(l: Link, bar: Bar, max: nat, serverMax: nat, d: During)
    requires Aligned(l)
    ensures var (o, l') := Exchange(l, bar, max, serverMax, d);
            && Answers(Entry(Request(l.sent, bar), o), serverMax)
            && (o.Returned? || Recoverable(o) ==> Aligned(l'))
  {
    var request := Request(l.sent, bar);
    assert Sent(l, bar).requests == [request];
    OneOutStays(Sent(l, bar), request, serverMax, d.turns);
  }

  ghost predicate Good(s: State, serverMax: nat) {
    && (!s.broken ==> Aligned(s.link))
    && (forall i :: 0 <= i < |s.log| ==> Answers(s.log[i], serverMax))
  }

  lemma StepGood(s: State, max: nat, serverMax: nat, e: Event)
    requires Good(s, serverMax)
    ensures Good(Step(s, max, serverMax, e), serverMax)
  {
    match e {
      case ServerRuns(turns) =>
        if !s.broken { IdleStays(s.link, serverMax, turns); }
      case Called(bar, during) =>
        if !s.broken { ExchangeAnswers(s.link, bar, max, serverMax, during); }
    }
  }

  lemma {:induction false} RunGood(s: State, max: nat, serverMax: nat, events: seq<Event>)
    requires Good(s, serverMax)
    ensures Good(Run(s, max, serverMax, events), serverMax)
    decreases |events|
  {
    if events != [] {
      StepGood(s, max, serverMax, events[0]);
      RunGood(Step(s, max, serverMax, events[0]), max, serverMax, events[1..]);
    }
  }

  /** After any calls, timeouts, refused requests and turns of the server: a client not marked broken has
      nothing unread and nothing unanswered, and every decision and every rejection it returned, even one
      that names no request, answers the request of its own call. */
  lemma AnswersWhatWasAsked(max: nat, serverMax: nat, events: seq<Event>)
    ensures var s := Run(Dialled(), max, serverMax, events);
            && (!s.broken ==> Aligned(s.link))
            && (forall i :: 0 <= i < |s.log| ==> Answers(s.log[i], serverMax))
  {
    RunGood(Dialled(), max, serverMax, events);
  }

  lemma {:induction false} RunInOrder(s: State, max: nat, serverMax: nat, events: seq<Event>)
    requires InOrder(s.link, serverMax)
    ensures InOrder(Run(s, max, serverMax, events).link, serverMax)
    decreases |events|
  {
    if events != [] {
      var s' := Step(s, max, serverMax, events[0]);
      match events[0] {
        case ServerRuns(turns) => TurnsInOrder(s.link, serverMax, turns);
        case Called(bar, d) => CallInOrder(s.link, bar, max, serverMax, d);
      }
      RunInOrder(s', max, serverMax, events[1..]);
    }
  }

  lemma CallInOrder(l: Link, bar: Bar, max: nat, serverMax: nat, d: During)
    requires InOrder(l, serverMax)
    ensures InOrder(Exchange(l, bar, max, serverMax, d).1, serverMax)
  {
    TurnsInOrder(Sent(l, bar), serverMax, d.turns);
  }

  /** A client not broken stays usable: whatever went before, a request that is written, served and read in
      time returns what the server makes of it. */
  lemma StillUsable(max: nat, serverMax: nat, events: seq<Event>, bar: Bar, t: Turn)
    requires var s := Run(Dialled(), max, serverMax, events); !s.broken && s.link.open
    requires bar.size <= max && !t.fails && t.replySize <= serverMax && t.replySize <= max && t.replyDecodes
    ensures var s := Run(Dialled(), max, serverMax, events);
            var reply := Reply(Request(s.link.sent, bar), Respond(bar, serverMax, t.decided), t.replySize, true);
            Decide(false, s.link, bar, max, serverMax, During(true, Whole, [t], false)).0 == Judge(reply, bar, max)
  {
    var l := Run(Dialled(), max, serverMax, events).link;
    AnswersWhatWasAsked(max, serverMax, events);
    var l1 := Sent(l, bar);
    assert l1.requests == [Request(l.sent, bar)];
    assert ServerTurns(l1, serverMax, [t]) == ServerTurn(l1, serverMax, t) by { assert [t][1..] == []; }
  }

  /** Why the flag is needed: reading on after a timeout would take the abandoned bar's rejection, which names
      no request, for the answer to the next one. */
  lemma ReadingOnMispairs(max: nat, serverMax: nat, late: Bar, bar: Bar, t: Turn)
    requires late.size <= max && bar.size <= max && late.size > serverMax
    requires !t.fails && t.replySize <= serverMax && t.replySize <= max && t.replyDecodes
    ensures var (o, l) := Exchange(Dialled().link, late, max, serverMax, During(true, Whole, [], true));
            o == Unavailable
            && Exchange(l, bar, max, serverMax, During(true, Whole, [t], false)).0 ==
                 Rejected(Request(0, late), Oversized, "")
  {
    var l := Sent(Dialled().link, late);
    var l2 := Sent(l, bar);
    assert l2.requests == [Request(0, late), Request(1, bar)];
    assert ServerTurns(l2, serverMax, [t]) == ServerTurn(l2, serverMax, t) by { assert [t][1..] == []; }
  }

  // ----- What breaks a client, and what does not -----

  /** A call after any run: a broken client asks nothing; one that has no deadline set, whose request is too large
      to send, or that gets a decision or a rejection, is left as usable as it was, with nothing unread; every other
      call breaks it. */
  lemma CallBreaks(max: nat, serverMax: nat, events: seq<Event>, bar: Bar, d: During)
    ensures var s := Run(Dialled(), max, serverMax, events);
            var (o, broken, l) := Decide(s.broken, s.link, bar, max, serverMax, d);
            && (s.broken || !d.deadlineSet ==> o == Unavailable && broken == s.broken && l == s.link)
            && (!s.broken && d.deadlineSet ==>
                  && (o == TooLarge <==> bar.size > max) && (o == TooLarge ==> l == s.link)
                  && (broken <==> o == Unavailable || o == OutOfOrder) && (!broken ==> Aligned(l)))
  {
    var s := Run(Dialled(), max, serverMax, events);
    AnswersWhatWasAsked(max, serverMax, events);
    if !s.broken {
      ExchangeAnswers(s.link, bar, max, serverMax, d);
    }
  }

  /** What the client is told of a request the server reads and answers in time. */
  function Told(bar: Bar, serverMax: nat, decided: Decided, asked: Request): Outcome {
    if bar.size > serverMax then Rejected(asked, Oversized, "")
    else if !bar.decodes then Rejected(asked, InvalidFrame, "")
    else if !bar.valid then Rejected(asked, InvalidEnvelope, bar.id)
    else match decided
      case Decides(causation) => if causation == bar.id then Returned(asked, bar.id) else OutOfOrder
      case DeadlineExceeded => Rejected(asked, Timeout, bar.id)
      case Refuses => Rejected(asked, DeciderFailed, bar.id)
      case Canceled => Unavailable
  }

  /** From request to outcome, after any run: the engine's own reason reaches the caller of that very request, and
      only a decision that names another request, an engine shutting down, or a request that did not get its answer
      whole and in time breaks the client. */
  lemma EndToEnd(max: nat, serverMax: nat, events: seq<Event>, bar: Bar, t: Turn)
    requires var s := Run(Dialled(), max, serverMax, events); !s.broken && s.link.open
    requires bar.size <= max
    ensures var s := Run(Dialled(), max, serverMax, events);
            var (o, broken, l) := Decide(false, s.link, bar, max, serverMax, During(true, Whole, [t], false));
            if t.fails || t.replySize > serverMax then o == Unavailable && broken && !l.open
            else if t.replySize > max || !t.replyDecodes then o == Unavailable && broken
            else o == Told(bar, serverMax, t.decided, Request(s.link.sent, bar))
                 && (broken <==> bar.size <= serverMax && bar.decodes && bar.valid
                                 && (t.decided == Canceled || (t.decided.Decides? && t.decided.causation != bar.id)))
  {
    var l := Run(Dialled(), max, serverMax, events).link;
    AnswersWhatWasAsked(max, serverMax, events);
    var l1 := Sent(l, bar);
    assert l1.requests == [Request(l.sent, bar)];
    assert ServerTurns(l1, serverMax, [t]) == ServerTurn(l1, serverMax, t) by {
      assert [t][1..] == [];
    }
  }
}
