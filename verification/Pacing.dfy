/** The two request pacers (adapter/ibkr/flex.py _Pacer, adapter/ibkr/connection.py paced).

    Time is real. Reading the clock gives any time not before the last, and a sleep ends no sooner than asked. */
module Pacing {

  class Clock {
    var now: real

    constructor ()
    {
      now := 0.0;
    }

    method Read() returns (t: real)
      modifies this
      ensures t == now >= old(now)
    {
      var passed: real :| passed >= 0.0;
      now := now + passed;
      t := now;
    }

    method Sleep(delay: real)
      requires delay >= 0.0
      modifies this
      ensures now >= old(now) + delay
    {
      var late: real :| late >= 0.0;
      now := now + delay + late;
    }
  }

  // ----- What a pacer keeps -----

  /** Any n + 1 sends in a row span at least `width`. */
  ghost predicate Spaced(sends: seq<real>, n: nat, width: real) {
    forall i, j :: 0 <= i && i + n == j && j < |sends| ==> sends[j] - sends[i] >= width
  }

  ghost predicate Ordered(sends: seq<real>) {
    forall i, j :: 0 <= i < j < |sends| ==> sends[i] <= sends[j]
  }

  /** `recent` is the end of the history, and what it no longer holds is too old, or too far back, to count. */
  ghost predicate Remembers(recent: seq<real>, sends: seq<real>, now: real, n: nat, width: real) {
    && |recent| <= |sends| && recent == sends[|sends| - |recent|..]
    && (forall i :: 0 <= i < |sends| ==> sends[i] <= now)
    && (forall i :: 0 <= i < |sends| - |recent| ==> i < |sends| - n || now - sends[i] >= width)
  }

  /** How many sends the half-open window of that width from `from` holds. */
  function CountIn(sends: seq<real>, from: real, width: real): nat {
    if sends == [] then 0
    else
      var k := |sends| - 1;
      CountIn(sends[..k], from, width) + if from <= sends[k] < from + width then 1 else 0
  }

  /** So no window of that width, wherever it starts, holds more than n sends. */
  lemma {:induction false} AnyWindow(sends: seq<real>, n: nat, width: real, from: real)
    requires n > 0 && Ordered(sends) && Spaced(sends, n, width)
    ensures CountIn(sends, from, width) <= n
    decreases |sends|
  {
    if sends != [] {
      var k := |sends| - 1;
      if from <= sends[k] < from + width {
        if n <= k {
          assert sends[k] - sends[k - n] >= width;
          NoneIn(sends[..k - n + 1], from, width);
          AtMost(sends, k - n + 1, from, width);
        } else {
          AtMost(sends, 0, from, width);
        }
      } else {
        AnyWindow(sends[..k], n, width, from);
      }
    }
  }

  lemma {:induction false} NoneIn(sends: seq<real>, from: real, width: real)
    requires forall i :: 0 <= i < |sends| ==> sends[i] < from
    ensures CountIn(sends, from, width) == 0
    decreases |sends|
  {
    if sends != [] { NoneIn(sends[..|sends| - 1], from, width); }
  }

  lemma {:induction false} AtMost(sends: seq<real>, m: nat, from: real, width: real)
    requires m <= |sends|
    ensures CountIn(sends, from, width) <= CountIn(sends[..m], from, width) + |sends| - m
    decreases |sends|
  {
    if m == |sends| {
      assert sends[..m] == sends;
    } else {
      var k := |sends| - 1;
      AtMost(sends[..k], m, from, width);
      assert sends[..k][..m] == sends[..m];
    }
  }

  /** The oldest may be forgotten once it is a width ago, or once n others are kept. */
  lemma Forget(recent: seq<real>, sends: seq<real>, now: real, n: nat, width: real)
    requires Remembers(recent, sends, now, n, width) && |recent| > 0
    requires now - recent[0] >= width || |recent| > n
    ensures Remembers(recent[1..], sends, now, n, width)
  {
    var k := |sends| - |recent|;
    assert recent[0] == sends[k] && recent[1..] == sends[k + 1..];
  }

  lemma Later(recent: seq<real>, sends: seq<real>, now: real, later: real, n: nat, width: real)
    requires Remembers(recent, sends, now, n, width) && now <= later
    ensures Remembers(recent, sends, later, n, width)
  {
  }

  lemma Append(recent: seq<real>, sends: seq<real>, now: real, n: nat, width: real)
    requires n > 0 && Remembers(recent, sends, now, n, width) && Ordered(sends) && Spaced(sends, n, width)
    requires |recent| <= n && (|recent| == n ==> now - recent[0] >= width)
    ensures Ordered(sends + [now]) && Spaced(sends + [now], n, width)
    ensures Remembers(recent + [now], sends + [now], now, n, width)
  {
    var k := |sends|;
    if n <= k {
      assert now - sends[k - n] >= width;
    }
    assert recent + [now] == (sends + [now])[k - |recent|..];
  }

  // ----- Flex requests: one second apart, ten a minute -----

  const MinRequestGap: real := 1.0
  const RequestsPerMinute: nat := 10
  const Minute: real := 60.0

  /** The rate IBKR allows one token. */
  ghost predicate FlexRate(sends: seq<real>) {
    Ordered(sends) && Spaced(sends, RequestsPerMinute, Minute) && Spaced(sends, 1, MinRequestGap)
  }

  ghost predicate Recent(sent: seq<real>, sends: seq<real>, now: real) {
    Remembers(sent, sends, now, RequestsPerMinute, Minute) && |sent| <= RequestsPerMinute
  }

  lemma RecentLater(sent: seq<real>, sends: seq<real>, now: real, later: real)
    requires Recent(sent, sends, now) && now <= later
    ensures Recent(sent, sends, later)
  {
  }

  class FlexPacer {
    const clock: Clock
    var sent: seq<real>
    ghost var sends: seq<real>

    ghost predicate Valid()
      reads this, clock
    {
      Recent(sent, sends, clock.now) && FlexRate(sends)
    }

    constructor (clock: Clock)
      ensures Valid() && sends == [] && this.clock == clock
    {
      this.clock, sent, sends := clock, [], [];
    }

    method Expire(now: real)
      requires Recent(sent, sends, now)
      modifies this`sent
      ensures Recent(sent, sends, now)
    {
      while |sent| > 0 && now - sent[0] >= Minute
        invariant Recent(sent, sends, now)
      {
        Forget(sent, sends, now, RequestsPerMinute, Minute);
        sent := sent[1..];
      }
    }

    /** How long to wait for a request to keep the rate. */
    method Delay(now: real) returns (delay: real)
      requires Remembers(sent, sends, now, RequestsPerMinute, Minute)
      ensures 0.0 <= delay <= Minute
      ensures |sent| > 0 ==> now + delay - sent[|sent| - 1] >= MinRequestGap
      ensures |sent| >= RequestsPerMinute ==> now + delay - sent[0] >= Minute
    {
      delay := 0.0;
      if |sent| > 0 {
        assert sent[|sent| - 1] == sends[|sends| - 1] && sent[0] == sends[|sends| - |sent|];
        delay := Max(delay, MinRequestGap - (now - sent[|sent| - 1]));
      }
      if |sent| >= RequestsPerMinute {
        delay := Max(delay, Minute - (now - sent[0]));
      }
      delay := Min(Max(delay, 0.0), Minute);
    }

    method Record(now: real)
      requires Recent(sent, sends, now)
      requires FlexRate(sends)
      requires |sent| > 0 ==> now - sent[|sent| - 1] >= MinRequestGap
      requires |sent| >= RequestsPerMinute ==> now - sent[0] >= Minute
      modifies this
      ensures Recent(sent, sends, now)
      ensures FlexRate(sends)
      ensures sends == old(sends) + [now]
    {
      LastGap(sent, sends, now);
      Append(sent, sends, now, RequestsPerMinute, Minute);
      sent := sent + [now];
      sends := sends + [now];
      while |sent| > RequestsPerMinute
        invariant Remembers(sent, sends, now, RequestsPerMinute, Minute)
        invariant sends == old(sends) + [now] && FlexRate(sends)
      {
        Forget(sent, sends, now, RequestsPerMinute, Minute);
        sent := sent[1..];
      }
    }

    method SleepFor(now: real, delay: real) returns (at: real)
      requires delay >= 0.0 && now == clock.now
      modifies clock
      ensures at == clock.now >= now + delay
    {
      at := now;
      if delay > 0.0 {
        clock.Sleep(delay);
        at := clock.Read();
        at := Max(at, now + delay);
      }
    }

    /** wait: returns when a request may go, having recorded that it goes now. */
    method Wait()
      requires Valid()
      modifies this, clock
      ensures Valid() && sends == old(sends) + [clock.now]
    {
      ghost var before := clock.now;
      var now := clock.Read();
      RecentLater(sent, sends, before, now);
      Expire(now);
      Send(now);
    }

    /** The delay slept through, then the request recorded. */
    method Send(now: real)
      requires Valid() && now == clock.now
      modifies this, clock
      ensures Valid() && sends == old(sends) + [clock.now]
    {
      var delay := Delay(now);
      var at := SleepFor(now, delay);
      RecentLater(sent, sends, now, at);
      Record(at);
    }
  }

  lemma LastGap(recent: seq<real>, sends: seq<real>, now: real)
    requires Remembers(recent, sends, now, RequestsPerMinute, Minute) && Spaced(sends, 1, MinRequestGap)
    requires |recent| > 0 ==> now - recent[|recent| - 1] >= MinRequestGap
    ensures Spaced(sends + [now], 1, MinRequestGap)
  {
    var k := |sends|;
    if |recent| > 0 {
      assert recent[|recent| - 1] == sends[k - 1];
    } else if k > 0 {
      assert now - sends[k - 1] >= Minute;
    }
  }

  function Max(a: real, b: real): real {
    if a < b then b else a
  }

  function Min(a: real, b: real): real {
    if a < b then a else b
  }

  // ----- Messages to the gateway: forty a second -----

  const PaceLimit: nat := 40
  const PaceWindow: real := 1.0

  class MessagePacer {
    const clock: Clock
    var paced: seq<real>
    ghost var sends: seq<real>

    ghost predicate Valid()
      reads this, clock
    {
      && Remembers(paced, sends, clock.now, PaceLimit, PaceWindow) && |paced| <= PaceLimit
      && Ordered(sends) && Spaced(sends, PaceLimit, PaceWindow)
    }

    constructor (clock: Clock)
      ensures Valid() && sends == [] && this.clock == clock
    {
      this.clock, paced, sends := clock, [], [];
    }

    method Expire(now: real)
      requires Remembers(paced, sends, now, PaceLimit, PaceWindow) && |paced| <= PaceLimit
      modifies this`paced
      ensures Remembers(paced, sends, now, PaceLimit, PaceWindow) && |paced| <= |old(paced)|
      ensures |old(paced)| > 0 && now - old(paced)[0] >= PaceWindow ==> |paced| < |old(paced)|
    {
      while |paced| > 0 && now - paced[0] >= PaceWindow
        invariant Remembers(paced, sends, now, PaceLimit, PaceWindow)
        invariant |paced| < |old(paced)| || paced == old(paced)
      {
        Forget(paced, sends, now, PaceLimit, PaceWindow);
        paced := paced[1..];
      }
    }

    method Record(now: real)
      requires Remembers(paced, sends, now, PaceLimit, PaceWindow) && |paced| < PaceLimit
      requires Ordered(sends) && Spaced(sends, PaceLimit, PaceWindow)
      modifies this
      ensures Remembers(paced, sends, now, PaceLimit, PaceWindow) && |paced| <= PaceLimit
      ensures Ordered(sends) && Spaced(sends, PaceLimit, PaceWindow)
      ensures sends == old(sends) + [now]
    {
      Append(paced, sends, now, PaceLimit, PaceWindow);
      paced := paced + [now];
      sends := sends + [now];
    }

    /** paced: waits until fewer than forty messages went in the last second, then records this one. */
    method Pace()
      requires Valid()
      modifies this, clock
      ensures Valid() && sends == old(sends) + [clock.now]
    {
      var now;
      while true
        invariant Remembers(paced, sends, clock.now, PaceLimit, PaceWindow) && |paced| <= PaceLimit
        invariant sends == old(sends)
        decreases |paced|, if |paced| > 0 && clock.now - paced[0] >= PaceWindow then 0 else 1
      {
        ghost var before := clock.now;
        now := clock.Read();
        Later(paced, sends, before, now, PaceLimit, PaceWindow);
        Expire(now);
        if |paced| < PaceLimit {
          break;
        }
        var pause := Max(0.0, paced[0] + PaceWindow - now);
        clock.Sleep(pause);
        Later(paced, sends, now, clock.now, PaceLimit, PaceWindow);
      }
      ghost var before := clock.now;
      now := clock.Read();
      Later(paced, sends, before, now, PaceLimit, PaceWindow);
      Record(now);
    }
  }
}
