/** The newline-delimited frame reader and its resynchronisation (transport/frame.go).

    The stream is its bytes and the error every read past them reports. The buffered reader hands out
    what it holds up to a newline, or a whole buffer without one, so how it cuts the stream depends on
    the buffer's size; what `Next` reports is proved to depend on it only past the drain budget. */
module Frames {
  import opened Wrappers

  type Byte = b: int | 0 <= b < 256

  const Newline: Byte := 10
  const MaxDrainRatio: nat := 16

  datatype ReadError = Eof | Failed

  datatype SliceError = NoError | BufferFull | ReadStopped(error: ReadError)

  datatype Outcome =
    | Frame(bytes: seq<Byte>)
    | FrameTooLarge
    | Unsynchronised
    | UnexpectedEof
    | Stopped(error: ReadError)

  /** The first newline at or after `from`, or the stream's end. */
  function LineEnd(stream: seq<Byte>, from: nat): (n: nat)
    requires from <= |stream|
    ensures from <= n <= |stream|
    ensures forall i :: from <= i < n ==> stream[i] != Newline
    ensures n < |stream| ==> stream[n] == Newline
    decreases |stream| - from
  {
    if from == |stream| || stream[from] == Newline then from else LineEnd(stream, from + 1)
  }

  lemma {:induction false} LineEndUnique(stream: seq<Byte>, from: nat, n: nat)
    requires from <= n <= |stream|
    requires forall i :: from <= i < n ==> stream[i] != Newline
    requires n < |stream| ==> stream[n] == Newline
    ensures LineEnd(stream, from) == n
  {
    var m := LineEnd(stream, from);
    assert !(m < n) && !(n < m);
  }

  /** The bytes a drain discards, in whole buffers, before it gives up. */
  function Budget(max: nat, size: nat): nat
    requires size > 0
  {
    (max * MaxDrainRatio + size - 1) / size * size
  }

  /** Whole buffers until the reader has more than max bytes, then until the drain has spent its budget. */
  function Whole(max: nat, size: nat): nat
    requires size > 0
  {
    (max / size + 1) * size + Budget(max, size)
  }

  /** What `Next` reports from position p, and where it leaves the reader: a line and its newline of at most
      max bytes is a frame, a longer one is rejected at its newline, one that runs `whole` bytes or more
      loses the stream's position. Bytes with no newline after them end in the stream's own error, and
      only a part of a frame that could still have fitted is told from a clean end. */
  function Reports(stream: seq<Byte>, p: nat, error: ReadError, max: nat, whole: nat): (Outcome, nat)
    requires p <= |stream|
  {
    var n := LineEnd(stream, p);
    if n < |stream| && n - p + 1 <= max then (Frame(stream[p..n]), n + 1)
    else if n - p >= whole then (Unsynchronised, p + whole)
    else if n < |stream| then (FrameTooLarge, n + 1)
    else if p < n <= p + max && error.Eof? then (UnexpectedEof, n)
    else (Stopped(error), n)
  }

  class FrameReader {
    const stream: seq<Byte>
    const error: ReadError
    const size: nat
    const max: nat
    var pos: nat

    ghost predicate Valid()
      reads this
    {
      pos <= |stream| && size > 0 && max > 0
    }

    constructor (stream: seq<Byte>, error: ReadError, size: nat, max: nat)
      requires size > 0 && max > 0
      ensures Valid() && pos == 0 && this.stream == stream && this.error == error && this.size == size
              && this.max == max
    {
      this.stream, this.error, this.size, this.max, pos := stream, error, size, max, 0;
    }

    /** A read from `from`, on a line that ends at n: through its newline, or a whole buffer, or all that is left. */
    ghost predicate SliceIs(from: nat, n: nat, err: SliceError)
      reads this
    {
      if n < |stream| && n - from + 1 <= size then err == NoError && pos == n + 1
      else if n - from >= size then err == BufferFull && pos == from + size
      else err == ReadStopped(error) && pos == |stream| == n
    }

    /** bufio.Reader.ReadSlice: up to the newline, or a full buffer, or what is left when reading stops. */
    method ReadSlice() returns (chunk: seq<Byte>, err: SliceError)
      requires Valid()
      modifies this
      ensures Valid() && pos == old(pos) + |chunk| && chunk == stream[old(pos)..pos]
      ensures SliceIs(old(pos), LineEnd(stream, old(pos)), err)
    {
      var n := LineEnd(stream, pos);
      if n < |stream| && n - pos + 1 <= size {
        chunk, err := stream[pos..n + 1], NoError;
      } else if n - pos >= size {
        chunk, err := stream[pos..pos + size], BufferFull;
      } else {
        chunk, err := stream[pos..], ReadStopped(error);
      }
      pos := pos + |chunk|;
    }

    /** drain: discards up to the next newline, giving up once whole buffers have spent the budget. */
    method Drain() returns (err: SliceError, spent: bool)
      requires Valid()
      modifies this
      ensures Valid()
      ensures var n := LineEnd(stream, old(pos));
              var budget := Budget(max, size);
              if n - old(pos) >= budget then spent && err == BufferFull && pos == old(pos) + budget
              else !spent && (if n < |stream| then err == NoError && pos == n + 1
                  else err == ReadStopped(error) && pos == n)
    {
      ghost var p := pos;
      ghost var n := LineEnd(stream, p);
      var budget := max * MaxDrainRatio;
      ghost var k := 0;
      while true
        invariant Valid() && pos == p + k * size && pos <= n
        invariant budget == max * MaxDrainRatio - k * size && budget > 0
        invariant k >= 0 && LineEnd(stream, pos) == n
        decreases |stream| - pos
      {
        LineEndUnique(stream, pos, n);
        var chunk;
        chunk, err := ReadSlice();
        budget := budget - |chunk|;
        match err {
          case NoError =>
            BudgetLeft(max * MaxDrainRatio, size, k, n - p);
            return err, false;
          case BufferFull =>
            NextMultiple(k, size);
            k := k + 1;
            if budget <= 0 {
              LeastMultiple(max * MaxDrainRatio, size, k);
              return err, true;
            }
            LineEndUnique(stream, pos, n);
          case ReadStopped(_) =>
            BudgetLeft(max * MaxDrainRatio, size, k, n - p);
            return err, false;
        }
      }
    }

    /** discardOversized: what the read that crossed the limit leaves to do. */
    method DiscardOversized(readErr: SliceError) returns (result: Outcome)
      requires Valid()
      modifies this
      ensures Valid()
      ensures var n := LineEnd(stream, old(pos));
              match readErr
              case NoError => result == FrameTooLarge && pos == old(pos)
              case ReadStopped(e) => result == Stopped(e) && pos == old(pos)
              case BufferFull =>
                if n - old(pos) >= Budget(max, size)
                    then result == Unsynchronised && pos == old(pos) + Budget(max, size)
                else if n < |stream| then result == FrameTooLarge && pos == n + 1
                else result == Stopped(error) && pos == n
    {
      match readErr {
        case NoError =>
          return FrameTooLarge;
        case BufferFull =>
          var err, spent := Drain();
          if spent {
            return Unsynchronised;
          }
          return if err.NoError? then FrameTooLarge else Stopped(err.error);
        case ReadStopped(e) =>
          return Stopped(e);
      }
    }

    /** A read that takes the frame past the limit. */
    method TooLarge(err: SliceError, ghost from: nat, ghost p: nat, ghost n: nat, ghost k: nat)
      returns (result: Outcome)
      requires Valid() && p <= |stream| && n == LineEnd(stream, p) && from == p + k * size && from - p <= max < pos - p
      requires from <= n && LineEnd(stream, from) == n
      requires SliceIs(from, n, err)
      modifies this
      ensures Valid()
      ensures (result, pos) == Reports(stream, p, error, max, Whole(max, size))
    {
      TooLateToDrain(max, size, k);
      if err.BufferFull? {
        LineEndUnique(stream, pos, n);
      }
      result := DiscardOversized(err);
    }

    /** next: the next frame without its newline, or why there is none. */
    method Next() returns (result: Outcome)
      requires Valid()
      modifies this
      ensures Valid()
      ensures (result, pos) == Reports(stream, old(pos), error, max, Whole(max, size))
    {
      ghost var p := pos;
      ghost var n := LineEnd(stream, p);
      var frame: seq<Byte> := [];
      ghost var k := 0;
      while true
        invariant Valid() && k >= 0 && pos == p + k * size && pos <= n
        invariant frame == stream[p..pos] && |frame| <= max
        invariant LineEnd(stream, pos) == n
        decreases |stream| - pos
      {
        ghost var from := pos;
        var chunk, err := ReadSlice();
        if |frame| + |chunk| > max {
          result := TooLarge(err, from, p, n, k);
          return;
        }
        frame := frame + chunk;
        assert frame == stream[p..pos];
        match err {
          case NoError =>
            assert frame[..|frame| - 1] == stream[p..n];
            return Frame(frame[..|frame| - 1]);
          case BufferFull =>
            NextMultiple(k, size);
            k := k + 1;
            LineEndUnique(stream, pos, n);
          case ReadStopped(e) =>
            TooLateToDrain(max, size, k);
            return if e.Eof? && |frame| > 0 then UnexpectedEof else Stopped(e);
        }
      }
    }
  }

  // ----- What a whole stream reads as -----

  predicate Ends(o: Outcome) {
    !o.Frame? && !o.FrameTooLarge?
  }

  /** Every result of calling `Next` until it reports an end. */
  function Results(stream: seq<Byte>, p: nat, error: ReadError, max: nat, whole: nat): seq<Outcome>
    requires p <= |stream|
    decreases |stream| - p
  {
    var (o, q) := Reports(stream, p, error, max, whole);
    if Ends(o) then [o] else [o] + Results(stream, q, error, max, whole)
  }

  /** next called until it reports an end, as a connection's reader does. */
  method ReadAll(r: FrameReader) returns (results: seq<Outcome>)
    requires r.Valid()
    modifies r
    ensures r.Valid() && results == Results(r.stream, old(r.pos), r.error, r.max, Whole(r.max, r.size))
  {
    results := [];
    ghost var all := Results(r.stream, r.pos, r.error, r.max, Whole(r.max, r.size));
    while true
      invariant r.Valid() && all == results + Results(r.stream, r.pos, r.error, r.max, Whole(r.max, r.size))
      decreases |r.stream| - r.pos
    {
      var o := r.Next();
      results := results + [o];
      if Ends(o) {
        return;
      }
    }
  }

  predicate NoNewline(line: seq<Byte>) {
    forall i :: 0 <= i < |line| ==> line[i] != Newline
  }

  function Join(lines: seq<seq<Byte>>): seq<Byte> {
    if lines == [] then [] else lines[0] + [Newline] + Join(lines[1..])
  }

  function LineResult(line: seq<Byte>, max: nat): Outcome {
    if |line| + 1 <= max then Frame(line) else FrameTooLarge
  }

  function LineResults(lines: seq<seq<Byte>>, max: nat): seq<Outcome> {
    if lines == [] then [] else [LineResult(lines[0], max)] + LineResults(lines[1..], max)
  }

  predicate Readable(lines: seq<seq<Byte>>, max: nat, whole: nat) {
    forall i :: 0 <= i < |lines| ==> Within(lines[i], max, whole)
  }

  predicate Within(line: seq<Byte>, max: nat, whole: nat) {
    NoNewline(line) && (|line| + 1 <= max || |line| < whole)
  }

  /** The lines stand in the stream from p up to end, each with its newline. */
  predicate StandAt(stream: seq<Byte>, p: nat, lines: seq<seq<Byte>>, end: nat)
    decreases |lines|
  {
    if lines == [] then p == end <= |stream|
    else LineAt(stream, p, lines[0]) && StandAt(stream, p + |lines[0]| + 1, lines[1..], end)
  }

  predicate LineAt(stream: seq<Byte>, p: nat, line: seq<Byte>) {
    p + |line| < |stream| && stream[p..p + |line|] == line && stream[p + |line|] == Newline
  }

  lemma {:induction false} JoinedStand(before: seq<Byte>, lines: seq<seq<Byte>>, rest: seq<Byte>)
    ensures StandAt(before + Join(lines) + rest, |before|, lines, |before + Join(lines)|)
    decreases |lines|
  {
    if lines != [] {
      var before' := before + (lines[0] + [Newline]);
      RegroupAll(before, lines[0] + [Newline], Join(lines[1..]), rest);
      JoinedStand(before', lines[1..], rest);
      assert LineAt(before' + (Join(lines[1..]) + rest), |before|, lines[0]);
    }
  }

  lemma RegroupAll(a: seq<Byte>, b: seq<Byte>, c: seq<Byte>, d: seq<Byte>)
    ensures a + (b + c) == (a + b) + c
    ensures a + (b + c) + d == (a + b) + c + d == (a + b) + (c + d)
  {
  }

  lemma OneLine(stream: seq<Byte>, p: nat, line: seq<Byte>, error: ReadError, max: nat, whole: nat)
    requires LineAt(stream, p, line) && Within(line, max, whole)
    ensures Results(stream, p, error, max, whole)
            == [LineResult(line, max)] + Results(stream, p + |line| + 1, error, max, whole)
  {
    var n := p + |line|;
    assert forall i :: p <= i < n ==> stream[i] == line[i - p];
    LineEndUnique(stream, p, n);
    assert Reports(stream, p, error, max, whole) == (LineResult(line, max), n + 1);
  }

  /** What a reader gives from each place: at a line within the drain budget its result, then what it gives after. */
  ghost predicate ReadsEach(gives: nat -> seq<Outcome>, stream: seq<Byte>, max: nat, whole: nat) {
    forall p: nat, line :: LineAt(stream, p, line) && Within(line, max, whole) ==>
      gives(p) == [LineResult(line, max)] + gives(p + |line| + 1)
  }

  lemma {:induction false} ReadsFrom(gives: nat -> seq<Outcome>, stream: seq<Byte>, p: nat, lines: seq<seq<Byte>>,
                                     end: nat, max: nat, whole: nat)
    requires ReadsEach(gives, stream, max, whole) && Readable(lines, max, whole) && StandAt(stream, p, lines, end)
    ensures gives(p) == LineResults(lines, max) + gives(end)
    decreases |lines|
  {
    if lines != [] {
      ReadsFrom(gives, stream, p + |lines[0]| + 1, lines[1..], end, max, whole);
      assert gives(p) == [LineResult(lines[0], max)] + gives(p + |lines[0]| + 1);
      Regroup([LineResult(lines[0], max)], LineResults(lines[1..], max), gives(end));
    }
  }

  function Gives(stream: seq<Byte>, error: ReadError, max: nat, whole: nat): nat -> seq<Outcome> {
    (p: nat) => if p <= |stream| then Results(stream, p, error, max, whole) else []
  }

  lemma GivesOne(stream: seq<Byte>, p: nat, line: seq<Byte>, error: ReadError, max: nat, whole: nat)
    requires LineAt(stream, p, line) && Within(line, max, whole)
    ensures var gives := Gives(stream, error, max, whole);
            gives(p) == [LineResult(line, max)] + gives(p + |line| + 1)
  {
    var gives, q := Gives(stream, error, max, whole), p + |line| + 1;
    OneLine(stream, p, line, error, max, whole);
    assert gives(p) == Results(stream, p, error, max, whole) && gives(q) == Results(stream, q, error, max, whole);
  }

  lemma GivesEach(stream: seq<Byte>, error: ReadError, max: nat, whole: nat)
    ensures ReadsEach(Gives(stream, error, max, whole), stream, max, whole)
  {
    var gives := Gives(stream, error, max, whole);
    forall p: nat, line | LineAt(stream, p, line) && Within(line, max, whole)
      ensures gives(p) == [LineResult(line, max)] + gives(p + |line| + 1)
    {
      GivesOne(stream, p, line, error, max, whole);
    }
  }

  lemma StandingRead(stream: seq<Byte>, p: nat, lines: seq<seq<Byte>>, end: nat, error: ReadError, max: nat,
                     whole: nat)
    requires p <= |stream| && end <= |stream| && Readable(lines, max, whole) && StandAt(stream, p, lines, end)
    ensures Results(stream, p, error, max, whole) == LineResults(lines, max) + Results(stream, end, error, max, whole)
  {
    var gives := Gives(stream, error, max, whole);
    GivesEach(stream, error, max, whole);
    ReadsFrom(gives, stream, p, lines, end, max, whole);
    assert gives(p) == Results(stream, p, error, max, whole) && gives(end) == Results(stream, end, error, max, whole);
  }

  /** However the buffer cuts it, a stream of lines none of which outruns the drain budget reads as its lines,
      each a frame or a rejection by its length alone, then as whatever follows the last newline. */
  lemma ReadsLines(before: seq<Byte>, lines: seq<seq<Byte>>, rest: seq<Byte>, error: ReadError, max: nat, whole: nat)
    requires Readable(lines, max, whole)
    ensures var stream := before + Join(lines) + rest;
            Results(stream, |before|, error, max, whole)
            == LineResults(lines, max) + Results(stream, |before + Join(lines)|, error, max, whole)
  {
    JoinedStand(before, lines, rest);
    StandingRead(before + Join(lines) + rest, |before|, lines, |before + Join(lines)|, error, max, whole);
  }

  /** writeFrame: the encoding and a newline in one write, refused when it is longer than the limit. */
  method WriteFrame(wire: seq<Byte>, encoded: seq<Byte>, max: nat) returns (wire': seq<Byte>, accepted: bool)
    ensures accepted <==> |encoded| + 1 <= max
    ensures wire' == if accepted then wire + encoded + [Newline] else wire
  {
    if |encoded| + 1 > max {
      return wire, false;
    }
    return wire + encoded + [Newline], true;
  }

  /** Frames written in turn, the oversized refused, are the joined lines of those accepted. */
  method WriteFrames(frames: seq<seq<Byte>>, max: nat) returns (wire: seq<Byte>, sent: seq<seq<Byte>>)
    ensures wire == Join(sent) && sent == Fitting(frames, max)
  {
    wire, sent := [], [];
    var i := 0;
    while i < |frames|
      invariant 0 <= i <= |frames| && wire == Join(sent) && sent == Fitting(frames[..i], max)
    {
      var accepted;
      wire, accepted := WriteFrame(wire, frames[i], max);
      FittingAppend(frames[..i], frames[i], max);
      assert frames[..i + 1] == frames[..i] + [frames[i]];
      if accepted {
        JoinAppend(sent, frames[i]);
        sent := sent + [frames[i]];
      }
      i := i + 1;
    }
    assert frames[..i] == frames;
  }

  function Fitting(frames: seq<seq<Byte>>, max: nat): seq<seq<Byte>> {
    if frames == [] then []
    else FittingOne(frames[0], max) + Fitting(frames[1..], max)
  }

  function FittingOne(frame: seq<Byte>, max: nat): seq<seq<Byte>> {
    if |frame| + 1 <= max then [frame] else []
  }

  lemma {:induction false} FittingAppend(frames: seq<seq<Byte>>, frame: seq<Byte>, max: nat)
    ensures Fitting(frames + [frame], max) == Fitting(frames, max) + FittingOne(frame, max)
  {
    if frames == [] {
      assert frames + [frame] == [frame] && [frame][1..] == [];
      assert FittingOne(frame, max) + [] == [] + FittingOne(frame, max);
    } else {
      assert (frames + [frame])[1..] == frames[1..] + [frame];
      FittingAppend(frames[1..], frame, max);
      Regroup(FittingOne(frames[0], max), Fitting(frames[1..], max), FittingOne(frame, max));
    }
  }

  lemma {:induction false} JoinAppend(lines: seq<seq<Byte>>, line: seq<Byte>)
    ensures Join(lines + [line]) == Join(lines) + line + [Newline]
  {
    if lines == [] {
      assert lines + [line] == [line] && [line][1..] == [];
    } else {
      assert (lines + [line])[1..] == lines[1..] + [line];
      JoinAppend(lines[1..], line);
    }
  }

  /** Every sequence of newline-free encodings that fit reads back unchanged, whatever the buffer's size, and
      then as a clean end. */
  lemma RoundTrip(frames: seq<seq<Byte>>, max: nat, size: nat)
    requires size > 0 && forall i :: 0 <= i < |frames| ==> NoNewline(frames[i]) && |frames[i]| + 1 <= max
    ensures Results(Join(frames), 0, Eof, max, Whole(max, size))
         == seq(|frames|, i requires 0 <= i < |frames| => Frame(frames[i])) + [Stopped(Eof)]
  {
    WholePastMax(max, size);
    var whole := Whole(max, size);
    ReadsLines([], frames, [], Eof, max, whole);
    var stream := Join(frames);
    assert [] + stream + [] == stream;
    AllFrames(frames, max);
    assert Results(stream, |stream|, Eof, max, whole) == [Stopped(Eof)];
  }

  lemma {:induction false} AllFrames(frames: seq<seq<Byte>>, max: nat)
    requires forall i :: 0 <= i < |frames| ==> |frames[i]| + 1 <= max
    ensures LineResults(frames, max) == seq(|frames|, i requires 0 <= i < |frames| => Frame(frames[i]))
  {
    if frames != [] { AllFrames(frames[1..], max); }
  }

  /** A peer that stops part way through a frame is told from a clean end if and only if the part still fitted
      in a frame: an oversized part is reported as the stream's own end. */
  lemma PartOfFrame(stream: seq<Byte>, p: nat, max: nat, size: nat)
    requires p < |stream| && size > 0 && NoNewline(stream[p..]) && |stream| - p < Whole(max, size)
    ensures Reports(stream, p, Eof, max, Whole(max, size)).0 == if |stream| - p <= max then UnexpectedEof
            else Stopped(Eof)
  {
    assert forall i :: p <= i < |stream| ==> stream[i] == stream[p..][i - p];
    LineEndUnique(stream, p, |stream|);
  }

  // ----- The arithmetic of whole buffers -----

  lemma NextMultiple(k: nat, size: nat)
    ensures (k + 1) * size == k * size + size
  {
  }

  lemma Monotone(a: nat, b: nat, size: nat)
    requires a <= b
    ensures a * size <= b * size
  {
    assert b * size == a * size + (b - a) * size;
  }

  lemma Crossing(max: nat, size: nat, k: nat)
    requires size > 0 && k * size <= max < k * size + size
    ensures max / size == k
  {
    var q := max / size;
    assert q * size <= max < q * size + size;
    if q < k {
      Monotone(q + 1, k, size);
    } else if k < q {
      Monotone(k + 1, q, size);
    }
  }

  /** j is the least number of buffers that spend the budget. */
  lemma LeastMultiple(budget: nat, size: nat, j: nat)
    requires size > 0 && j > 0 && (j - 1) * size < budget <= j * size
    ensures (budget + size - 1) / size == j
  {
    assert (j - 1) * size == j * size - size;
    Crossing(budget + size - 1, size, j);
  }

  lemma BudgetLeft(budget: nat, size: nat, k: nat, run: nat)
    requires size > 0 && k * size < budget && k * size <= run < k * size + size
    ensures run < (budget + size - 1) / size * size
  {
    var j := (budget + size - 1) / size;
    assert j * size >= budget;
    if j <= k {
      Monotone(j, k, size);
    } else {
      Monotone(k + 1, j, size);
    }
  }

  lemma WholePastMax(max: nat, size: nat)
    requires size > 0
    ensures Whole(max, size) > max
  {
    var q := max / size;
    assert q * size <= max < q * size + size;
    assert (q + 1) * size == q * size + size;
  }

  /** The read after k whole buffers within the limit: a line it ends is within the drain budget, and when it
      crosses the limit with a whole buffer what the drain may still discard is its budget. */
  lemma TooLateToDrain(max: nat, size: nat, k: nat)
    requires size > 0 && k * size <= max
    ensures k * size + size <= Whole(max, size)
    ensures k * size + size > max ==> k * size + size + Budget(max, size) == Whole(max, size)
  {
    var q := max / size;
    assert q * size <= max < q * size + size;
    assert (q + 1) * size == q * size + size;
    if q < k {
      Monotone(q + 1, k, size);
    } else {
      Monotone(k, q, size);
    }
    if k * size + size > max {
      Crossing(max, size, k);
    }
  }
}
