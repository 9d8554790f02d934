/**
 * Newline-delimited framing of the signer's socket (src/signer/index.ts): however a byte stream is cut into
 * pushes, the same frames come out.
 */
module Frames {
  import opened Options
  import opened Basics

  type Bytes = seq<byte>

  const NEWLINE: byte := 10

  /** Where the first newline is, or the length where there is none. */
  function IndexOf(b: Bytes): (i: nat)
    ensures i <= |b|
  {
    if b == [] || b[0] == NEWLINE then 0 else 1 + IndexOf(b[1..])
  }

  lemma {:induction false} FirstNewline(b: Bytes)
    ensures var i := IndexOf(b); (forall k | 0 <= k < i :: b[k] != NEWLINE) && (i < |b| ==> b[i] == NEWLINE)
  {
    if b != [] && b[0] != NEWLINE {
      FirstNewline(b[1..]);
    }
  }

  lemma {:induction false} IndexIs(b: Bytes, i: nat)
    requires i <= |b| && (forall k | 0 <= k < i :: b[k] != NEWLINE) && (i < |b| ==> b[i] == NEWLINE)
    ensures IndexOf(b) == i
  {
    if i > 0 {
      IndexIs(b[1..], i - 1);
    }
  }

  /** What a push or a run of pushes comes to; an error drops the frames of that push. */
  datatype Outcome<V> =
    | Decoded(frames: seq<V>, pending: Bytes)
    | TooLarge(pending: Bytes)
    | BadJson(pending: Bytes)

  /** The loop of a push. */
  function Drain<V>(parse: Bytes -> Option<V>, max: int, pending: Bytes): Outcome<V>
    decreases |pending|
  {
    var i := IndexOf(pending);
    if i == |pending| then Decoded([], pending)
    else if i > max then TooLarge(pending)
    else
      var line, rest := pending[..i], pending[i + 1..];
      if i == 0 then Drain(parse, max, rest)
      else if parse(line).None? then BadJson(rest)
      else
        match Drain(parse, max, rest)
        case Decoded(frames, left) => Decoded([parse(line).value] + frames, left)
        case TooLarge(left) => TooLarge(left)
        case BadJson(left) => BadJson(left)
  }

  function PushTo<V>(parse: Bytes -> Option<V>, max: int, pending: Bytes, chunk: Bytes): Outcome<V> {
    var all := pending + chunk;
    if |all| > max && IndexOf(all) == |all| then TooLarge(all) else Drain(parse, max, all)
  }

  /** Pushing chunk after chunk, up to the first error. */
  function PushAll<V>(parse: Bytes -> Option<V>, max: int, pending: Bytes, chunks: seq<Bytes>): Outcome<V>
    decreases |chunks|
  {
    if chunks == [] then Decoded([], pending)
    else
      match PushTo(parse, max, pending, chunks[0])
      case TooLarge(left) => TooLarge(left)
      case BadJson(left) => BadJson(left)
      case Decoded(frames, left) =>
        match PushAll(parse, max, left, chunks[1..])
        case TooLarge(end) => TooLarge(end)
        case BadJson(end) => BadJson(end)
        case Decoded(more, end) => Decoded(frames + more, end)
  }

  class JsonFrameDecoder<V> {
    const parse: Bytes -> Option<V>
    const max: int
    var pending: Bytes

    constructor (parse: Bytes -> Option<V>, max: int)
      ensures this.parse == parse && this.max == max && pending == []
    {
      this.parse, this.max, pending := parse, max, [];
    }

    /** The result's `pending` is always the buffer afterwards, also where the source throws. */
    method Push(chunk: Bytes) returns (r: Outcome<V>)
      modifies this
      ensures r == PushTo(parse, max, old(pending), chunk)
      ensures pending == r.pending
    {
      pending := pending + chunk;
      if |pending| > max && IndexOf(pending) == |pending| {
        return TooLarge(pending);
      }
      var out: seq<V> := [];
      while IndexOf(pending) < |pending|
        invariant PushTo(parse, max, old(pending), chunk) == Prefixed(out, Drain(parse, max, pending))
        decreases |pending|
      {
        var i := IndexOf(pending);
        if i > max {
          return TooLarge(pending);
        }
        var line := pending[..i];
        pending := pending[i + 1..];
        if line != [] {
          var value := parse(line);
          if value.None? {
            return BadJson(pending);
          }
          out := out + [value.value];
        }
      }
      return Decoded(out, pending);
    }
  }

  function Prefixed<V>(frames: seq<V>, r: Outcome<V>): Outcome<V> {
    if r.Decoded? then Decoded(frames + r.frames, r.pending) else r
  }

  // ---- the stream itself -------------------------------------------------------------------------

  /** The finished lines of a stream. */
  function Lines(b: Bytes): seq<Bytes>
    decreases |b|
  {
    var i := IndexOf(b);
    if i == |b| then [] else [b[..i]] + Lines(b[i + 1..])
  }

  /** What follows the last newline. */
  function Tail(b: Bytes): Bytes
    decreases |b|
  {
    var i := IndexOf(b);
    if i == |b| then b else Tail(b[i + 1..])
  }

  predicate LineOk<V>(parse: Bytes -> Option<V>, max: int, line: Bytes) {
    |line| <= max && (line != [] ==> parse(line).Some?)
  }

  predicate LinesOk<V>(parse: Bytes -> Option<V>, max: int, lines: seq<Bytes>) {
    forall i | 0 <= i < |lines| :: LineOk(parse, max, lines[i])
  }

  /** The frames of some lines: the parsed non-empty ones, in order. */
  function Values<V>(parse: Bytes -> Option<V>, max: int, lines: seq<Bytes>): seq<V>
    requires LinesOk(parse, max, lines)
  {
    if lines == [] then []
    else (if lines[0] == [] then [] else [parse(lines[0]).value]) + Values(parse, max, lines[1..])
  }

  function Flat(chunks: seq<Bytes>): Bytes {
    if chunks == [] then [] else chunks[0] + Flat(chunks[1..])
  }

  // ---- what the lines are ------------------------------------------------------------------------

  /** Lines put back on the wire, each with its newline. */
  function Joined(lines: seq<Bytes>): Bytes {
    if lines == [] then [] else lines[0] + [10] + Joined(lines[1..])
  }

  lemma JoinedFirst(line: Bytes, lines: seq<Bytes>, tail: Bytes)
    ensures Joined([line] + lines) + tail == line + [10] + (Joined(lines) + tail)
  {
    assert ([line] + lines)[1..] == lines;
  }

  lemma CutAtBreak(b: Bytes, i: nat)
    requires i < |b| && b[i] == 10
    ensures b == b[..i] + [10] + b[i + 1..]
  {
  }

  ghost predicate NoBreaks(lines: seq<Bytes>) {
    forall i | 0 <= i < |lines| :: 10 !in lines[i]
  }

  /** The lines and the tail are the stream cut at every byte 10, and at no other place. */
  lemma {:induction false} StreamIsItsLines(b: Bytes)
    ensures b == Joined(Lines(b)) + Tail(b)
    ensures 10 !in Tail(b) && NoBreaks(Lines(b))
    decreases |b|
  {
    FirstNewline(b);
    var i := IndexOf(b);
    if i < |b| {
      StreamIsItsLines(b[i + 1..]);
      FirstLine(b, b[i + 1..]);
      JoinedFirst(b[..i], Lines(b[i + 1..]), Tail(b));
      CutAtBreak(b, i);
    }
  }

  /** One line sent whole: its frame where it is at most `max` bytes long and parses, and the error otherwise. */
  lemma OneLinePush<V>(parse: Bytes -> Option<V>, max: nat, line: Bytes)
    requires 10 !in line
    ensures PushAll(parse, max, [], [line + [10]]) ==
      if |line| > max then TooLarge(line + [10])
      else if line == [] then Decoded([], [])
      else if parse(line).None? then BadJson([])
      else Decoded([parse(line).value], [])
  {
    var all := line + [10];
    assert all[|line|] == 10 && [] + all == all;
    IndexIs(all, |line|);
    assert all[..|line|] == line && all[|line| + 1..] == [];
    assert Drain(parse, max, []) == Decoded([], []);
    assert [all][1..] == [];
    assert PushAll(parse, max, [], [all][1..]) == Decoded([], []);
  }

  // ---- decoding is reading the lines -------------------------------------------------------------

  lemma {:induction false} ValuesSplit<V>(parse: Bytes -> Option<V>, max: int, a: seq<Bytes>, c: seq<Bytes>)
    ensures LinesOk(parse, max, a + c) <==> LinesOk(parse, max, a) && LinesOk(parse, max, c)
    ensures LinesOk(parse, max, a + c) ==>
      Values(parse, max, a + c) == Values(parse, max, a) + Values(parse, max, c)
  {
    LinesOkSplit(parse, max, a, c);
    if a == [] {
      assert a + c == c;
    } else {
      assert (a + c)[1..] == a[1..] + c && (a + c)[0] == a[0];
      ValuesSplit(parse, max, a[1..], c);
    }
  }

  lemma LinesOkSplit<V>(parse: Bytes -> Option<V>, max: int, a: seq<Bytes>, c: seq<Bytes>)
    ensures LinesOk(parse, max, a + c) <==> LinesOk(parse, max, a) && LinesOk(parse, max, c)
  {
    if LinesOk(parse, max, a + c) {
      forall i | 0 <= i < |a| ensures LineOk(parse, max, a[i]) {
        assert (a + c)[i] == a[i];
      }
      forall i | 0 <= i < |c| ensures LineOk(parse, max, c[i]) {
        assert (a + c)[|a| + i] == c[i];
      }
    }
  }

  lemma FirstLine(b: Bytes, rest: Bytes)
    requires IndexOf(b) < |b| && rest == b[IndexOf(b) + 1..]
    ensures Lines(b) == [b[..IndexOf(b)]] + Lines(rest)
    ensures Tail(b) == Tail(rest)
  {
  }

  lemma OneLine<V>(parse: Bytes -> Option<V>, max: int, line: Bytes)
    ensures LinesOk(parse, max, [line]) <==> LineOk(parse, max, line)
    ensures LineOk(parse, max, line) ==>
      Values(parse, max, [line]) == if line == [] then [] else [parse(line).value]
  {
    assert [line][0] == line && [line][1..] == [];
  }

  /** Draining a buffer succeeds exactly on good lines, and yields their frames. */
  lemma {:induction false} DrainReadsLines<V>(parse: Bytes -> Option<V>, max: int, b: Bytes)
    ensures Drain(parse, max, b).Decoded? <==> LinesOk(parse, max, Lines(b))
    ensures LinesOk(parse, max, Lines(b)) ==>
      Drain(parse, max, b) == Decoded(Values(parse, max, Lines(b)), Tail(b))
    decreases |b|
  {
    var i := IndexOf(b);
    if i < |b| {
      DrainReadsLines(parse, max, b[i + 1..]);
      FirstLine(b, b[i + 1..]);
      OneLine(parse, max, b[..i]);
      ValuesSplit(parse, max, [b[..i]], Lines(b[i + 1..]));
    }
  }

  lemma NoEarlierBreak(a: Bytes, c: Bytes)
    requires IndexOf(a) == |a|
    ensures IndexOf(a + c) >= |a|
  {
    FirstNewline(a);
    FirstNewline(a + c);
    forall k | 0 <= k < |a| ensures (a + c)[k] != NEWLINE {
      assert (a + c)[k] == a[k];
    }
  }

  lemma FirstBreakStays(a: Bytes, c: Bytes)
    requires IndexOf(a) < |a|
    ensures var i := IndexOf(a);
      IndexOf(a + c) == i && (a + c)[..i] == a[..i] && (a + c)[i + 1..] == a[i + 1..] + c
  {
    FirstNewline(a);
    IndexIs(a + c, IndexOf(a));
  }

  /** Only the unfinished tail of what was read matters to what comes next. */
  lemma {:induction false} LinesSplit(a: Bytes, c: Bytes)
    ensures Lines(a + c) == Lines(a) + Lines(Tail(a) + c)
    ensures Tail(a + c) == Tail(Tail(a) + c)
    decreases |a|
  {
    var i := IndexOf(a);
    if i < |a| {
      FirstBreakStays(a, c);
      FirstLine(a, a[i + 1..]);
      FirstLine(a + c, a[i + 1..] + c);
      LinesSplit(a[i + 1..], c);
    }
  }

  lemma {:induction false} TailHasNoBreak(b: Bytes)
    ensures IndexOf(Tail(b)) == |Tail(b)|
    ensures Lines(Tail(b)) == [] && Tail(Tail(b)) == Tail(b)
    decreases |b|
  {
    if IndexOf(b) < |b| {
      TailHasNoBreak(b[IndexOf(b) + 1..]);
    }
  }

  // ---- any cutting -------------------------------------------------------------------------------

  /** Some push would leave a buffer without a newline that is over the limit. */
  predicate Overflows(max: int, pending: Bytes, chunks: seq<Bytes>)
    decreases |chunks|
  {
    chunks != [] &&
    (var all := pending + chunks[0];
     (|all| > max && IndexOf(all) == |all|) || Overflows(max, Tail(all), chunks[1..]))
  }

  /**
   * Pushing any chunks succeeds exactly where every finished line is good and no push overflows the buffer, and
   * the frames are then those of the lines, whatever the cuts.
   */
  lemma {:induction false} PushesReadLines<V>(parse: Bytes -> Option<V>, max: int, pending: Bytes, chunks: seq<Bytes>)
    requires IndexOf(pending) == |pending|
    ensures var all := pending + Flat(chunks);
      && (PushAll(parse, max, pending, chunks).Decoded? <==>
            LinesOk(parse, max, Lines(all)) && !Overflows(max, pending, chunks))
      && (PushAll(parse, max, pending, chunks).Decoded? ==>
            PushAll(parse, max, pending, chunks) == Decoded(Values(parse, max, Lines(all)), Tail(all)))
    decreases |chunks|
  {
    if chunks == [] {
      assert pending + [] == pending;
    } else {
      var first := pending + chunks[0];
      assert pending + Flat(chunks) == first + Flat(chunks[1..]);
      LinesSplit(first, Flat(chunks[1..]));
      DrainReadsLines(parse, max, first);
      TailHasNoBreak(first);
      PushesReadLines(parse, max, Tail(first), chunks[1..]);
      ValuesSplit(parse, max, Lines(first), Lines(Tail(first) + Flat(chunks[1..])));
    }
  }

  lemma {:induction false} PrefixTail<V>(parse: Bytes -> Option<V>, max: int, a: Bytes, c: Bytes)
    requires LinesOk(parse, max, Lines(a + c)) && |Tail(a + c)| <= max
    ensures |Tail(a)| <= max
  {
    LinesSplit(a, c);
    TailHasNoBreak(a);
    var left := Tail(a) + c;
    var i := IndexOf(left);
    NoEarlierBreak(Tail(a), c);
    if i < |left| {
      assert Lines(left)[0] == left[..i];
      ValuesSplit(parse, max, Lines(a), Lines(left));
      assert LineOk(parse, max, Lines(left)[0]);
    }
  }

  lemma {:induction false} NoOverflow<V>(parse: Bytes -> Option<V>, max: int, pending: Bytes, chunks: seq<Bytes>)
    requires IndexOf(pending) == |pending|
    requires LinesOk(parse, max, Lines(pending + Flat(chunks))) && |Tail(pending + Flat(chunks))| <= max
    ensures !Overflows(max, pending, chunks)
    decreases |chunks|
  {
    if chunks != [] {
      var first := pending + chunks[0];
      var rest := Flat(chunks[1..]);
      assert pending + Flat(chunks) == first + rest;
      PrefixTail(parse, max, first, rest);
      LinesSplit(first, rest);
      TailHasNoBreak(first);
      ValuesSplit(parse, max, Lines(first), Lines(Tail(first) + rest));
      NoOverflow(parse, max, Tail(first), chunks[1..]);
    }
  }

  /**
   * Chunk independence: where the lines and the tail of a stream are at most `max` long and the non-empty lines
   * parse, every way of cutting it yields exactly the parsed lines, with the tail pending.
   */
  lemma AnyCuttingDecodes<V>(parse: Bytes -> Option<V>, max: int, chunks: seq<Bytes>)
    requires LinesOk(parse, max, Lines(Flat(chunks))) && |Tail(Flat(chunks))| <= max
    ensures PushAll(parse, max, [], chunks) ==
      Decoded(Values(parse, max, Lines(Flat(chunks))), Tail(Flat(chunks)))
  {
    assert [] + Flat(chunks) == Flat(chunks);
    NoOverflow(parse, max, [], chunks);
    PushesReadLines(parse, max, [], chunks);
  }

  /** An overlong tail is where cuts do matter: after a newline in the same push it is kept, on its own it is refused. */
  lemma OverlongTailDependsOnCuts<V>(parse: Bytes -> Option<V>, max: nat, tail: Bytes)
    requires IndexOf(tail) == |tail| && |tail| > max
    ensures PushAll(parse, max, [], [[NEWLINE] + tail]) == Decoded([], tail)
    ensures PushAll(parse, max, [], [[NEWLINE], tail]) == TooLarge(tail)
  {
    var whole := [NEWLINE] + tail;
    assert [] + whole == whole && whole[1..] == tail;
    assert PushAll(parse, max, tail, [whole][1..]) == Decoded([], tail);
    assert PushTo(parse, max, [], whole) == Drain(parse, max, whole) == Drain(parse, max, tail);
    assert [] + [NEWLINE] == [NEWLINE] && [NEWLINE][1..] == [] && [] + tail == tail;
    assert PushTo(parse, max, [], [NEWLINE]) == Drain(parse, max, [NEWLINE]) == Drain(parse, max, []);
    assert [[NEWLINE], tail][1..] == [tail];
  }
}
