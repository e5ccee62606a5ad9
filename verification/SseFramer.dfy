/** The incremental reader of a run's event stream: it renormalises line ends on
    every chunk, cuts frames at blank lines and drops repeated event ids. The
    stream format that it simplifies is sections 9.2.5 and 9.2.6 of the WHATWG
    HTML Living Standard. */
module SseFramer {
  import opened Wrappers
  import opened JsText

  const CR: CodeUnit := 13
  const LF: CodeUnit := 10

  // ---------- Line ends ----------

  /** `text.replace(/\r\n/g, "\n")` */
  function Normalized(s: Text): (r: Text)
    ensures |r| <= |s|
  {
    if s == [] then
      []
    else if |s| >= 2 && s[0] == CR && s[1] == LF then
      [LF] + Normalized(s[2..])
    else
      [s[0]] + Normalized(s[1..])
  }

  predicate CrLfAt(s: Text, i: nat) {
    i + 1 < |s| && s[i] == 13 && s[i + 1] == 10
  }

  predicate CrCrLfAt(s: Text, i: nat) {
    i + 2 < |s| && s[i] == 13 && s[i + 1] == 13 && s[i + 2] == 10
  }

  ghost predicate HasCrLf(s: Text) {
    exists i: nat :: CrLfAt(s, i)
  }

  ghost predicate HasCrCrLf(s: Text) {
    exists i: nat :: CrCrLfAt(s, i)
  }

  lemma {:induction false} NormalizedAppend(a: Text, b: Text)
    requires a == [] || b == [] || a[|a| - 1] != CR || b[0] != LF
    ensures Normalized(a + b) == Normalized(a) + Normalized(b)
    decreases |a|
  {
    if a == [] {
      assert a + b == b;
    } else if b == [] {
      assert a + b == a;
    } else if |a| >= 2 && a[0] == CR && a[1] == LF {
      NormalizedAppend(a[2..], b);
      assert (a + b)[2..] == a[2..] + b;
    } else {
      NormalizedAppend(a[1..], b);
      assert (a + b)[1..] == a[1..] + b;
    }
  }

  lemma LineEndInPart(s: Text, n: nat)
    requires n <= |s|
    ensures HasCrLf(s[n..]) || HasCrLf(s[..n]) ==> HasCrLf(s)
    ensures HasCrCrLf(s[n..]) || HasCrCrLf(s[..n]) ==> HasCrCrLf(s)
  {
    if HasCrLf(s[n..]) {
      var i: nat :| CrLfAt(s[n..], i);
      assert CrLfAt(s, i + n);
    }
    if HasCrLf(s[..n]) {
      var i: nat :| CrLfAt(s[..n], i);
      assert CrLfAt(s, i);
    }
    if HasCrCrLf(s[n..]) {
      var i: nat :| CrCrLfAt(s[n..], i);
      assert CrCrLfAt(s, i + n);
    }
    if HasCrCrLf(s[..n]) {
      var i: nat :| CrCrLfAt(s[..n], i);
      assert CrCrLfAt(s, i);
    }
  }

  lemma LineEndAfter(c: CodeUnit, s: Text)
    ensures HasCrLf([c] + s) ==> HasCrLf(s) || (c == CR && s != [] && s[0] == LF)
  {
    if HasCrLf([c] + s) {
      var i: nat :| CrLfAt([c] + s, i);
      if i > 0 {
        assert CrLfAt(s, i - 1);
      }
    }
  }

  lemma {:induction false} NormalizedFixed(s: Text)
    requires !HasCrLf(s)
    ensures Normalized(s) == s
    decreases |s|
  {
    if s != [] {
      LineEndInPart(s, 1);
      assert !CrLfAt(s, 0);
      NormalizedFixed(s[1..]);
    }
  }

  lemma NormalizedHead(s: Text)
    requires s != []
    ensures Normalized(s) != []
    ensures Normalized(s)[0] == if |s| >= 2 && s[0] == CR && s[1] == LF then LF else s[0]
  {
  }

  /** Without two carriage returns before a line feed, one pass leaves none. */
  lemma {:induction false} NormalizedIsClean(s: Text)
    requires !HasCrCrLf(s)
    ensures !HasCrLf(Normalized(s))
    decreases |s|
  {
    if s != [] {
      var n := if |s| >= 2 && s[0] == CR && s[1] == LF then 2 else 1;
      LineEndInPart(s, n);
      NormalizedIsClean(s[n..]);
      LineEndAfter(if n == 2 then LF else s[0], Normalized(s[n..]));
      if n == 1 && s[0] == CR && |s| >= 2 {
        assert !CrCrLfAt(s, 0);
        NormalizedHead(s[1..]);
      }
    }
  }

  /** Then it does not matter that the buffer is normalised again. */
  lemma {:induction false} NormalizedTwice(x: Text, z: Text)
    requires !HasCrCrLf(x + z)
    ensures Normalized(Normalized(x) + z) == Normalized(x + z)
    decreases |x|
  {
    if |x| <= 1 {
      assert Normalized(x) == x;
    } else {
      var n := if x[0] == CR && x[1] == LF then 2 else 1;
      var head := if n == 2 then LF else x[0];
      assert (x + z)[n..] == x[n..] + z;
      LineEndInPart(x + z, n);
      NormalizedTwice(x[n..], z);
      var rest := Normalized(x[n..]) + z;
      assert Normalized(x) + z == [head] + rest;
      if head == CR {
        NoLateLineFeed(x, z);
      }
      NormalizedAppend([head], rest);
      assert Normalized([head]) == [head];
    }
  }

  lemma NoLateLineFeed(x: Text, z: Text)
    requires |x| >= 2 && x[0] == CR && x[1] != LF
    ensures Normalized(x[1..]) != []
    ensures Normalized(x[1..])[0] == LF ==> HasCrCrLf(x + z)
  {
    NormalizedHead(x[1..]);
    if Normalized(x[1..])[0] == LF {
      assert CrCrLfAt(x + z, 0);
    }
  }

  // ---------- Frames ----------

  predicate BlankLineAt(s: Text, i: int) {
    0 <= i < |s| - 1 && s[i] == LF && s[i + 1] == LF
  }

  /** `text.indexOf("\n\n")` */
  function IndexOfBlankLine(s: Text): (at: Option<nat>)
    ensures at.Some? ==> BlankLineAt(s, at.value)
    ensures forall j :: BlankLineAt(s, j) ==> at.Some? && at.value <= j
  {
    if |s| < 2 then
      None
    else if s[0] == LF && s[1] == LF then
      Some(0)
    else
      var later := IndexOfBlankLine(s[1..]);
      assert forall j :: j != 0 ==> BlankLineAt(s, j) == BlankLineAt(s[1..], j - 1);
      if later.Some? then Some(later.value + 1) else None
  }

  datatype Framed = Framed(frames: seq<Text>, rest: Text)

  /** Cut every complete frame off the front. */
  function Drained(s: Text): Framed
    decreases |s|
  {
    var at := IndexOfBlankLine(s);
    if at.None? then
      Framed([], s)
    else
      var later := Drained(s[at.value + 2..]);
      Framed([s[..at.value]] + later.frames, later.rest)
  }

  function Joined(frames: seq<Text>): Text {
    if frames == [] then [] else frames[0] + [LF, LF] + Joined(frames[1..])
  }

  lemma {:induction false} JoinedEndsBlank(frames: seq<Text>)
    requires frames != []
    ensures |Joined(frames)| >= 2
    ensures Joined(frames)[|Joined(frames)| - 1] == LF && Joined(frames)[|Joined(frames)| - 2] == LF
  {
    if |frames| > 1 {
      JoinedEndsBlank(frames[1..]);
    } else {
      assert Joined(frames) == frames[0] + [LF, LF];
    }
  }

  /** The first blank line depends only on the text up to its end. */
  lemma SameBlankLine(s: Text, t: Text)
    requires IndexOfBlankLine(s).Some?
    requires IndexOfBlankLine(s).value + 2 <= |t|
    requires s[..IndexOfBlankLine(s).value + 2] == t[..IndexOfBlankLine(s).value + 2]
    ensures IndexOfBlankLine(t) == IndexOfBlankLine(s)
  {
    var n := IndexOfBlankLine(s).value + 2;
    forall j | 0 <= j < n - 1
      ensures BlankLineAt(t, j) == BlankLineAt(s, j)
    {
      assert t[j] == t[..n][j] && s[j] == s[..n][j];
      assert t[j + 1] == t[..n][j + 1] && s[j + 1] == s[..n][j + 1];
    }
    assert BlankLineAt(t, n - 2);
  }

  lemma BlankLineSplits(s: Text, i: nat)
    requires BlankLineAt(s, i)
    ensures s[..i] + [LF, LF] == s[..i + 2]
  {
  }

  lemma DrainedUnfold(s: Text, i: nat)
    requires IndexOfBlankLine(s) == Some(i)
    ensures i + 2 <= |s| && s[..i] + [LF, LF] == s[..i + 2]
    ensures Drained(s) == Framed([s[..i]] + Drained(s[i + 2..]).frames, Drained(s[i + 2..]).rest)
  {
    BlankLineSplits(s, i);
  }

  lemma DrainedWhole(s: Text)
    requires IndexOfBlankLine(s) == None
    ensures Drained(s) == Framed([], s)
  {
  }

  /** Draining conserves the text. */
  lemma {:induction false} DrainedConserves(s: Text)
    ensures Joined(Drained(s).frames) + Drained(s).rest == s
    decreases |s|
  {
    hide Drained, IndexOfBlankLine;
    var at := IndexOfBlankLine(s);
    if at.None? {
      DrainedWhole(s);
      assert [] + s == s;
    } else {
      var i := at.value;
      DrainedUnfold(s, i);
      DrainedConserves(s[i + 2..]);
      var later := Drained(s[i + 2..]);
      assert ([s[..i]] + later.frames)[1..] == later.frames;
      assert s[..i + 2] + s[i + 2..] == s;
    }
  }

  lemma {:induction false} DrainedAppend(s: Text, t: Text)
    ensures var first, second := Drained(s), Drained(Drained(s).rest + t);
            Drained(s + t) == Framed(first.frames + second.frames, second.rest)
    decreases |s|
  {
    hide Drained, IndexOfBlankLine;
    var at := IndexOfBlankLine(s);
    if at.None? {
      DrainedWhole(s);
      assert [] + Drained(s + t).frames == Drained(s + t).frames;
    } else {
      var i := at.value;
      DrainedUnfold(s, i);
      assert (s + t)[..i + 2] == s[..i + 2];
      SameBlankLine(s, s + t);
      DrainedUnfold(s + t, i);
      assert (s + t)[i + 2..] == s[i + 2..] + t && (s + t)[..i] == s[..i];
      DrainedAppend(s[i + 2..], t);
      var later, second := Drained(s[i + 2..]), Drained(Drained(s).rest + t);
      assert [s[..i]] + (later.frames + second.frames) == ([s[..i]] + later.frames) + second.frames;
    }
  }

  lemma {:induction false} DrainedJoined(s: Text)
    ensures Drained(Joined(Drained(s).frames)) == Framed(Drained(s).frames, [])
    decreases |s|
  {
    var at := IndexOfBlankLine(s);
    if at.Some? {
      hide Drained, IndexOfBlankLine;
      var i := at.value;
      DrainedUnfold(s, i);
      DrainedJoined(s[i + 2..]);
      var later := Drained(s[i + 2..]).frames;
      var joined := Joined(Drained(s).frames);
      assert Drained(s).frames[1..] == later;
      assert joined == s[..i + 2] + Joined(later);
      assert joined[..i + 2] == s[..i + 2];
      SameBlankLine(s, joined);
      DrainedUnfold(joined, i);
      assert joined[i + 2..] == Joined(later) && joined[..i] == s[..i];
    }
  }

  // ---------- Chunks ----------

  function Concat(chunks: seq<Text>): Text {
    if chunks == [] then [] else chunks[0] + Concat(chunks[1..])
  }

  /** All frames that the chunks yield and the buffer they leave. */
  function Framing(buffer: Text, chunks: seq<Text>): Framed
    decreases |chunks|
  {
    if chunks == [] then
      Framed([], buffer)
    else
      var first := Drained(Normalized(buffer + chunks[0]));
      var later := Framing(first.rest, chunks[1..]);
      Framed(first.frames + later.frames, later.rest)
  }

  lemma JoinedEmpty()
    ensures Joined([]) == []
  {
  }

  lemma OneMoreChunk(x: Text, z: Text)
    requires !HasCrCrLf(x + z)
    ensures var first := Drained(Normalized(x));
            var second := Drained(Normalized(first.rest + z));
            Drained(Normalized(x + z)) == Framed(first.frames + second.frames, second.rest)
  {
    hide Normalized, Drained, Joined, HasCrLf, HasCrCrLf;
    var first := Drained(Normalized(x));
    var joined := Joined(first.frames);
    NormalizedTwice(x, z);
    assert (x + z)[..|x|] == x;
    LineEndInPart(x + z, |x|);
    NormalizedIsClean(x);
    DrainedConserves(Normalized(x));
    assert Normalized(x)[..|joined|] == joined;
    LineEndInPart(Normalized(x), |joined|);
    NormalizedFixed(joined);
    assert Normalized(x) + z == joined + (first.rest + z);
    if first.frames != [] {
      JoinedEndsBlank(first.frames);
    } else {
      JoinedEmpty();
    }
    NormalizedAppend(joined, first.rest + z);
    DrainedJoined(Normalized(x));
    DrainedAppend(joined, Normalized(first.rest + z));
    assert [] + Normalized(first.rest + z) == Normalized(first.rest + z);
  }

  lemma {:induction false} FramingFollowsText(x: Text, chunks: seq<Text>)
    requires !HasCrCrLf(x + Concat(chunks))
    ensures var first := Drained(Normalized(x));
            var later := Framing(first.rest, chunks);
            Drained(Normalized(x + Concat(chunks))) == Framed(first.frames + later.frames, later.rest)
    decreases |chunks|
  {
    hide Normalized, Drained, HasCrCrLf;
    if chunks == [] {
      assert x + Concat(chunks) == x;
      NormalizedFixedRest(x);
    } else {
      var z := chunks[0];
      assert x + Concat(chunks) == (x + z) + Concat(chunks[1..]);
      assert (x + Concat(chunks))[..|x + z|] == x + z;
      LineEndInPart(x + Concat(chunks), |x + z|);
      OneMoreChunk(x, z);
      FramingFollowsText(x + z, chunks[1..]);
      var first := Drained(Normalized(x));
      var second := Drained(Normalized(first.rest + z));
      var later := Framing(second.rest, chunks[1..]);
      assert (first.frames + second.frames) + later.frames == first.frames + (second.frames + later.frames);
    }
  }

  lemma NormalizedFixedRest(x: Text)
    ensures Drained(Normalized(x)).frames + [] == Drained(Normalized(x)).frames
  {
  }

  /** A text that ends in CR LF after normalisation keeps both in the buffer. */
  lemma RestEndsInCrLf(s: Text)
    requires |s| >= 2 && s[|s| - 2] == CR && s[|s| - 1] == LF
    ensures var rest := Drained(s).rest;
            |rest| >= 2 && rest[|rest| - 2] == CR && rest[|rest| - 1] == LF
  {
    hide Drained, Normalized;
    DrainedConserves(s);
    var frames, rest := Drained(s).frames, Drained(s).rest;
    var joined := Joined(frames);
    if frames == [] {
      assert joined == [];
    } else {
      JoinedEndsBlank(frames);
      assert s[|joined| - 1] == LF && s[|joined| - 2] == LF;
    }
    assert |rest| >= 2;
    assert s[|s| - 1] == rest[|rest| - 1] && s[|s| - 2] == rest[|rest| - 2];
  }

  lemma NormalizedAfterCr(a: Text)
    requires a != [] && a[|a| - 1] == CR
    ensures Normalized(a + [CR, LF]) == Normalized(a) + [LF]
    ensures Normalized(a) != [] && Normalized(a)[|Normalized(a)| - 1] == CR
  {
    var front := a[..|a| - 1];
    assert a == front + [CR];
    NormalizedAppend(a, [CR, LF]);
    NormalizedAppend(front, [CR]);
    assert Normalized([CR, LF]) == [LF] && Normalized([CR]) == [CR];
  }

  lemma NormalizedShrinks(rest: Text, z: Text)
    requires |rest| >= 2 && rest[|rest| - 2] == CR && rest[|rest| - 1] == LF
    ensures |Normalized(rest + z)| < |rest| + |Normalized(z)|
  {
    var p := rest[..|rest| - 2];
    assert rest + z == p + ([CR, LF] + z);
    NormalizedAppend(p, [CR, LF] + z);
    assert ([CR, LF] + z)[2..] == z;
  }

  /** A split right after a CR CR LF loses the second carriage return. */
  lemma SplitAfterCrCrLf(text: Text, k: nat)
    requires CrCrLfAt(text, k)
    ensures var chunks := [text[..k + 3], text[k + 3..]];
            Concat(chunks) == text && Framing([], chunks) != Framing([], [text])
  {
    hide Normalized, Drained, Joined, Framing, Concat;
    var x, z := text[..k + 3], text[k + 3..];
    assert x == text[..k + 1] + [CR, LF] && text == x + z;
    NormalizedAfterCr(text[..k + 1]);
    var first := Drained(Normalized(x));
    RestEndsInCrLf(Normalized(x));
    NormalizedShrinks(first.rest, z);
    NormalizedAppend(x, z);
    var second := Drained(Normalized(first.rest + z));
    DrainedConserves(Normalized(x));
    DrainedConserves(Normalized(first.rest + z));
    DrainedConserves(Normalized(text));
    JoinedAppend(first.frames, second.frames);
    TwoChunks(x, z);
    OneChunk(text);
  }

  lemma {:induction false} JoinedAppend(a: seq<Text>, b: seq<Text>)
    ensures Joined(a + b) == Joined(a) + Joined(b)
  {
    if a == [] {
      assert a + b == b;
    } else {
      JoinedAppend(a[1..], b);
      assert (a + b)[1..] == a[1..] + b;
    }
  }

  lemma OneChunk(text: Text)
    ensures Concat([text]) == text && Framing([], [text]) == Drained(Normalized(text))
  {
    assert [text][1..] == [] && [] + text == text && text + [] == text;
    assert Drained(Normalized(text)).frames + [] == Drained(Normalized(text)).frames;
  }

  lemma TwoChunks(x: Text, z: Text)
    ensures Concat([x, z]) == x + z
    ensures var first := Drained(Normalized(x));
            var second := Drained(Normalized(first.rest + z));
            Framing([], [x, z]) == Framed(first.frames + second.frames, second.rest)
  {
    OneChunk(z);
    assert [x, z][1..] == [z] && [z][1..] == [] && [] + x == x;
    var first := Drained(Normalized(x));
    var second := Drained(Normalized(first.rest + z));
    assert Framing(second.rest, []) == Framed([], second.rest);
    assert second.frames + [] == second.frames;
    assert Framing(first.rest, [z]) == second;
  }

  ghost predicate ChunkingIsImmaterial(text: Text) {
    forall chunks | Concat(chunks) == text :: Framing([], chunks) == Framing([], [text])
  }

  /** Frames and leftover are the same for every chunking, empty chunks included,
      exactly when the text nowhere has two carriage returns before a line feed. */
  lemma FramingIsChunkFree(text: Text)
    ensures ChunkingIsImmaterial(text) <==> !HasCrCrLf(text)
  {
    hide Normalized, Drained, Framing, Concat;
    if HasCrCrLf(text) {
      var k: nat :| CrCrLfAt(text, k);
      SplitAfterCrCrLf(text, k);
      var chunks := [text[..k + 3], text[k + 3..]];
      assert Concat(chunks) == text && Framing([], chunks) != Framing([], [text]);
      assert !ChunkingIsImmaterial(text);
    } else {
      forall chunks | Concat(chunks) == text
        ensures Framing([], chunks) == Framing([], [text])
      {
        ChunksOfCleanText(text, chunks);
      }
      assert ChunkingIsImmaterial(text);
    }
  }

  lemma ChunksOfCleanText(text: Text, chunks: seq<Text>)
    requires !HasCrCrLf(text) && Concat(chunks) == text
    ensures Framing([], chunks) == Framing([], [text])
  {
    assert [] + Concat(chunks) == text;
    assert Normalized([]) == [] && Drained([]) == Framed([], []);
    hide Normalized, Drained, HasCrCrLf, Concat;
    FramingFollowsText([], chunks);
    OneChunk(text);
    assert [] + Framing([], chunks).frames == Framing([], chunks).frames;
  }

  // ---------- Events ----------

  type EventId = string

  datatype Event = Event(id: EventId, body: Text)

  /** What parsing and binding checks make of one frame. */
  datatype Parsed = Ignored | Fault(code: Code) | Parsed(event: Event)

  datatype Code = EventInvalid | EventBindingMismatch | ReplayOverflow | ReplayTooLarge | EventTooLarge | EventIncomplete

  datatype Reader =
    | Open(buffer: Text, seen: set<EventId>, delivered: seq<Event>)
    | Failed(code: Code, delivered: seq<Event>)
    | Ended(delivered: seq<Event>)

  const MAX_SEEN: nat := 4096
  const MAX_EVENT_UNITS: nat := 65_536
  const FreshReader := Open([], {}, [])

  function Consume(parse: Text -> Parsed, r: Reader, frame: Text): Reader {
    if !r.Open? then
      r
    else
      match parse(frame)
      case Ignored => r
      case Fault(code) => Failed(code, r.delivered)
      case Parsed(event) =>
        if event.id in r.seen then r
        else if |r.seen| > MAX_SEEN then Failed(ReplayTooLarge, r.delivered)
        else Open(r.buffer, r.seen + {event.id}, r.delivered + [event])
  }

  function ConsumeAll(parse: Text -> Parsed, r: Reader, frames: seq<Text>): Reader
    decreases |frames|
  {
    if frames == [] then r else ConsumeAll(parse, Consume(parse, r, frames[0]), frames[1..])
  }

  function WithBuffer(r: Reader, buffer: Text): Reader {
    if r.Open? then r.(buffer := buffer) else r
  }

  function Feed(parse: Text -> Parsed, r: Reader, chunk: Text): Reader {
    if !r.Open? then
      r
    else
      var buffer := Normalized(r.buffer + chunk);
      if |buffer| > MAX_EVENT_UNITS then
        Failed(EventTooLarge, r.delivered)
      else
        WithBuffer(ConsumeAll(parse, r, Drained(buffer).frames), Drained(buffer).rest)
  }

  function Finish(r: Reader): Reader {
    if !r.Open? then r
    else if IsBlank(r.buffer) then Ended(r.delivered)
    else Failed(EventIncomplete, r.delivered)
  }

  function FeedAll(parse: Text -> Parsed, r: Reader, chunks: seq<Text>): Reader
    decreases |chunks|
  {
    if chunks == [] then r else FeedAll(parse, Feed(parse, r, chunks[0]), chunks[1..])
  }

  lemma {:induction false} ConsumeKeepsBuffer(parse: Text -> Parsed, r: Reader, buffer: Text, frames: seq<Text>)
    ensures ConsumeAll(parse, WithBuffer(r, buffer), frames) == WithBuffer(ConsumeAll(parse, r, frames), buffer)
    decreases |frames|
  {
    if frames != [] {
      ConsumeKeepsBuffer(parse, Consume(parse, r, frames[0]), buffer, frames[1..]);
      assert Consume(parse, WithBuffer(r, buffer), frames[0]) == WithBuffer(Consume(parse, r, frames[0]), buffer);
    }
  }

  lemma {:induction false} ConsumeAppend(parse: Text -> Parsed, r: Reader, a: seq<Text>, b: seq<Text>)
    ensures ConsumeAll(parse, r, a + b) == ConsumeAll(parse, ConsumeAll(parse, r, a), b)
    decreases |a|
  {
    if a == [] {
      assert a + b == b;
    } else {
      ConsumeAppend(parse, Consume(parse, r, a[0]), a[1..], b);
      assert (a + b)[1..] == a[1..] + b;
    }
  }

  lemma {:induction false} StoppedReaderStays(parse: Text -> Parsed, r: Reader, frames: seq<Text>, chunks: seq<Text>)
    requires !r.Open?
    ensures ConsumeAll(parse, r, frames) == r && FeedAll(parse, r, chunks) == r
    decreases |frames| + |chunks|
  {
    if frames != [] {
      StoppedReaderStays(parse, r, frames[1..], chunks);
    } else if chunks != [] {
      StoppedReaderStays(parse, r, frames, chunks[1..]);
    }
  }

  predicate TooLarge(r: Reader) {
    r.Failed? && r.code == EventTooLarge
  }

  /** The bounded reader sees the frames of the unbounded framing, unless a buffer
      grows too large. */
  lemma {:induction false} FeedAllConsumesFraming(parse: Text -> Parsed, r: Reader, chunks: seq<Text>)
    requires r.Open? && !TooLarge(FeedAll(parse, r, chunks))
    ensures var framed := Framing(r.buffer, chunks);
            FeedAll(parse, r, chunks) == WithBuffer(ConsumeAll(parse, r, framed.frames), framed.rest)
    decreases |chunks|
  {
    if chunks != [] {
      var next := Feed(parse, r, chunks[0]);
      var first := Drained(Normalized(r.buffer + chunks[0]));
      var later := Framing(first.rest, chunks[1..]);
      ConsumeAppend(parse, r, first.frames, later.frames);
      if next.Open? {
        FeedAllConsumesFraming(parse, next, chunks[1..]);
        ConsumeKeepsBuffer(parse, ConsumeAll(parse, r, first.frames), first.rest, later.frames);
      } else {
        StoppedReaderStays(parse, next, later.frames, chunks[1..]);
      }
    }
  }

  /** Two chunkings of a text without CR CR LF that raise no size error end in the
      same reader: same events in the same order, same failure, same leftover. */
  lemma DeliveryIsChunkFree(parse: Text -> Parsed, a: seq<Text>, b: seq<Text>)
    requires Concat(a) == Concat(b) && !HasCrCrLf(Concat(a))
    requires !TooLarge(FeedAll(parse, FreshReader, a)) && !TooLarge(FeedAll(parse, FreshReader, b))
    ensures FeedAll(parse, FreshReader, a) == FeedAll(parse, FreshReader, b)
  {
    FramingIsChunkFree(Concat(a));
    FeedAllConsumesFraming(parse, FreshReader, a);
    FeedAllConsumesFraming(parse, FreshReader, b);
  }

  lemma {:induction false} DeliveryGrows(parse: Text -> Parsed, r: Reader, frames: seq<Text>)
    ensures r.delivered <= ConsumeAll(parse, r, frames).delivered
    decreases |frames|
  {
    if frames != [] {
      DeliveryGrows(parse, Consume(parse, r, frames[0]), frames[1..]);
    }
  }

  /** A size error can only cut the delivery short: what any chunking delivers is
      a prefix of what the frames of its text deliver. */
  lemma {:induction false} DeliveryIsPrefix(parse: Text -> Parsed, r: Reader, chunks: seq<Text>)
    requires r.Open?
    ensures FeedAll(parse, r, chunks).delivered
            <= ConsumeAll(parse, r, Framing(r.buffer, chunks).frames).delivered
    decreases |chunks|
  {
    if chunks != [] {
      var next := Feed(parse, r, chunks[0]);
      var first := Drained(Normalized(r.buffer + chunks[0]));
      var later := Framing(first.rest, chunks[1..]);
      ConsumeAppend(parse, r, first.frames, later.frames);
      if next.Open? {
        DeliveryIsPrefix(parse, next, chunks[1..]);
        ConsumeKeepsBuffer(parse, ConsumeAll(parse, r, first.frames), first.rest, later.frames);
      } else {
        StoppedReaderStays(parse, next, [], chunks[1..]);
        DeliveryGrows(parse, r, first.frames);
        DeliveryGrows(parse, ConsumeAll(parse, r, first.frames), later.frames);
      }
    }
  }

  // ---------- Deduplication ----------

  function EventsOf(parsed: Parsed): seq<Event> {
    if parsed.Parsed? then [parsed.event] else []
  }

  function Events(parse: Text -> Parsed, frames: seq<Text>): seq<Event> {
    if frames == [] then
      []
    else
      EventsOf(parse(frames[0])) + Events(parse, frames[1..])
  }

  function Ids(events: seq<Event>): set<EventId> {
    set i | 0 <= i < |events| :: events[i].id
  }

  /** Each event that is the first with its id. */
  function FirstOccurrences(events: seq<Event>, known: set<EventId>): seq<Event> {
    if events == [] then []
    else if events[0].id in known then FirstOccurrences(events[1..], known)
    else [events[0]] + FirstOccurrences(events[1..], known + {events[0].id})
  }

  ghost predicate DistinctIds(events: seq<Event>) {
    forall i, j :: 0 <= i < j < |events| ==> events[i].id != events[j].id
  }

  ghost predicate ReaderInv(r: Reader) {
    && DistinctIds(r.delivered) && |r.delivered| <= MAX_SEEN + 1
    && (r.Open? ==> r.seen == Ids(r.delivered) && |r.seen| == |r.delivered|)
  }

  lemma IdsOfAppend(events: seq<Event>, event: Event)
    ensures Ids(events + [event]) == Ids(events) + {event.id}
  {
    var all := events + [event];
    forall id | id in Ids(events) + {event.id}
      ensures id in Ids(all)
    {
      if id in Ids(events) {
        var i :| 0 <= i < |events| && events[i].id == id;
        assert all[i].id == id;
      } else {
        assert all[|events|].id == id;
      }
    }
  }

  lemma ConsumeKeepsInv(parse: Text -> Parsed, r: Reader, frame: Text)
    requires ReaderInv(r)
    ensures ReaderInv(Consume(parse, r, frame))
  {
    var next := Consume(parse, r, frame);
    if r.Open? && next.Open? && next != r {
      var event := parse(frame).event;
      assert next.delivered == r.delivered + [event];
      forall i | 0 <= i < |r.delivered|
        ensures r.delivered[i].id != event.id
      {
        assert r.delivered[i].id in Ids(r.delivered);
      }
      IdsOfAppend(r.delivered, event);
    }
  }

  lemma {:induction false} ConsumeAllKeepsInv(parse: Text -> Parsed, r: Reader, frames: seq<Text>)
    requires ReaderInv(r)
    ensures ReaderInv(ConsumeAll(parse, r, frames))
    decreases |frames|
  {
    if frames != [] {
      ConsumeKeepsInv(parse, r, frames[0]);
      ConsumeAllKeepsInv(parse, Consume(parse, r, frames[0]), frames[1..]);
    }
  }

  lemma {:induction false} FeedAllKeepsInv(parse: Text -> Parsed, r: Reader, chunks: seq<Text>)
    requires ReaderInv(r)
    ensures ReaderInv(FeedAll(parse, r, chunks))
    decreases |chunks|
  {
    if chunks != [] {
      if r.Open? {
        ConsumeAllKeepsInv(parse, r, Drained(Normalized(r.buffer + chunks[0])).frames);
      }
      FeedAllKeepsInv(parse, Feed(parse, r, chunks[0]), chunks[1..]);
    }
  }

  lemma {:induction false} ConsumeAllDeduplicates(parse: Text -> Parsed, r: Reader, frames: seq<Text>)
    requires r.Open? && ConsumeAll(parse, r, frames).Open?
    ensures ConsumeAll(parse, r, frames).delivered
            == r.delivered + FirstOccurrences(Events(parse, frames), r.seen)
    decreases |frames|
  {
    if frames != [] {
      var next := Consume(parse, r, frames[0]);
      if !next.Open? {
        StoppedReaderStays(parse, next, frames[1..], []);
      }
      ConsumeAllDeduplicates(parse, next, frames[1..]);
      var later := Events(parse, frames[1..]);
      match parse(frames[0]) {
        case Parsed(event) =>
          assert Events(parse, frames) == [event] + later && ([event] + later)[1..] == later;
        case Ignored =>
          assert Events(parse, frames) == [] + later == later;
        case Fault(_) =>
      }
    }
  }

  /** Whatever the chunks and however the stream ends, the delivered ids are
      pairwise distinct and at most 4097; while the stream is open they are the
      first occurrences of the events of all frames so far, in order. */
  lemma DeliveredOnce(parse: Text -> Parsed, chunks: seq<Text>)
    ensures var r := FeedAll(parse, FreshReader, chunks);
            && DistinctIds(r.delivered) && |r.delivered| <= 4097
            && (r.Open? ==> r.delivered == FirstOccurrences(Events(parse, Framing([], chunks).frames), {}))
  {
    FeedAllKeepsInv(parse, FreshReader, chunks);
    var r := FeedAll(parse, FreshReader, chunks);
    if r.Open? {
      FeedAllConsumesFraming(parse, FreshReader, chunks);
      ConsumeAllDeduplicates(parse, FreshReader, Framing([], chunks).frames);
    }
  }

  // ---------- When the reader stays open ----------

  /** Every buffer that the unbounded framing passes through is small enough. */
  ghost predicate Fits(buffer: Text, chunks: seq<Text>)
    decreases |chunks|
  {
    chunks == [] || (var whole := Normalized(buffer + chunks[0]); |whole| <= 65_536 && Fits(Drained(whole).rest, chunks[1..]))
  }

  ghost predicate NoFault(parse: Text -> Parsed, frames: seq<Text>) {
    forall i :: 0 <= i < |frames| ==> !parse(frames[i]).Fault?
  }

  lemma IdsOfConcat(a: seq<Event>, b: seq<Event>)
    ensures Ids(a + b) == Ids(a) + Ids(b)
  {
    var all := a + b;
    forall id | id in Ids(a) + Ids(b)
      ensures id in Ids(all)
    {
      if id in Ids(a) {
        var i :| 0 <= i < |a| && a[i].id == id;
        assert all[i].id == id;
      } else {
        var i :| 0 <= i < |b| && b[i].id == id;
        assert all[|a| + i].id == id;
      }
    }
  }

  lemma {:induction false} EventsAppend(parse: Text -> Parsed, a: seq<Text>, b: seq<Text>)
    ensures Events(parse, a + b) == Events(parse, a) + Events(parse, b)
  {
    hide EventsOf;
    if a == [] {
      assert a + b == b;
    } else {
      EventsAppend(parse, a[1..], b);
      assert (a + b)[1..] == a[1..] + b && (a + b)[0] == a[0];
    }
  }

  lemma {:induction false} SubsetIsSmaller(a: set<EventId>, b: set<EventId>)
    requires a <= b
    ensures |a| <= |b|
  {
    if a != {} {
      var x :| x in a;
      SubsetIsSmaller(a - {x}, b - {x});
    }
  }

  lemma NoFaultOne(parse: Text -> Parsed, frames: seq<Text>)
    requires frames != []
    ensures NoFault(parse, frames) <==> !parse(frames[0]).Fault? && NoFault(parse, frames[1..])
  {
    if !parse(frames[0]).Fault? && NoFault(parse, frames[1..]) {
      forall i | 0 <= i < |frames|
        ensures !parse(frames[i]).Fault?
      {
        assert i > 0 ==> frames[i] == frames[1..][i - 1];
      }
    }
    if NoFault(parse, frames) {
      forall i | 0 <= i < |frames[1..]|
        ensures !parse(frames[1..][i]).Fault?
      {
        assert frames[1..][i] == frames[i + 1];
      }
    }
  }

  function IdOf(parsed: Parsed): set<EventId> {
    if parsed.Parsed? then {parsed.event.id} else {}
  }

  lemma IdsOfOne(parse: Text -> Parsed, frames: seq<Text>)
    requires frames != []
    ensures Ids(Events(parse, frames)) == IdOf(parse(frames[0])) + Ids(Events(parse, frames[1..]))
  {
    var first := EventsOf(parse(frames[0]));
    IdsOfConcat(first, Events(parse, frames[1..]));
    assert Ids(first) == IdOf(parse(frames[0])) by {
      hide Events;
      if parse(frames[0]).Parsed? {
        assert first[0].id == parse(frames[0]).event.id;
      }
    }
  }

  lemma NoFramesNoIds(parse: Text -> Parsed, seen: set<EventId>)
    ensures seen + Ids(Events(parse, [])) == seen && NoFault(parse, [])
  {
  }

  lemma FrameOpensExactly(parse: Text -> Parsed, r: Reader, frame: Text)
    requires r.Open? && |r.seen| <= 4097
    ensures var next := Consume(parse, r, frame);
            && (next.Open? <==> !parse(frame).Fault? && |r.seen + IdOf(parse(frame))| <= 4097)
            && (next.Open? ==> next.seen == r.seen + IdOf(parse(frame)) && |next.seen| <= 4097)
  {
    match parse(frame) {
      case Parsed(event) =>
        if event.id in r.seen {
          assert r.seen + {event.id} == r.seen;
        }
      case _ => assert r.seen + {} == r.seen;
    }
  }

  lemma {:induction false} FramesOpenExactly(parse: Text -> Parsed, r: Reader, frames: seq<Text>)
    requires r.Open? && |r.seen| <= 4097
    ensures var all := r.seen + Ids(Events(parse, frames));
            && (ConsumeAll(parse, r, frames).Open? <==> NoFault(parse, frames) && |all| <= 4097)
            && (ConsumeAll(parse, r, frames).Open? ==> ConsumeAll(parse, r, frames).seen == all)
    decreases |frames|
  {
    hide Events, Ids, IdOf, NoFault, Consume;
    if frames == [] {
      NoFramesNoIds(parse, r.seen);
    } else {
      NoFaultOne(parse, frames);
      IdsOfOne(parse, frames);
      FrameOpensExactly(parse, r, frames[0]);
      var next, later := Consume(parse, r, frames[0]), Ids(Events(parse, frames[1..]));
      var part, all := r.seen + IdOf(parse(frames[0])), r.seen + Ids(Events(parse, frames));
      assert part + later == all;
      assert ConsumeAll(parse, r, frames) == ConsumeAll(parse, next, frames[1..]);
      if next.Open? {
        FramesOpenExactly(parse, next, frames[1..]);
      } else {
        StoppedReaderStays(parse, next, frames[1..], []);
        SubsetIsSmaller(part, all);
      }
    }
  }

  lemma {:induction false} ChunksOpenExactly(parse: Text -> Parsed, r: Reader, chunks: seq<Text>)
    requires r.Open? && |r.seen| <= 4097
    ensures var frames := Framing(r.buffer, chunks).frames;
            FeedAll(parse, r, chunks).Open?
            <==> Fits(r.buffer, chunks) && NoFault(parse, frames) && |r.seen + Ids(Events(parse, frames))| <= 4097
    decreases |chunks|
  {
    hide Normalized, Drained, ConsumeAll;
    if chunks == [] {
      assert r.seen + Ids(Events(parse, [])) == r.seen;
    } else {
      var whole := Normalized(r.buffer + chunks[0]);
      var first := Drained(whole);
      var later := Framing(first.rest, chunks[1..]);
      var next := Feed(parse, r, chunks[0]);
      FramesOpenExactly(parse, r, first.frames);
      EventsAppend(parse, first.frames, later.frames);
      IdsOfConcat(Events(parse, first.frames), Events(parse, later.frames));
      var part, all := r.seen + Ids(Events(parse, first.frames)), r.seen + Ids(Events(parse, first.frames + later.frames));
      SubsetIsSmaller(part, all);
      assert NoFault(parse, first.frames + later.frames) <==> NoFault(parse, first.frames) && NoFault(parse, later.frames) by {
        NoFaultAppend(parse, first.frames, later.frames);
      }
      if next.Open? {
        ChunksOpenExactly(parse, next, chunks[1..]);
        assert next.seen + Ids(Events(parse, later.frames)) == all;
      } else {
        StoppedReaderStays(parse, next, [], chunks[1..]);
      }
    }
  }

  lemma NoFaultAppend(parse: Text -> Parsed, a: seq<Text>, b: seq<Text>)
    ensures NoFault(parse, a + b) <==> NoFault(parse, a) && NoFault(parse, b)
  {
    var all := a + b;
    if NoFault(parse, all) {
      forall i | 0 <= i < |a|
        ensures !parse(a[i]).Fault?
      {
        assert all[i] == a[i];
      }
      forall i | 0 <= i < |b|
        ensures !parse(b[i]).Fault?
      {
        assert all[|a| + i] == b[i];
      }
    }
  }

  /** The stream stays open exactly while no buffer exceeds 65536 units, no frame is
      faulty and its frames have at most 4097 different ids; it then ends well exactly
      if what is left is blank. */
  lemma StreamStaysOpenExactly(parse: Text -> Parsed, chunks: seq<Text>)
    ensures var r, framed := FeedAll(parse, FreshReader, chunks), Framing([], chunks);
            && (r.Open? <==> Fits([], chunks) && NoFault(parse, framed.frames) && |Ids(Events(parse, framed.frames))| <= 4097)
            && (Finish(r).Ended? <==> r.Open? && IsBlank(framed.rest))
            && (r.Open? && !IsBlank(framed.rest) ==> Finish(r) == Failed(EventIncomplete, r.delivered))
            && Finish(r).delivered == r.delivered
  {
    ChunksOpenExactly(parse, FreshReader, chunks);
    var r, ids := FeedAll(parse, FreshReader, chunks), Ids(Events(parse, Framing([], chunks).frames));
    assert {} + ids == ids;
    if r.Open? {
      FeedAllConsumesFraming(parse, FreshReader, chunks);
    }
    NeverEnded(parse, FreshReader, chunks);
  }

  lemma {:induction false} NeverEnded(parse: Text -> Parsed, r: Reader, chunks: seq<Text>)
    requires !r.Ended?
    ensures !FeedAll(parse, r, chunks).Ended?
    decreases |chunks|
  {
    if chunks != [] {
      if r.Open? {
        NeverEndedInside(parse, r, Drained(Normalized(r.buffer + chunks[0])).frames);
      }
      NeverEnded(parse, Feed(parse, r, chunks[0]), chunks[1..]);
    }
  }

  lemma {:induction false} NeverEndedInside(parse: Text -> Parsed, r: Reader, frames: seq<Text>)
    requires !r.Ended?
    ensures !ConsumeAll(parse, r, frames).Ended?
    decreases |frames|
  {
    if frames != [] {
      NeverEndedInside(parse, Consume(parse, r, frames[0]), frames[1..]);
    }
  }

  ghost predicate Faulty(parse: Text -> Parsed, frames: seq<Text>, code: Code) {
    exists i :: 0 <= i < |frames| && parse(frames[i]) == Fault(code)
  }

  /** A chunk that stops an open reader does so for the size of its buffer, or else
      for the fault of a frame, or else for too many ids. */
  lemma StopsForItsReason(parse: Text -> Parsed, r: Reader, chunk: Text)
    requires r.Open? && |r.seen| <= 4097 && Feed(parse, r, chunk).Failed?
    ensures var whole, next := Normalized(r.buffer + chunk), Feed(parse, r, chunk);
            if |whole| > 65_536 then
              next == Failed(EventTooLarge, r.delivered)
            else
              next.code == ReplayTooLarge || Faulty(parse, Drained(whole).frames, next.code)
  {
    hide Normalized, Drained, ConsumeAll, Faulty;
    if |Normalized(r.buffer + chunk)| <= 65_536 {
      FramesStopForTheirReason(parse, r, Drained(Normalized(r.buffer + chunk)).frames);
    }
  }

  lemma {:induction false} FramesStopForTheirReason(parse: Text -> Parsed, r: Reader, frames: seq<Text>)
    requires r.Open? && ConsumeAll(parse, r, frames).Failed?
    ensures var code := ConsumeAll(parse, r, frames).code;
            code == ReplayTooLarge || Faulty(parse, frames, code)
    decreases |frames|
  {
    if frames != [] {
      var next := Consume(parse, r, frames[0]);
      if next.Open? {
        FramesStopForTheirReason(parse, next, frames[1..]);
        var code := ConsumeAll(parse, r, frames).code;
        if code != ReplayTooLarge {
          var i :| 0 <= i < |frames[1..]| && parse(frames[1..][i]) == Fault(code);
          assert parse(frames[i + 1]) == Fault(code);
        }
      } else {
        StoppedReaderStays(parse, next, frames[1..], []);
      }
    }
  }

  // ---------- The reader as the loop it is ----------

  /** The reader once every complete frame of its buffer has been consumed. */
  function WithFramesConsumed(parse: Text -> Parsed, r: Reader): Reader {
    if !r.Open? then r
    else WithBuffer(ConsumeAll(parse, r, Drained(r.buffer).frames), Drained(r.buffer).rest)
  }

  lemma FeedIsDraining(parse: Text -> Parsed, r: Reader, chunk: Text)
    requires r.Open?
    ensures var buffer := Normalized(r.buffer + chunk);
            Feed(parse, r, chunk) == if |buffer| > MAX_EVENT_UNITS then Failed(EventTooLarge, r.delivered)
                                     else WithFramesConsumed(parse, r.(buffer := buffer))
  {
    var buffer := Normalized(r.buffer + chunk);
    ConsumeKeepsBuffer(parse, r, buffer, Drained(buffer).frames);
  }

  lemma DrainingStep(parse: Text -> Parsed, r: Reader, i: nat)
    requires r.Open? && IndexOfBlankLine(r.buffer) == Some(i)
    ensures i + 2 <= |r.buffer|
    ensures WithFramesConsumed(parse, Consume(parse, r.(buffer := r.buffer[i + 2..]), r.buffer[..i]))
            == WithFramesConsumed(parse, r)
  {
    hide Drained, IndexOfBlankLine;
    DrainedUnfold(r.buffer, i);
    var rest := r.buffer[i + 2..];
    var later := Drained(rest);
    assert ([r.buffer[..i]] + later.frames)[1..] == later.frames;
    var next := Consume(parse, r, r.buffer[..i]);
    assert Consume(parse, r.(buffer := rest), r.buffer[..i]) == WithBuffer(next, rest);
    ConsumeKeepsBuffer(parse, next, rest, later.frames);
    if !next.Open? {
      StoppedReaderStays(parse, next, later.frames, []);
    }
  }

  lemma DrainingEnds(parse: Text -> Parsed, r: Reader)
    requires r.Open? ==> IndexOfBlankLine(r.buffer) == None
    ensures WithFramesConsumed(parse, r) == r
  {
    if r.Open? {
      DrainedWhole(r.buffer);
    }
  }

  class EventStreamReader {
    const parse: Text -> Parsed
    var buffer: Text
    var seen: set<EventId>
    var delivered: seq<Event>
    var failure: Option<Code>

    ghost function Abs(): Reader
      reads this
    {
      if failure.Some? then Failed(failure.value, delivered) else Open(buffer, seen, delivered)
    }

    constructor (parse: Text -> Parsed)
      ensures this.parse == parse && Abs() == FreshReader
    {
      this.parse := parse;
      buffer, seen, delivered, failure := [], {}, [], None;
    }

    method ConsumeFrame(frame: Text)
      requires failure.None?
      modifies this`seen, this`delivered, this`failure
      ensures Abs() == Consume(parse, old(Abs()), frame)
    {
      match parse(frame) {
        case Ignored =>
        case Fault(code) => failure := Some(code);
        case Parsed(event) =>
          if event.id in seen {
            return;
          }
          if |seen| > MAX_SEEN {
            failure := Some(ReplayTooLarge);
            return;
          }
          seen := seen + {event.id};
          delivered := delivered + [event];
      }
    }

    method Read(chunk: Text)
      requires failure.None?
      modifies this
      ensures Abs() == Feed(parse, old(Abs()), chunk)
    {
      hide Normalized, Drained, IndexOfBlankLine, ConsumeAll, Consume, Feed, WithFramesConsumed;
      FeedIsDraining(parse, Abs(), chunk);
      buffer := Normalized(buffer + chunk);
      if |buffer| > MAX_EVENT_UNITS {
        failure := Some(EventTooLarge);
        return;
      }
      ghost var whole := Abs();
      var at := IndexOfBlankLine(buffer);
      while at.Some? && failure.None?
        invariant at == IndexOfBlankLine(buffer)
        invariant WithFramesConsumed(parse, Abs()) == WithFramesConsumed(parse, whole)
        decreases |buffer|
      {
        DrainingStep(parse, Abs(), at.value);
        var frame := buffer[..at.value];
        buffer := buffer[at.value + 2..];
        ConsumeFrame(frame);
        at := IndexOfBlankLine(buffer);
      }
      DrainingEnds(parse, Abs());
    }

    method End()
      requires failure.None?
      modifies this`failure
      ensures Finish(old(Abs())) == if failure.Some? then Abs() else Ended(delivered)
    {
      if !IsBlank(buffer) {
        failure := Some(EventIncomplete);
      }
    }
  }
}
