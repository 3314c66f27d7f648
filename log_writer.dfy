/** LogWriter of trash/IRenderView.java: a Writer that buffers characters and hands each
    completed, non-empty line to the log. The log is modelled as the sequence of lines
    emitted so far. */
module LogWriter {
  import opened Wrappers

  /** The buffer and the lines emitted, as a value. */
  datatype Buffered = Buffered(builder: string, lines: seq<string>)

  /** flushBuilder: a non-empty buffer is emitted and emptied; an empty one changes nothing. */
  function FlushBuilder(b: Buffered): (r: Buffered)
    ensures r.builder == []
    ensures r.lines == b.lines + (if |b.builder| > 0 then [b.builder] else [])
  {
    if |b.builder| > 0 then Buffered([], b.lines + [b.builder]) else b
  }

  /** write's loop over characters, one at a time from the left. */
  function Feed(b: Buffered, text: string): Buffered
    decreases |text|
  {
    if |text| == 0 then b
    else if text[0] == '\n' then Feed(FlushBuilder(b), text[1..])
    else Feed(b.(builder := b.builder + [text[0]]), text[1..])
  }

  // ---------------------------------------------------------------- reference definition

  /** Text cut at every newline: one more piece than there are newlines, none holding one. */
  function SplitLines(text: string): (r: seq<string>)
    ensures |r| > 0
    ensures forall i :: 0 <= i < |r| ==> '\n' !in r[i]
  {
    if |text| == 0 then [[]]
    else
      var rest := SplitLines(text[1..]);
      if text[0] == '\n' then [[]] + rest
      else [[text[0]] + rest[0]] + rest[1..]
  }

  /** The pieces that are not empty, in order. */
  function NonEmpty(pieces: seq<string>): seq<string> {
    if |pieces| == 0 then []
    else (if |pieces[0]| > 0 then [pieces[0]] else []) + NonEmpty(pieces[1..])
  }

  /** NonEmpty keeps exactly the non-empty pieces. */
  lemma {:induction false} NonEmptyFacts(pieces: seq<string>)
    ensures forall i :: 0 <= i < |NonEmpty(pieces)| ==> |NonEmpty(pieces)[i]| > 0
    ensures forall x :: x in NonEmpty(pieces) <==> x in pieces && |x| > 0
    decreases |pieces|
  {
    if |pieces| > 0 {
      NonEmptyFacts(pieces[1..]);
      assert pieces == [pieces[0]] + pieces[1..];
    }
  }

  lemma NonEmptyAppend(a: seq<string>, b: seq<string>)
    ensures NonEmpty(a + b) == NonEmpty(a) + NonEmpty(b)
  {
    if |a| > 0 {
      assert (a + b)[0] == a[0];
      assert (a + b)[1..] == a[1..] + b;
      NonEmptyAppend(a[1..], b);
    } else {
      assert a + b == b;
    }
  }

  /** A newline-free prefix joins the first piece. */
  lemma {:induction false} SplitPrefix(p: string, text: string)
    requires '\n' !in p
    ensures SplitLines(p + text) == [p + SplitLines(text)[0]] + SplitLines(text)[1..]
    decreases |p|
  {
    if |p| > 0 {
      assert (p + text)[0] == p[0];
      assert (p + text)[1..] == p[1..] + text;
      SplitPrefix(p[1..], text);
      assert [p[0]] + (p[1..] + SplitLines(text)[0]) == p + SplitLines(text)[0];
    } else {
      assert p + text == text;
      var r := SplitLines(text);
      assert p + r[0] == r[0];
      assert r == [r[0]] + r[1..];
    }
  }

  /** A newline right after a newline-free prefix closes that prefix as a piece. */
  lemma SplitAtNewline(p: string, text: string)
    requires '\n' !in p && |text| > 0 && text[0] == '\n'
    ensures var pieces := SplitLines(p + text);
      var rest := SplitLines(text[1..]);
      pieces == [p] + rest && pieces[..|pieces| - 1] == [p] + rest[..|rest| - 1]
  {
    SplitPrefix(p, text);
    var rest := SplitLines(text[1..]);
    assert SplitLines(text) == [[]] + rest;
    assert p + [] == p;
  }

  /** What write does to a newline-free buffer: every piece of buffer-plus-text but the
      last is complete, and the non-empty ones are emitted in order; the last piece is
      left in the buffer. */
  predicate FeedMatchesSplit(b: Buffered, text: string) {
    var pieces := SplitLines(b.builder + text);
    && Feed(b, text).builder == pieces[|pieces| - 1]
    && Feed(b, text).lines == b.lines + NonEmpty(pieces[..|pieces| - 1])
  }

  /** The newline step of FeedSplits: the buffer is emitted (when non-empty) and the rest
      of the text is fed to an empty buffer. */
  lemma NewlineStep(b: Buffered, text: string)
    requires '\n' !in b.builder && |text| > 0 && text[0] == '\n'
    requires FeedMatchesSplit(FlushBuilder(b), text[1..])
    ensures FeedMatchesSplit(b, text)
  {
    var f := FlushBuilder(b);
    var rest := SplitLines(text[1..]);
    var pieces := SplitLines(b.builder + text);
    assert f.builder + text[1..] == text[1..];
    assert Feed(f, text[1..]).builder == rest[|rest| - 1];
    assert Feed(f, text[1..]).lines == f.lines + NonEmpty(rest[..|rest| - 1]);
    assert Feed(b, text) == Feed(f, text[1..]);
    SplitAtNewline(b.builder, text);
    assert pieces[|pieces| - 1] == rest[|rest| - 1];
    NonEmptyAppend([b.builder], rest[..|rest| - 1]);
    assert NonEmpty([b.builder]) == (if |b.builder| > 0 then [b.builder] else []) + NonEmpty([]);
    assert f.lines == b.lines + NonEmpty([b.builder]);
  }

  /** The other step: the character joins the buffer. */
  lemma CharacterStep(b: Buffered, text: string)
    requires '\n' !in b.builder && |text| > 0 && text[0] != '\n'
    requires FeedMatchesSplit(b.(builder := b.builder + [text[0]]), text[1..])
    ensures FeedMatchesSplit(b, text)
  {
    var g := b.(builder := b.builder + [text[0]]);
    assert Feed(b, text) == Feed(g, text[1..]);
    assert g.builder + text[1..] == b.builder + text;
  }

  lemma {:induction false} FeedSplits(b: Buffered, text: string)
    requires '\n' !in b.builder
    ensures FeedMatchesSplit(b, text)
    decreases |text|
  {
    if |text| == 0 {
      assert b.builder + text == b.builder;
      SplitPrefix(b.builder, text);
      assert SplitLines(b.builder) == [b.builder];
    } else if text[0] == '\n' {
      FeedSplits(FlushBuilder(b), text[1..]);
      NewlineStep(b, text);
    } else {
      FeedSplits(b.(builder := b.builder + [text[0]]), text[1..]);
      CharacterStep(b, text);
    }
  }

  /** Flushing after a write emits exactly the non-empty pieces of buffer-plus-text. */
  lemma WriteThenFlush(b: Buffered, text: string)
    requires '\n' !in b.builder
    ensures var r := FlushBuilder(Feed(b, text));
      r.builder == [] && r.lines == b.lines + NonEmpty(SplitLines(b.builder + text))
  {
    FeedSplits(b, text);
    var pieces := SplitLines(b.builder + text);
    var k := |pieces| - 1;
    var last := pieces[k];
    assert pieces == pieces[..k] + [last];
    NonEmptyAppend(pieces[..k], [last]);
    assert NonEmpty([last]) == (if |last| > 0 then [last] else []) + NonEmpty([]);
  }

  /** Stored text never holds a newline, and every line emitted is non-empty and holds none. */
  lemma FeedKeepsNewlinesOut(b: Buffered, text: string)
    requires '\n' !in b.builder
    ensures '\n' !in Feed(b, text).builder
    ensures forall i :: |b.lines| <= i < |Feed(b, text).lines| ==>
              '\n' !in Feed(b, text).lines[i] && |Feed(b, text).lines[i]| > 0
  {
    FeedSplits(b, text);
    var pieces := SplitLines(b.builder + text);
    var emitted := NonEmpty(pieces[..|pieces| - 1]);
    var out := Feed(b, text).lines;
    NonEmptyFacts(pieces[..|pieces| - 1]);
    forall i | |b.lines| <= i < |out|
      ensures '\n' !in out[i] && |out[i]| > 0
    {
      assert out[i] == emitted[i - |b.lines|];
      assert out[i] in emitted;
      assert out[i] in pieces[..|pieces| - 1];
    }
  }

  // ---------------------------------------------------------------- the class

  /** Whether write's loop reads outside the array. */
  predicate WriteFails(length: int, offset: int, count: int) {
    count > 0 && (offset < 0 || offset + count > length)
  }

  /** How many characters write(buf, offset, count) takes before it returns or fails: all
      count of them when it does not fail, otherwise those before the first bad index. */
  function Consumed(length: nat, offset: int, count: int): (n: nat)
    ensures n > 0 ==> 0 <= offset && offset + n <= length && n <= count
    ensures !WriteFails(length, offset, count) && count > 0 ==> n == count
    ensures WriteFails(length, offset, count) ==> n < count && (offset + n < 0 || offset + n >= length)
  {
    if count <= 0 || offset < 0 then 0
    else if offset + count <= length then count
    else if offset <= length then length - offset
    else 0
  }

  /** The characters from offset on, n of them (none when n is 0). */
  function Taken(chars: seq<char>, offset: int, n: nat): string
    requires n > 0 ==> 0 <= offset && offset + n <= |chars|
  {
    if n == 0 then [] else chars[offset..offset + n]
  }

  class LogWriter {
    var builder: string
    /** The lines handed to the log so far. */
    var lines: seq<string>

    function State(): Buffered
      reads this
    {
      Buffered(builder, lines)
    }

    constructor()
      ensures State() == Buffered([], [])
    {
      builder := [];
      lines := [];
    }

    method FlushBuilderNow()
      modifies this
      ensures State() == FlushBuilder(old(State()))
    {
      if |builder| > 0 {
        lines := lines + [builder];
        builder := [];
      }
    }

    method Close()
      modifies this
      ensures State() == FlushBuilder(old(State()))
    {
      FlushBuilderNow();
    }

    method Flush()
      modifies this
      ensures State() == FlushBuilder(old(State()))
    {
      FlushBuilderNow();
    }

    /** write(buf, offset, count): characters are taken in order until count are done or an
        index falls outside buf, which raises ArrayIndexOutOfBoundsException after the
        characters before it were taken. */
    method Write(buf: array<char>, offset: int, count: int) returns (o: Outcome)
      modifies this
      ensures State() == Feed(old(State()), Taken(buf[..], offset, Consumed(buf.Length, offset, count)))
      ensures o == (if WriteFails(buf.Length, offset, count) then Raised(IndexOutOfBoundsException) else Done)
    {
      var i := 0;
      ghost var start := State();
      ghost var n := Consumed(buf.Length, offset, count);
      while i < count
        invariant 0 <= i <= n
        invariant i > 0 ==> 0 <= offset && offset + i <= buf.Length
        invariant State() == Feed(start, Taken(buf[..], offset, i))
        decreases count - i
      {
        if offset + i < 0 || offset + i >= buf.Length {
          return Raised(IndexOutOfBoundsException);
        }
        var c := buf[offset + i];
        FeedSnoc(start, Taken(buf[..], offset, i), c);
        if c == '\n' {
          FlushBuilderNow();
        } else {
          builder := builder + [c];
        }
        assert Taken(buf[..], offset, i + 1) == Taken(buf[..], offset, i) + [c];
        i := i + 1;
      }
      return Done;
    }
  }

  /** Feeding one more character. */
  lemma {:induction false} FeedSnoc(b: Buffered, text: string, c: char)
    ensures Feed(b, text + [c]) ==
            (if c == '\n' then FlushBuilder(Feed(b, text)) else Feed(b, text).(builder := Feed(b, text).builder + [c]))
    decreases |text|
  {
    if |text| == 0 {
      assert text + [c] == [c];
      assert ([c])[1..] == [];
    } else {
      assert (text + [c])[0] == text[0];
      assert (text + [c])[1..] == text[1..] + [c];
      if text[0] == '\n' {
        FeedSnoc(FlushBuilder(b), text[1..], c);
      } else {
        FeedSnoc(b.(builder := b.builder + [text[0]]), text[1..], c);
      }
    }
  }
}
