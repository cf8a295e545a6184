// Build output arrives in chunks cut anywhere; the writer hands whole lines to
// the log sink and keeps the unfinished rest.
module SinkWriter {
  import opened Common
  import opened Bytes

  const LF: Byte := 10
  const CR: Byte := 13

  predicate LineEnd(b: Byte) { b == LF || b == CR }

  function Trim(s: Bytes): Bytes {
    if s != [] && LineEnd(s[|s| - 1]) then Trim(s[..|s| - 1]) else s
  }

  // Trim takes off exactly the line ends at the end of s.
  lemma {:induction false} TrimMeaning(s: Bytes)
    ensures Trim(s) <= s
    ensures forall i | |Trim(s)| <= i < |s| :: s[i] == 10 || s[i] == 13
    ensures Trim(s) != [] ==> Trim(s)[|Trim(s)| - 1] !in [10, 13]
  {
    if s != [] && LineEnd(s[|s| - 1]) { TrimMeaning(s[..|s| - 1]); }
  }

  // The non-empty lines, stripped of their ends.
  function Messages(pieces: seq<Bytes>): seq<Bytes> {
    if pieces == [] then []
    else (if Trim(pieces[0]) == [] then [] else [Trim(pieces[0])]) + Messages(pieces[1..])
  }

  lemma OneMessage(s: Bytes)
    ensures Messages([s]) == if Trim(s) == [] then [] else [Trim(s)]
  {
    assert [s][1..] == [] && Messages([]) == [];
  }

  lemma {:induction false} MessagesAppend(a: seq<Bytes>, b: seq<Bytes>)
    ensures Messages(a + b) == Messages(a) + Messages(b)
  {
    if a == [] {
      assert a + b == b;
    } else {
      MessagesAppend(a[1..], b);
      assert (a + b)[1..] == a[1..] + b;
      var first := if Trim(a[0]) == [] then [] else [Trim(a[0])];
      assert first + (Messages(a[1..]) + Messages(b)) == first + Messages(a[1..]) + Messages(b);
    }
  }

  function Whole(s: Bytes): seq<Bytes> { Split(LF, s)[..|Split(LF, s)| - 1] }

  function Rest(s: Bytes): Bytes { Split(LF, s)[|Split(LF, s)| - 1] }

  // Only the unfinished piece matters for what comes next.
  lemma WholeAndRest(a: Bytes, b: Bytes)
    ensures Whole(a + b) == Whole(a) + Whole(Rest(a) + b)
    ensures Rest(a + b) == Rest(Rest(a) + b)
  {
    SplitAppend(LF, a, b);
    SplitIsTheCut(LF, a);
    OnePiece(LF, Rest(a));
    SplitAppend(LF, Rest(a), b);
    GlueLast(Split(LF, a), Split(LF, b));
  }

  lemma FirstLine(line: Bytes, more: Bytes)
    requires LF !in line
    ensures Split(LF, line + [LF] + more) == [line] + Split(LF, more)
  {
    SplitAtSeparator(LF, line, more);
    OnePiece(LF, line);
  }

  lemma TrimSkipsFeed(line: Bytes)
    ensures Trim(line + [LF]) == Trim(line)
  {
    assert (line + [LF])[..|line|] == line;
  }

  // ---------------------------------------------------------------- the writer

  // What writing p, and flushing, do to the unfinished rest and to the sink.
  datatype State = State(buf: Bytes, sink: seq<Bytes>)

  function Written(s: State, p: Bytes): State {
    State(Rest(s.buf + p), s.sink + Messages(Whole(s.buf + p)))
  }

  function Flushed(s: State): State { State([], s.sink + Messages([s.buf])) }

  class Writer {
    var buf: Bytes
    var sink: seq<Bytes>     // the messages appended to the log, in order

    ghost function View(): State
      reads this
    {
      State(buf, sink)
    }

    constructor ()
      ensures View() == State([], [])
    {
      buf, sink := [], [];
    }

    method Write(p: Bytes) returns (n: nat)
      modifies this
      ensures View() == Written(old(View()), p) && n == |p|
    {
      buf := buf + p;
      n := |p|;
      ghost var all := buf;
      var idx := IndexLF(buf);
      while idx >= 0
        invariant -1 <= idx < |buf|
        invariant idx >= 0 ==> buf[idx] == LF && LF !in buf[..idx]
        invariant idx < 0 ==> LF !in buf
        invariant Rest(buf) == Rest(all)
        invariant sink + Messages(Whole(buf)) == old(sink) + Messages(Whole(all))
        decreases |buf|
      {
        TakeLine(buf, idx);
        var line := TrimNewline(buf[..idx + 1]);
        buf := buf[idx + 1..];
        if line != [] { sink := sink + [line]; }
        idx := IndexLF(buf);
      }
      OnePiece(LF, buf);
    }

    method Flush()
      modifies this
      ensures View() == Flushed(old(View()))
    {
      OneMessage(buf);
      if buf == [] { return; }
      var line := TrimNewline(buf);
      buf := [];
      if line != [] { sink := sink + [line]; }
    }
  }

  // Taking the first line off the buffer hands over exactly its message.
  lemma TakeLine(buf: Bytes, idx: nat)
    requires idx < |buf| && buf[idx] == LF && LF !in buf[..idx]
    ensures var line, more := Trim(buf[..idx + 1]), buf[idx + 1..];
            && Rest(buf) == Rest(more)
            && Messages(Whole(buf)) == (if line == [] then [] else [line]) + Messages(Whole(more))
  {
    assert buf == buf[..idx] + [LF] + buf[idx + 1..];
    FirstLine(buf[..idx], buf[idx + 1..]);
    TrimSkipsFeed(buf[..idx]);
    assert buf[..idx + 1] == buf[..idx] + [LF];
    assert Whole(buf) == [buf[..idx]] + Whole(buf[idx + 1..]);
    OneMessage(buf[..idx]);
    MessagesAppend([buf[..idx]], Whole(buf[idx + 1..]));
  }

  method IndexLF(s: Bytes) returns (idx: int)
    ensures -1 <= idx < |s|
    ensures idx >= 0 ==> s[idx] == LF && LF !in s[..idx]
    ensures idx < 0 ==> LF !in s
  {
    for i := 0 to |s|
      invariant LF !in s[..i]
    {
      if s[i] == LF { return i; }
    }
    idx := -1;
  }

  method TrimNewline(s: Bytes) returns (r: Bytes)
    ensures r == Trim(s)
  {
    r := s;
    while |r| > 0 && (r[|r| - 1] == LF || r[|r| - 1] == CR)
      invariant Trim(r) == Trim(s)
    {
      r := r[..|r| - 1];
    }
  }

  // -------------------------------------------------------------- main results

  function Concat(chunks: seq<Bytes>): Bytes {
    if chunks == [] then [] else Concat(chunks[..|chunks| - 1]) + chunks[|chunks| - 1]
  }

  function WriteAll(s: State, chunks: seq<Bytes>): State {
    if chunks == [] then s else Written(WriteAll(s, chunks[..|chunks| - 1]), chunks[|chunks| - 1])
  }

  lemma {:induction false} ChunksActAsOne(chunks: seq<Bytes>)
    ensures WriteAll(State([], []), chunks) == Written(State([], []), Concat(chunks))
  {
    if chunks != [] {
      var front, p := chunks[..|chunks| - 1], chunks[|chunks| - 1];
      ChunksActAsOne(front);
      var all := Concat(front);
      WholeAndRest(all, p);
      assert [] + all == all && [] + (all + p) == all + p;
      MessagesAppend(Whole(all), Whole(Rest(all) + p));
    }
  }

  // However the stream is cut, what reaches the sink is the non-empty lines of
  // the whole stream, stripped, in order; and nothing is left in the buffer.
  lemma ChunkingDoesNotMatter(chunks: seq<Bytes>)
    ensures Flushed(WriteAll(State([], []), chunks)) == State([], Messages(Split(10, Concat(chunks))))
  {
    ChunksActAsOne(chunks);
    var all := Concat(chunks);
    assert [] + all == all;
    LastPieceLast(all);
  }

  lemma LastPieceLast(all: Bytes)
    ensures Messages(Split(LF, all)) == Messages(Whole(all)) + Messages([Rest(all)])
  {
    MessagesAppend(Whole(all), [Rest(all)]);
    assert Whole(all) + [Rest(all)] == Split(LF, all);
  }
}
