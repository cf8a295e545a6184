// Byte strings: cutting at a separator, and big-endian numbers.
module Bytes {
  type Byte = b: int | 0 <= b < 256
  type Bytes = seq<Byte>

  // The pieces between separators; a stream that ends in one has a last, empty
  // piece.
  function Split(sep: Byte, s: Bytes): (r: seq<Bytes>)
    ensures |r| > 0
  {
    if s == [] then [[]]
    else
      var rest := Split(sep, s[1..]);
      if s[0] == sep then [[]] + rest else [[s[0]] + rest[0]] + rest[1..]
  }

  function Join(sep: Byte, pieces: seq<Bytes>): Bytes
    requires |pieces| > 0
  {
    if |pieces| == 1 then pieces[0] else pieces[0] + [sep] + Join(sep, pieces[1..])
  }

  // Split is the one way to cut the stream at its separators.
  lemma {:induction false} SplitIsTheCut(sep: Byte, s: Bytes)
    ensures Join(sep, Split(sep, s)) == s
    ensures forall i | 0 <= i < |Split(sep, s)| :: sep !in Split(sep, s)[i]
  {
    if s != [] {
      SplitIsTheCut(sep, s[1..]);
      var rest := Split(sep, s[1..]);
      if s[0] == sep {
        assert Split(sep, s)[1..] == rest;
        assert s == [sep] + s[1..];
      } else {
        assert Split(sep, s)[1..] == rest[1..];
        assert s == [s[0]] + s[1..];
      }
    }
  }

  lemma {:induction false} CutIsUnique(sep: Byte, pieces: seq<Bytes>)
    requires |pieces| > 0 && forall i | 0 <= i < |pieces| :: sep !in pieces[i]
    ensures Split(sep, Join(sep, pieces)) == pieces
    decreases |pieces|, |pieces[0]|
  {
    var s := Join(sep, pieces);
    if |pieces[0]| == 0 {
      if |pieces| > 1 {
        CutIsUnique(sep, pieces[1..]);
        assert s[1..] == Join(sep, pieces[1..]);
      }
    } else {
      var shorter := [pieces[0][1..]] + pieces[1..];
      CutIsUnique(sep, shorter);
      assert shorter[1..] == pieces[1..];
      assert s[1..] == Join(sep, shorter);
      assert s[0] == pieces[0][0] != sep;
      assert [s[0]] + shorter[0] == pieces[0];
      assert Split(sep, s) == pieces;
    }
  }

  // Adding a byte in front either opens a new piece or widens the first one.
  function Widen(sep: Byte, c: Byte, pieces: seq<Bytes>): seq<Bytes>
    requires |pieces| > 0
  {
    if c == sep then [[]] + pieces else [[c] + pieces[0]] + pieces[1..]
  }

  // Two cuttings, glued where one stream ends and the next begins.
  function Glue(p: seq<Bytes>, q: seq<Bytes>): seq<Bytes>
    requires |p| > 0 && |q| > 0
  {
    p[..|p| - 1] + [p[|p| - 1] + q[0]] + q[1..]
  }

  lemma WidenGlue(sep: Byte, c: Byte, p: seq<Bytes>, q: seq<Bytes>)
    requires |p| > 0 && |q| > 0
    ensures Widen(sep, c, Glue(p, q)) == Glue(Widen(sep, c, p), q)
  {
    if c != sep && |p| == 1 {
      assert [c] + (p[0] + q[0]) == ([c] + p[0]) + q[0];
    }
  }

  lemma GlueLast(p: seq<Bytes>, q: seq<Bytes>)
    requires |p| > 0 && |q| > 0
    ensures var all, tail := Glue(p, q), Glue([p[|p| - 1]], q);
            && all[..|all| - 1] == p[..|p| - 1] + tail[..|tail| - 1]
            && all[|all| - 1] == tail[|tail| - 1]
  {
  }

  lemma {:induction false} SplitAppend(sep: Byte, a: Bytes, b: Bytes)
    ensures Split(sep, a + b) == Glue(Split(sep, a), Split(sep, b))
  {
    if a == [] {
      assert a + b == b;
      assert [] + Split(sep, b)[0] == Split(sep, b)[0];
    } else {
      SplitAppend(sep, a[1..], b);
      assert (a + b)[1..] == a[1..] + b;
      WidenGlue(sep, a[0], Split(sep, a[1..]), Split(sep, b));
      assert Split(sep, a + b) == Widen(sep, a[0], Split(sep, a[1..] + b));
      assert Split(sep, a) == Widen(sep, a[0], Split(sep, a[1..]));
    }
  }

  lemma {:induction false} OnePiece(sep: Byte, s: Bytes)
    requires sep !in s
    ensures Split(sep, s) == [s]
  {
    if s != [] {
      OnePiece(sep, s[1..]);
      assert s == [s[0]] + s[1..];
    }
  }

  lemma GlueEmpty(p: seq<Bytes>, q: seq<Bytes>)
    requires |p| > 0 && |q| > 0
    ensures Glue(p, [[]] + q) == p + q
  {
    assert p[|p| - 1] + [] == p[|p| - 1];
    assert ([[]] + q)[1..] == q;
  }

  // A separator cuts the stream in two.
  lemma SplitAtSeparator(sep: Byte, a: Bytes, b: Bytes)
    ensures Split(sep, a + [sep] + b) == Split(sep, a) + Split(sep, b)
  {
    assert a + [sep] + b == a + ([sep] + b);
    SplitAppend(sep, a, [sep] + b);
    assert ([sep] + b)[1..] == b;
    GlueEmpty(Split(sep, a), Split(sep, b));
  }

  // Big-endian numbers of two and four bytes.
  function Put16(n: nat): (r: Bytes)
    requires n < 0x1_0000
  {
    [n / 256, n % 256]
  }

  function Get16(b: Bytes, i: nat): (n: nat)
    requires i + 2 <= |b|
    ensures n < 0x1_0000
  {
    b[i] as int * 256 + b[i + 1] as int
  }

  function Put32(n: nat): (r: Bytes)
    requires n < 0x1_0000_0000
  {
    Put16(n / 0x1_0000) + Put16(n % 0x1_0000)
  }

  function Get32(b: Bytes, i: nat): (n: nat)
    requires i + 4 <= |b|
    ensures n < 0x1_0000_0000
  {
    Get16(b, i) * 0x1_0000 + Get16(b, i + 2)
  }

  // The high byte comes first.
  lemma ByteOrder(n: nat)
    requires n < 0x1_0000_0000
    ensures |Put32(n)| == 4
    ensures var b := Put32(n); n == b[0] as int * 16_777_216 + b[1] as int * 65_536 + b[2] as int * 256 + b[3] as int
    ensures n < 0x1_0000 ==> |Put16(n)| == 2 && n == Put16(n)[0] as int * 256 + Put16(n)[1] as int
  {
    var high, low := n / 0x1_0000, n % 0x1_0000;
    assert n == high * 65_536 + low;
    assert Put32(n)[0] == high / 256 && Put32(n)[1] == high % 256;
    assert Put32(n)[2] == low / 256 && Put32(n)[3] == low % 256;
  }

  lemma Get16Put16(before: Bytes, n: nat, after: Bytes)
    requires n < 0x1_0000
    ensures Get16(before + Put16(n) + after, |before|) == n
  {
    var s := before + Put16(n) + after;
    assert s[|before|] == n / 256 && s[|before| + 1] == n % 256;
  }

  lemma Get32Put32(before: Bytes, n: nat, after: Bytes)
    requires n < 0x1_0000_0000
    ensures Get32(before + Put32(n) + after, |before|) == n
  {
    var high, low := n / 0x1_0000, n % 0x1_0000;
    assert before + Put32(n) + after == before + Put16(high) + (Put16(low) + after);
    Get16Put16(before, high, Put16(low) + after);
    assert before + Put32(n) + after == (before + Put16(high)) + Put16(low) + after;
    Get16Put16(before + Put16(high), low, after);
  }

  lemma Reassociate(a: Bytes, b: Bytes, c: Bytes, d: Bytes)
    ensures a + (b + c) + d == (a + b) + c + d
    ensures a + (b + c) + d == a + b + (c + d)
  {
  }
}
