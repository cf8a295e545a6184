// The one instruction whose arguments are quoted: ENV, and how an image builder
// reads such a line back (without expanding variables).
module EnvLine {
  import opened Common

  type Pair = (string, string)

  // ------------------------------------------------------------------ writing

  predicate Special(c: char) { c == ' ' || c == '\t' || c == '"' || c == '\\' || c == '$' }

  predicate NeedsQuote(v: string) { exists i | 0 <= i < |v| :: Special(v[i]) }

  function Escaped(v: string): string {
    if v == "" then ""
    else Escaped(v[..|v| - 1]) + (if v[|v| - 1] == '"' || v[|v| - 1] == '\\' then ['\\'] else []) + [v[|v| - 1]]
  }

  function Quote(v: string): string {
    if v == "" then ['"', '"'] else if NeedsQuote(v) then ['"'] + Escaped(v) + ['"'] else v
  }

  method QuoteEnvValue(v: string) returns (r: string)
    ensures r == Quote(v)
    ensures v == "" ==> r == ['"', '"']
    ensures v != "" && (forall i | 0 <= i < |v| :: v[i] !in [' ', '\t', '"', '\\', '$']) ==> r == v
    ensures (exists i :: 0 <= i < |v| && v[i] in [' ', '\t', '"', '\\', '$']) ==>
      r == ['"'] + Escaped(v) + ['"']
  {
    if v == "" { return ['"', '"']; }
    var needsQuote := false;
    for i := 0 to |v|
      invariant needsQuote <==> exists k | 0 <= k < i :: Special(v[k])
    {
      if Special(v[i]) { needsQuote := true; break; }
    }
    if !needsQuote { return v; }
    r := ['"'];
    for i := 0 to |v|
      invariant r == ['"'] + Escaped(v[..i])
    {
      assert v[..i + 1][..i] == v[..i];
      if v[i] == '"' || v[i] == '\\' { r := r + ['\\']; }
      r := r + [v[i]];
    }
    assert v[..|v|] == v;
    r := r + ['"'];
  }

  function Word(p: Pair): string { p.0 + ['='] + p.1 }

  function EnvText(pairs: seq<Pair>): string {
    if pairs == [] then "" else [' '] + pairs[0].0 + ['='] + Quote(pairs[0].1) + EnvText(pairs[1..])
  }

  function EnvLine(pairs: seq<Pair>): string { "ENV" + EnvText(pairs) }

  // ------------------------------------------------------------------ reading

  predicate Space(c: char) {
    c == ' ' || c == '\t' || c == '\n' || c == '\r' || c == '\U{0B}' || c == '\U{0C}'
  }

  datatype Mode = Bare | Single | Double

  function Push(word: string, more: Option<seq<string>>): Option<seq<string>> {
    if more.Some? then Some([word] + more.value) else None
  }

  // Words with their quotes and escapes taken away; None for a quote left open.
  // `open` says a word has begun, even if it is still empty.
  function Scan(s: string, mode: Mode, word: string, open: bool): Option<seq<string>>
    decreases |s|
  {
    if s == "" then
      if mode.Bare? then Some(if open then [word] else []) else None
    else
      var c, rest := s[0], s[1..];
      match mode
      case Bare =>
        if Space(c) then
          if open then Push(word, Scan(rest, Bare, "", false)) else Scan(rest, Bare, "", false)
        else if c == '"' then Scan(rest, Double, word, true)
        else if c == '\'' then Scan(rest, Single, word, true)
        else if c == '\\' then
          if rest == "" then Scan(rest, Bare, word, open) else Scan(rest[1..], Bare, word + [rest[0]], true)
        else Scan(rest, Bare, word + [c], true)
      case Single =>
        if c == '\'' then Scan(rest, Bare, word, true) else Scan(rest, Single, word + [c], true)
      case Double =>
        if c == '"' then Scan(rest, Bare, word, true)
        else if c == '\\' && rest != "" && (rest[0] == '"' || rest[0] == '$' || rest[0] == '\\') then
          Scan(rest[1..], Double, word + [rest[0]], true)
        else Scan(rest, Double, word + [c], true)
  }

  // A word is a pair cut at its first equals sign.
  function Cut(word: string): Option<Pair> {
    if word == "" then None
    else if word[0] == '=' then Some(("", word[1..]))
    else
      var r := Cut(word[1..]);
      if r.Some? then Some(([word[0]] + r.value.0, r.value.1)) else None
  }

  function CutAll(words: seq<string>): Option<seq<Pair>> {
    if words == [] then Some([])
    else
      var first, more := Cut(words[0]), CutAll(words[1..]);
      if first.Some? && more.Some? then Some([first.value] + more.value) else None
  }

  function FirstLine(s: string): string {
    if s == "" || s[0] == '\n' then "" else [s[0]] + FirstLine(s[1..])
  }

  // What the line means to the builder.
  function ReadEnv(line: string): Option<seq<Pair>>
    requires |line| >= 3
  {
    var words := Scan(FirstLine(line[3..]), Bare, "", false);
    if words.Some? then CutAll(words.value) else None
  }

  // -------------------------------------------------- which values come through

  predicate KeySafe(k: string) {
    k != "" && forall i | 0 <= i < |k| :: !Space(k[i]) && k[i] !in {'=', '"', '\'', '\\'}
  }

  predicate Plain(c: char) { !Space(c) && c != '"' && c != '\'' && c != '\\' }

  // A value survives unless it holds a line feed or, unquoted, a single quote
  // or one of the spaces that do not make the writer quote it.
  predicate ValueSafe(v: string) {
    && '\n' !in v
    && (NeedsQuote(v) || forall i | 0 <= i < |v| :: Plain(v[i]))
  }

  lemma {:induction false} ScanPlain(v: string, rest: string, word: string, open: bool)
    requires forall i | 0 <= i < |v| :: Plain(v[i])
    ensures Scan(v + rest, Bare, word, open) == Scan(rest, Bare, word + v, open || v != "")
  {
    if v == "" {
      assert v + rest == rest && word + v == word;
    } else {
      assert (v + rest)[1..] == v[1..] + rest;
      ScanPlain(v[1..], rest, word + [v[0]], true);
      assert word + [v[0]] + v[1..] == word + v;
    }
  }

  lemma {:induction false} EscapedFront(c: char, v: string)
    ensures Escaped([c] + v) == (if c == '"' || c == '\\' then ['\\', c] else [c]) + Escaped(v)
  {
    if v == "" {
      assert [c] + v == [c] && [c][..0] == "";
    } else {
      var front := v[..|v| - 1];
      EscapedFront(c, front);
      assert ([c] + v)[..|v|] == [c] + front;
    }
  }

  lemma {:induction false} ScanEscaped(v: string, rest: string, word: string)
    ensures Scan(Escaped(v) + (['"'] + rest), Double, word, true) == Scan(rest, Bare, word + v, true)
  {
    var s := Escaped(v) + (['"'] + rest);
    if v == "" {
      assert s == ['"'] + rest && word + v == word;
    } else {
      var c, u := v[0], v[1..];
      assert v == [c] + u;
      EscapedFront(c, u);
      ScanEscaped(u, rest, word + [c]);
      assert word + [c] + u == word + v;
      var tail := Escaped(u) + (['"'] + rest);
      if c == '"' || c == '\\' {
        assert s == ['\\', c] + tail && s[1..] == [c] + tail && s[1..][1..] == tail;
      } else {
        assert s == [c] + tail && s[1..] == tail;
      }
    }
  }

  lemma OpeningQuote(text: string, word: string)
    ensures Scan(['"'] + text, Bare, word, true) == Scan(text, Double, word, true)
  {
    assert (['"'] + text)[1..] == text;
  }

  lemma QuoteShape(v: string, rest: string)
    requires v == "" || NeedsQuote(v)
    ensures Quote(v) + rest == ['"'] + (Escaped(v) + (['"'] + rest))
  {
    assert Quote(v) == ['"'] + Escaped(v) + ['"'];
  }

  lemma ScanQuoted(v: string, rest: string, word: string)
    requires ValueSafe(v)
    ensures Scan(Quote(v) + rest, Bare, word, true) == Scan(rest, Bare, word + v, true)
  {
    if v == "" || NeedsQuote(v) {
      QuoteShape(v, rest);
      OpeningQuote(Escaped(v) + (['"'] + rest), word);
      ScanEscaped(v, rest, word);
    } else {
      ScanPlain(v, rest, word, true);
    }
  }

  function WordsOf(pairs: seq<Pair>): seq<string> {
    if pairs == [] then [] else [Word(pairs[0])] + WordsOf(pairs[1..])
  }

  ghost predicate KeysSafe(pairs: seq<Pair>) { forall i | 0 <= i < |pairs| :: KeySafe(pairs[i].0) }

  ghost predicate ValuesSafe(pairs: seq<Pair>) { forall i | 0 <= i < |pairs| :: ValueSafe(pairs[i].1) }

  function Pending(word: string, open: bool): seq<string> { if open then [word] else [] }

  // The next pair is read up to its equals sign.
  lemma ScanKey(p: Pair, rest: string, word: string, open: bool)
    requires KeySafe(p.0)
    ensures var inner := Scan(rest, Bare, p.0 + ['='], true);
            Scan([' '] + p.0 + ['='] + rest, Bare, word, open) == if open then Push(word, inner) else inner
  {
    var text := [' '] + p.0 + ['='] + rest;
    assert text[1..] == (p.0 + ['=']) + rest;
    ScanPlain(p.0 + ['='], rest, "", false);
    assert "" + (p.0 + ['=']) == p.0 + ['='];
  }

  // A pair whose value is safe is read to its end.
  lemma ScanPair(p: Pair, rest: string, word: string, open: bool)
    requires KeySafe(p.0) && ValueSafe(p.1)
    ensures var inner := Scan(rest, Bare, Word(p), true);
            Scan([' '] + p.0 + ['='] + Quote(p.1) + rest, Bare, word, open)
            == if open then Push(word, inner) else inner
  {
    assert [' '] + p.0 + ['='] + Quote(p.1) + rest == [' '] + p.0 + ['='] + (Quote(p.1) + rest);
    ScanKey(p, Quote(p.1) + rest, word, open);
    ScanQuoted(p.1, rest, p.0 + ['=']);
  }

  lemma {:induction false} SafeValuesComeThrough(pairs: seq<Pair>, word: string, open: bool)
    requires KeysSafe(pairs) && ValuesSafe(pairs)
    ensures Scan(EnvText(pairs), Bare, word, open) == Some(Pending(word, open) + WordsOf(pairs))
  {
    if pairs == [] {
      assert Pending(word, open) + [] == Pending(word, open);
    } else {
      ScanPair(pairs[0], EnvText(pairs[1..]), word, open);
      SafeValuesComeThrough(pairs[1..], Word(pairs[0]), true);
      assert Pending(Word(pairs[0]), true) + WordsOf(pairs[1..]) == WordsOf(pairs);
    }
    assert [] + WordsOf(pairs) == WordsOf(pairs);
  }

  lemma {:induction false} ScanExtends(s: string, mode: Mode, word: string)
    ensures var r := Scan(s, mode, word, true); r.Some? ==> r.value != [] && word <= r.value[0]
    decreases |s|
  {
    if s != "" {
      var c, rest := s[0], s[1..];
      ScanExtends(rest, Bare, word);
      ScanExtends(rest, Single, word);
      ScanExtends(rest, Double, word);
      ScanExtends(rest, Bare, word + [c]);
      ScanExtends(rest, Single, word + [c]);
      ScanExtends(rest, Double, word + [c]);
      if rest != "" {
        ScanExtends(rest[1..], Bare, word + [rest[0]]);
        ScanExtends(rest[1..], Double, word + [rest[0]]);
      }
    }
  }

  // Reading on from inside an unquoted value, the next character to be kept is
  // never a single quote.
  lemma {:induction false} QuoteIsLost(w: string, tail: string, mode: Mode, word: string)
    requires !NeedsQuote(w) && !mode.Double? && (tail == "" || tail[0] == ' ')
    ensures var r := Scan(w + tail, mode, word, true);
            r.Some? ==> r.value != [] && word <= r.value[0] && (|r.value[0]| > |word| ==> r.value[0][|word|] != '\'')
  {
    var s := w + tail;
    ScanExtends(s, mode, word);
    if s != "" {
      ScanExtends(s[1..], Single, word + [s[0]]);
      ScanExtends(s[1..], Bare, word + [s[0]]);
    }
    if w == "" {
      assert s == tail;
    } else {
      assert s[0] == w[0] && s[1..] == w[1..] + tail && !Special(w[0]);
      assert forall i | 0 <= i < |w| - 1 :: w[1..][i] == w[i + 1];
      if w[0] == '\'' { QuoteIsLost(w[1..], tail, if mode.Bare? then Single else Bare, word); }
    }
  }

  lemma {:induction false} UnsafeValueIsLost(v: string, tail: string, word: string)
    requires !NeedsQuote(v) && '\n' !in v && !ValueSafe(v) && (tail == "" || tail[0] == ' ')
    ensures var r := Scan(v + tail, Bare, word, true); r.Some? ==> r.value != [] && r.value[0] != word + v
  {
    var s := v + tail;
    assert v != "" && s[0] == v[0] && s[1..] == v[1..] + tail && !Special(v[0]);
    assert forall i | 0 <= i < |v| - 1 :: v[1..][i] == v[i + 1];
    if Plain(v[0]) {
      UnsafeValueIsLost(v[1..], tail, word + [v[0]]);
      assert word + [v[0]] + v[1..] == word + v;
    } else if v[0] == '\'' {
      QuoteIsLost(v[1..], tail, Single, word);
      assert (word + v)[|word|] == '\'';
    } else {
      assert Space(v[0]);
    }
  }

  lemma {:induction false} UnsafeValuesDoNot(pairs: seq<Pair>, word: string, open: bool)
    requires KeysSafe(pairs) && !ValuesSafe(pairs)
    requires forall i | 0 <= i < |pairs| :: '\n' !in pairs[i].1
    ensures Scan(EnvText(pairs), Bare, word, open) != Some(Pending(word, open) + WordsOf(pairs))
  {
    var p, rest := pairs[0], EnvText(pairs[1..]);
    assert EnvText(pairs) == [' '] + p.0 + ['='] + (Quote(p.1) + rest);
    ScanKey(p, Quote(p.1) + rest, word, open);
    if ValueSafe(p.1) {
      ScanQuoted(p.1, rest, p.0 + ['=']);
      UnsafeValuesDoNot(pairs[1..], Word(p), true);
      assert Pending(Word(p), true) + WordsOf(pairs[1..]) == [Word(p)] + WordsOf(pairs[1..]);
    } else {
      UnsafeValueIsLost(p.1, rest, p.0 + ['=']);
    }
    var inner := Scan(Quote(p.1) + rest, Bare, p.0 + ['='], true);
    assert inner != Some([Word(p)] + WordsOf(pairs[1..]));
    assert [] + WordsOf(pairs) == WordsOf(pairs) == [Word(p)] + WordsOf(pairs[1..]);
    if open && inner.Some? {
      assert ([word] + inner.value)[1..] == inner.value;
      assert ([word] + WordsOf(pairs))[1..] == WordsOf(pairs);
    }
  }

  // ---------------------------------------------------------------- main result

  lemma {:induction false} CutIsInverse(word: string)
    ensures Cut(word).Some? ==> word == Word(Cut(word).value)
  {
    if word != "" && word[0] != '=' { CutIsInverse(word[1..]); }
  }

  lemma {:induction false} CutFindsKey(k: string, v: string)
    requires '=' !in k
    ensures Cut(Word((k, v))) == Some((k, v))
  {
    var w := Word((k, v));
    if k == "" {
      assert w == ['='] + v;
    } else {
      CutFindsKey(k[1..], v);
      assert w[1..] == Word((k[1..], v));
      assert [k[0]] + k[1..] == k;
    }
  }

  lemma {:induction false} CutAllUndoesWords(words: seq<string>, pairs: seq<Pair>)
    requires KeysSafe(pairs)
    ensures CutAll(words) == Some(pairs) <==> words == WordsOf(pairs)
  {
    if words != [] && pairs != [] {
      CutAllUndoesWords(words[1..], pairs[1..]);
      CutIsInverse(words[0]);
      CutFindsKey(pairs[0].0, pairs[0].1);
      assert words == [words[0]] + words[1..] && pairs == [pairs[0]] + pairs[1..];
    }
  }

  lemma {:induction false} FirstLineHasNoFeed(s: string)
    ensures '\n' !in FirstLine(s)
    ensures '\n' !in s ==> FirstLine(s) == s
  {
    if s != "" && s[0] != '\n' { FirstLineHasNoFeed(s[1..]); }
  }

  ghost predicate NoFeeds(words: seq<string>) { forall i | 0 <= i < |words| :: '\n' !in words[i] }

  lemma {:induction false} ScanAddsNoFeed(s: string, mode: Mode, word: string, open: bool)
    requires '\n' !in s && '\n' !in word
    ensures var r := Scan(s, mode, word, open); r.Some? ==> NoFeeds(r.value)
    decreases |s|
  {
    if s != "" {
      var c, rest := s[0], s[1..];
      assert c in s && '\n' !in word + [c];
      ScanAddsNoFeed(rest, Bare, "", false);
      ScanAddsNoFeed(rest, Bare, word, open);
      ScanAddsNoFeed(rest, mode, word + [c], true);
      ScanAddsNoFeed(rest, Bare, word, true);
      ScanAddsNoFeed(rest, Single, word, true);
      ScanAddsNoFeed(rest, Double, word, true);
      if rest != "" {
        assert rest[0] in s && '\n' !in word + [rest[0]];
        ScanAddsNoFeed(rest[1..], mode, word + [rest[0]], true);
      }
    }
  }

  lemma {:induction false} EscapedKeepsFeeds(v: string)
    ensures '\n' in Escaped(v) <==> '\n' in v
  {
    if v != "" {
      EscapedKeepsFeeds(v[..|v| - 1]);
      assert v == v[..|v| - 1] + [v[|v| - 1]];
    }
  }

  lemma {:induction false} TextHasNoFeed(pairs: seq<Pair>)
    requires KeysSafe(pairs) && forall i | 0 <= i < |pairs| :: '\n' !in pairs[i].1
    ensures '\n' !in EnvText(pairs)
  {
    if pairs != [] {
      TextHasNoFeed(pairs[1..]);
      EscapedKeepsFeeds(pairs[0].1);
      assert '\n' !in pairs[0].0;
    }
  }

  lemma {:induction false} WordsCarryValues(pairs: seq<Pair>, i: nat)
    requires i < |pairs|
    ensures |WordsOf(pairs)| == |pairs| && WordsOf(pairs)[i] == Word(pairs[i])
  {
    if i > 0 { WordsCarryValues(pairs[1..], i - 1); }
    else if |pairs| > 1 { WordsCarryValues(pairs[1..], 0); }
  }

  // The line reads back as the pairs it was written from exactly when every
  // value is safe.
  lemma EnvLineRoundTrip(pairs: seq<Pair>)
    requires KeysSafe(pairs)
    ensures ReadEnv(EnvLine(pairs)) == Some(pairs) <==> ValuesSafe(pairs)
  {
    var text := EnvText(pairs);
    assert EnvLine(pairs)[3..] == text;
    var line := FirstLine(text);
    var words := Scan(line, Bare, "", false);
    if words.Some? { CutAllUndoesWords(words.value, pairs); }
    FirstLineHasNoFeed(text);
    if i :| 0 <= i < |pairs| && '\n' in pairs[i].1 {
      ScanAddsNoFeed(line, Bare, "", false);
      WordsCarryValues(pairs, i);
      assert '\n' in Word(pairs[i]);
    } else {
      TextHasNoFeed(pairs);
      assert [] + WordsOf(pairs) == WordsOf(pairs);
      if ValuesSafe(pairs) {
        SafeValuesComeThrough(pairs, "", false);
      } else {
        UnsafeValuesDoNot(pairs, "", false);
      }
    }
  }
}
