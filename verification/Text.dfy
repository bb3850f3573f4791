/** Text as the standard library of the source language sees it: characters, trimming, lines. */
module Text {
  /** The characters with the Unicode White_Space property. */
  predicate IsWhitespace(c: char) {
    || '\t' <= c <= '\r' || c == ' ' || c == '\U{85}' || c == '\U{A0}' || c == '\U{1680}'
    || '\U{2000}' <= c <= '\U{200A}' || c == '\U{2028}' || c == '\U{2029}' || c == '\U{202F}'
    || c == '\U{205F}' || c == '\U{3000}'
  }

  /** The characters of Unicode category Cc. */
  predicate IsControl(c: char) {
    c <= '\U{1F}' || '\U{7F}' <= c <= '\U{9F}'
  }

  lemma WhitespaceExactly(c: char)
    ensures IsWhitespace(c) <==>
            (c as int) in {0x9, 0xA, 0xB, 0xC, 0xD, 0x20, 0x85, 0xA0, 0x1680, 0x2000, 0x2001, 0x2002, 0x2003, 0x2004,
                           0x2005, 0x2006, 0x2007, 0x2008, 0x2009, 0x200A, 0x2028, 0x2029, 0x202F, 0x205F, 0x3000}
    ensures IsControl(c) <==> (c as int) < 32 || 127 <= (c as int) < 160
  {
  }

  predicate IsLower(c: char) { 'a' <= c <= 'z' }

  predicate IsUpper(c: char) { 'A' <= c <= 'Z' }

  predicate IsDigit(c: char) { '0' <= c <= '9' }

  predicate IsAlphanumeric(c: char) { IsLower(c) || IsUpper(c) || IsDigit(c) }

  lemma LettersExactly(c: char)
    ensures IsLower(c) <==> c in "abcdefghijklmnopqrstuvwxyz"
    ensures IsUpper(c) <==> c in "ABCDEFGHIJKLMNOPQRSTUVWXYZ"
    ensures IsDigit(c) <==> c in "0123456789"
  {
  }

  /** The number of bytes of a text in UTF-8. */
  function ByteLength(s: string): (n: nat)
    ensures |s| <= n
    ensures (forall i :: 0 <= i < |s| ==> s[i] < '\U{80}') ==> n == |s|
  {
    if s == "" then 0
    else
      (if s[0] < '\U{80}' then 1 else if s[0] < '\U{800}' then 2 else if s[0] < '\U{10000}' then 3 else 4)
      + ByteLength(s[1..])
  }

  predicate StartsWith(s: string, prefix: string) {
    prefix <= s
  }

  predicate EndsWith(s: string, c: char) {
    s != "" && s[|s| - 1] == c
  }

  function TrimStart(s: string): string {
    if s != "" && IsWhitespace(s[0]) then TrimStart(s[1..]) else s
  }

  function TrimEnd(s: string): string {
    if s != "" && IsWhitespace(s[|s| - 1]) then TrimEnd(s[..|s| - 1]) else s
  }

  function Trim(s: string): string {
    TrimEnd(TrimStart(s))
  }

  /** Trailing whitespace makes no difference to trimming. */
  lemma {:induction false} TrimIgnoresTrailing(s: string, c: char)
    requires IsWhitespace(c)
    ensures Trim(s + [c]) == Trim(s)
    decreases |s|
  {
    if s == "" {
      assert s + [c] == [c];
      assert TrimStart([c]) == TrimStart("");
    } else if IsWhitespace(s[0]) {
      assert (s + [c])[1..] == s[1..] + [c];
      TrimIgnoresTrailing(s[1..], c);
    } else {
      assert (s + [c])[..|s|] == s;
    }
  }

  /** Nor does leading whitespace. */
  lemma TrimIgnoresLeading(s: string, c: char)
    requires IsWhitespace(c)
    ensures Trim([c] + s) == Trim(s)
  {
    assert ([c] + s)[1..] == s;
  }

  lemma {:induction false} TrimAfterTrimEnd(s: string)
    ensures Trim(TrimEnd(s)) == Trim(s)
    decreases |s|
  {
    if s != "" && IsWhitespace(s[|s| - 1]) {
      TrimAfterTrimEnd(s[..|s| - 1]);
      TrimIgnoresTrailing(s[..|s| - 1], s[|s| - 1]);
      assert s == s[..|s| - 1] + [s[|s| - 1]];
    }
  }

  /** A text that ends in something visible is a barrier to trimming from the end. */
  lemma {:induction false} TrimEndStopsAt(a: string, b: string)
    requires a != "" && !IsWhitespace(a[|a| - 1])
    ensures TrimEnd(a + b) == a + TrimEnd(b)
    decreases |b|
  {
    if b == "" {
      assert a + b == a;
    } else if IsWhitespace(b[|b| - 1]) {
      assert (a + b)[..|a + b| - 1] == a + b[..|b| - 1];
      TrimEndStopsAt(a, b[..|b| - 1]);
    }
  }

  /** Nothing to trim at either end. */
  predicate Trimmed(s: string) {
    s == "" || (!IsWhitespace(s[0]) && !IsWhitespace(s[|s| - 1]))
  }

  lemma TrimOfTrimmed(s: string)
    requires Trimmed(s)
    ensures Trim(s) == s
  {
  }

  lemma {:induction false} TrimIsTrimmed(s: string)
    ensures Trimmed(Trim(s))
    decreases |s|
  {
    if s != "" && IsWhitespace(s[0]) {
      TrimIsTrimmed(s[1..]);
    } else {
      TrimEndKeepsStart(s);
    }
  }

  lemma {:induction false} TrimEndKeepsStart(s: string)
    ensures TrimEnd(s) <= s
    ensures TrimEnd(s) == "" || !IsWhitespace(TrimEnd(s)[|TrimEnd(s)| - 1])
    decreases |s|
  {
    if s != "" && IsWhitespace(s[|s| - 1]) {
      TrimEndKeepsStart(s[..|s| - 1]);
    }
  }

  ghost predicate AllWhitespace(s: string) {
    forall i :: 0 <= i < |s| ==> IsWhitespace(s[i])
  }

  /** Trimming takes off whitespace on both sides and nothing else. */
  lemma {:induction false} TrimIsMiddle(before: string, s: string, after: string)
    requires AllWhitespace(before) && Trimmed(s) && AllWhitespace(after)
    ensures Trim(before + s + after) == s
    decreases |before| + |after|
  {
    var all := before + s + after;
    if after != "" {
      var init := after[..|after| - 1];
      TrimIsMiddle(before, s, init);
      assert all == before + s + init + [after[|after| - 1]];
      TrimIgnoresTrailing(before + s + init, after[|after| - 1]);
    } else if before != "" {
      TrimIsMiddle(before[1..], s, after);
      assert all == [before[0]] + (before[1..] + s + after);
      TrimIgnoresLeading(before[1..] + s + after, before[0]);
    } else {
      assert all == s;
      TrimOfTrimmed(s);
    }
  }

  lemma {:induction false} StartIsWhitespace(s: string) returns (before: string)
    ensures AllWhitespace(before) && s == before + TrimStart(s)
    ensures TrimStart(s) == "" || !IsWhitespace(TrimStart(s)[0])
  {
    before := "";
    if s != "" && IsWhitespace(s[0]) {
      before := StartIsWhitespace(s[1..]);
      before := [s[0]] + before;
      assert s == [s[0]] + s[1..];
    }
  }

  lemma {:induction false} EndIsWhitespace(s: string) returns (after: string)
    ensures AllWhitespace(after) && s == TrimEnd(s) + after
  {
    after := "";
    if s != "" && IsWhitespace(s[|s| - 1]) {
      after := EndIsWhitespace(s[..|s| - 1]);
      after := after + [s[|s| - 1]];
      assert s == s[..|s| - 1] + [s[|s| - 1]];
    }
  }

  /** Blank, or nothing but whitespace before a number sign. */
  ghost predicate BlankOrComment(line: string) {
    AllWhitespace(line) || exists i :: 0 <= i < |line| && line[i] == '#' && AllWhitespace(line[..i])
  }

  lemma VisibleAfterWhitespace(before: string, rest: string)
    requires AllWhitespace(before) && rest != "" && !IsWhitespace(rest[0])
    ensures BlankOrComment(before + rest) <==> rest[0] == '#'
  {
    var line, at := before + rest, |before|;
    assert line[at] == rest[0] && line[..at] == before;
    assert forall i :: at < i < |line| ==> line[..i][at] == line[at];
    assert forall i :: 0 <= i < at ==> line[i] == before[i];
  }

  /** What is left after trimming tells. */
  lemma BlankOrCommentExactly(line: string)
    ensures BlankOrComment(line) <==> Trim(line) == "" || Trim(line)[0] == '#'
  {
    var before := StartIsWhitespace(line);
    var rest := TrimStart(line);
    if rest == "" {
      assert line == before;
    } else {
      VisibleAfterWhitespace(before, rest);
      TrimEndStopsAt([rest[0]], rest[1..]);
      assert rest == [rest[0]] + rest[1..];
    }
  }

  /** Trimming only ever removes characters. */
  lemma {:induction false} TrimShortens(s: string)
    ensures forall c :: c in Trim(s) ==> c in s
    decreases |s|
  {
    if s != "" && IsWhitespace(s[0]) {
      TrimShortens(s[1..]);
      assert forall c :: c in s[1..] ==> c in s;
    } else {
      TrimEndKeepsStart(s);
    }
  }

  /** Where the first `c` is, or the length if there is none. */
  function IndexOf(s: string, c: char): (i: nat)
    ensures i <= |s|
    ensures i < |s| ==> s[i] == c
    ensures forall j :: 0 <= j < i ==> s[j] != c
  {
    if s == "" || s[0] == c then 0 else 1 + IndexOf(s[1..], c)
  }

  lemma IndexOfIs(s: string, c: char, i: nat)
    requires i <= |s| && (i < |s| ==> s[i] == c)
    requires forall j :: 0 <= j < i ==> s[j] != c
    ensures IndexOf(s, c) == i
  {
  }

  /** One trailing carriage return is part of a line ending. */
  function DropCr(line: string): string {
    if EndsWith(line, '\r') then line[..|line| - 1] else line
  }

  /** The lines of a text. A line ends at a line feed, and a carriage return right before that line
      feed is dropped with it; an unterminated last line keeps its carriage return. */
  function Lines(text: string): seq<string> {
    if text == "" then []
    else
      var i := IndexOf(text, '\n');
      if i == |text| then [text] else [DropCr(text[..i])] + Lines(text[i + 1..])
  }

  /** Every line followed by a line feed. */
  function Unlines(lines: seq<string>): string {
    if lines == [] then "" else lines[0] + "\n" + Unlines(lines[1..])
  }

  predicate NoNewline(s: string) {
    '\n' !in s
  }

  ghost predicate AllLines(lines: seq<string>) {
    forall i :: 0 <= i < |lines| ==> NoNewline(lines[i])
  }

  ghost function DropCrs(lines: seq<string>): seq<string> {
    seq(|lines|, i requires 0 <= i < |lines| => DropCr(lines[i]))
  }

  lemma {:induction false} UnlinesConcat(a: seq<string>, b: seq<string>)
    ensures Unlines(a + b) == Unlines(a) + Unlines(b)
  {
    if a == [] {
      assert a + b == b;
    } else {
      assert (a + b)[1..] == a[1..] + b;
      UnlinesConcat(a[1..], b);
    }
  }

  lemma {:induction false} LinesHaveNoNewline(text: string)
    ensures AllLines(Lines(text))
    decreases |text|
  {
    if text != "" {
      var i := IndexOf(text, '\n');
      if i < |text| {
        LinesHaveNoNewline(text[i + 1..]);
      }
    }
  }

  /** Where a text is cut does not depend on what follows it. */
  lemma CutBefore(a: string, b: string, i: nat)
    requires i < |a|
    ensures (a + b)[..i] == a[..i] && (a + b)[i] == a[i] && (a + b)[i + 1..] == a[i + 1..] + b
  {
  }

  /** The first line of a text that has a line feed. */
  lemma FirstLine(text: string, i: nat)
    requires i < |text| && text[i] == '\n' && NoNewline(text[..i])
    ensures Lines(text) == [DropCr(text[..i])] + Lines(text[i + 1..])
  {
    forall j | 0 <= j < i
      ensures text[j] != '\n'
    {
      assert text[j] == text[..i][j];
    }
    IndexOfIs(text, '\n', i);
  }

  lemma LinesOfFirst(head: string, rest: string)
    requires NoNewline(head)
    ensures Lines(head + "\n" + rest) == [DropCr(head)] + Lines(rest)
  {
    var text, i := head + "\n" + rest, |head|;
    assert text[..i] == head && text[i] == '\n' && text[i + 1..] == rest;
    FirstLine(text, i);
  }

  lemma DropCrsFirst(lines: seq<string>)
    requires lines != []
    ensures DropCrs(lines) == [DropCr(lines[0])] + DropCrs(lines[1..])
  {
  }

  /** Reading back printed lines drops one carriage return from each. */
  lemma {:induction false} LinesOfUnlines(lines: seq<string>)
    requires AllLines(lines)
    ensures Lines(Unlines(lines)) == DropCrs(lines)
  {
    if lines != [] {
      LinesOfFirst(lines[0], Unlines(lines[1..]));
      LinesOfUnlines(lines[1..]);
      DropCrsFirst(lines);
    }
  }

  /** The first line stays the first, whatever follows. */
  lemma FirstLineOfConcat(a: string, b: string, i: nat)
    requires i < |a| && a[i] == '\n' && NoNewline(a[..i])
    ensures Lines(a) == [DropCr(a[..i])] + Lines(a[i + 1..])
    ensures Lines(a + b) == [DropCr(a[..i])] + Lines(a[i + 1..] + b)
  {
    CutBefore(a, b, i);
    FirstLine(a, i);
    FirstLine(a + b, i);
  }

  lemma ConcatAssociative(a: seq<string>, b: seq<string>, c: seq<string>)
    ensures a + (b + c) == (a + b) + c
  {
  }

  /** Empty, or its last line is terminated. */
  predicate Terminated(text: string) {
    text == "" || text[|text| - 1] == '\n'
  }

  lemma TerminatedHasFirstLine(text: string) returns (i: nat)
    requires Terminated(text) && text != ""
    ensures i < |text| && text[i] == '\n' && NoNewline(text[..i])
    ensures Terminated(text[i + 1..])
  {
    i := IndexOf(text, '\n');
  }

  /** The lines of a newline-terminated text followed by more are the lines of both. */
  lemma {:induction false} LinesConcat(a: string, b: string)
    requires Terminated(a)
    ensures Lines(a + b) == Lines(a) + Lines(b)
    decreases |a|
  {
    if a == "" {
      assert a + b == b;
    } else {
      var i := TerminatedHasFirstLine(a);
      var first, rest := [DropCr(a[..i])], a[i + 1..];
      LinesConcat(rest, b);
      FirstLineOfConcat(a, b, i);
      ConcatAssociative(first, Lines(rest), Lines(b));
    }
  }

  /** A last line that is not terminated is a line too, and keeps its carriage return. */
  lemma UnterminatedLine(a: string, b: string)
    requires Terminated(a) && NoNewline(b) && b != ""
    ensures Lines(a + b) == Lines(a) + [b]
  {
    LinesConcat(a, b);
    IndexOfIs(b, '\n', |b|);
  }

  /** Different lines print differently. */
  lemma {:induction false} UnlinesInjective(a: seq<string>, b: seq<string>)
    requires AllLines(a) && AllLines(b) && Unlines(a) == Unlines(b)
    ensures a == b
  {
    if a != [] && b != [] {
      var text := Unlines(a);
      IndexOfIs(text, '\n', |a[0]|);
      IndexOfIs(text, '\n', |b[0]|);
      assert a[0] == text[..|a[0]|] && b[0] == text[..|b[0]|];
      assert Unlines(a[1..]) == text[|a[0]| + 1..] && Unlines(b[1..]) == text[|b[0]| + 1..];
      UnlinesInjective(a[1..], b[1..]);
    }
  }

  /** Splitting at every `sep`: one part more than there are separators. */
  function Split(s: string, sep: char): (parts: seq<string>)
    ensures parts != []
    decreases |s|
  {
    var i := IndexOf(s, sep);
    if i == |s| then [s] else [s[..i]] + Split(s[i + 1..], sep)
  }

  /** The parts with the separator between any two. */
  function JoinWith(parts: seq<string>, sep: char): string {
    if parts == [] then "" else if |parts| == 1 then parts[0] else parts[0] + [sep] + JoinWith(parts[1..], sep)
  }

  lemma SplitOfPlain(s: string, sep: char)
    requires sep !in s
    ensures Split(s, sep) == [s]
  {
    IndexOfIs(s, sep, |s|);
  }

  lemma SplitFirst(head: string, sep: char, rest: string)
    requires sep !in head
    ensures Split(head + [sep] + rest, sep) == [head] + Split(rest, sep)
  {
    var s := head + [sep] + rest;
    IndexOfIs(s, sep, |head|);
    assert s[..|head|] == head && s[|head| + 1..] == rest;
  }

  /** Splitting takes a text apart exactly: joining the parts gives it back, and no part has the
      separator in it. */
  lemma {:induction false} SplitThenJoin(s: string, sep: char)
    ensures JoinWith(Split(s, sep), sep) == s
    ensures forall i :: 0 <= i < |Split(s, sep)| ==> sep !in Split(s, sep)[i]
    decreases |s|
  {
    var at := IndexOf(s, sep);
    if at < |s| {
      SplitThenJoin(s[at + 1..], sep);
      assert s == s[..at] + [sep] + s[at + 1..];
    }
  }

  /** And any such parts are what splitting their joining gives. */
  lemma {:induction false} JoinThenSplit(parts: seq<string>, sep: char)
    requires parts != [] && forall i :: 0 <= i < |parts| ==> sep !in parts[i]
    ensures Split(JoinWith(parts, sep), sep) == parts
  {
    if |parts| == 1 {
      SplitOfPlain(parts[0], sep);
    } else {
      SplitFirst(parts[0], sep, JoinWith(parts[1..], sep));
      JoinThenSplit(parts[1..], sep);
    }
  }
}
