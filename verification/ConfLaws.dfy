/** What the reader sees of the writer's work. */
module ConfLaws {
  import opened Wrappers
  import opened Text
  import opened Conf

  /** What the reader and the writer need of a key: it has no `=` and no line feed in it, and does
      not begin with whitespace. */
  predicate KeyOk(key: string) {
    '=' !in key && NoNewline(key) && (key == "" || !IsWhitespace(key[0]))
  }

  /** A flush-left assignment reads as its own key and as no other. */
  lemma FlushLeft(key: string, rest: string, other: string)
    requires KeyOk(key) && KeyOk(other)
    ensures LineValue(key + "=" + rest, key + "=") == Some(StripQuotes(Trim(rest)))
    ensures other != key ==> LineValue(key + "=" + rest, other + "=") == None
  {
    var prefix := key + "=";
    var line := prefix + rest;
    assert TrimStart(line) == line;
    TrimEndStopsAt(prefix, rest);
    assert Trim(line) == prefix + TrimEnd(rest);
    assert Trim(line)[|prefix|..] == TrimEnd(rest);
    TrimAfterTrimEnd(rest);
    if other != key && other + "=" <= Trim(line) {
      EqualsComesFirst(key, other, TrimEnd(rest));
    }
  }

  lemma EqualsComesFirst(key: string, other: string, rest: string)
    requires '=' !in key && '=' !in other
    requires other + "=" <= key + "=" + rest
    ensures key == other
  {
    var line := key + "=" + rest;
    assert other == (other + "=")[..|other|] == line[..|other|];
    assert line[|other|] == (other + "=")[|other|];
    assert key == line[..|key|];
    IndexOfIs(line, '=', |key|);
    IndexOfIs(line, '=', |other|);
  }

  lemma DropCrReadsTheSame(line: string, prefix: string)
    ensures LineValue(DropCr(line), prefix) == LineValue(line, prefix)
  {
    if EndsWith(line, '\r') {
      assert line == DropCr(line) + "\r";
      TrimIgnoresTrailing(DropCr(line), '\r');
    }
  }

  lemma DropCrKeepsPrefix(line: string, key: string)
    ensures StartsWith(DropCr(line), key + "=") == StartsWith(line, key + "=")
  {
    var prefix := key + "=";
    if StartsWith(line, prefix) && EndsWith(line, '\r') {
      assert line[|prefix| - 1] == '=';
      assert DropCr(line)[..|prefix|] == line[..|prefix|];
    }
  }

  lemma AssignsIsSteady(key: string, value: string)
    requires KeyOk(key) && NoNewline(value)
    ensures Steady(Assigns(key), key + "=" + value)
  {
    forall line
      ensures Assigns(key)(DropCr(line)) == Assigns(key)(line)
    {
      DropCrKeepsPrefix(line, key);
    }
  }

  /** Setting a key twice is setting it to the second value, exactly when no other line of the file
      ends in a carriage return. */
  lemma LastUpsertWins(text: string, key: string, first: string, second: string)
    requires KeyOk(key) && NoNewline(first) && NoNewline(second)
    ensures Upserted(Some(Upserted(Some(text), key, first)), key, second) == Upserted(Some(text), key, second)
            <==> Tidy(text, Assigns(key))
  {
    AssignsIsSteady(key, first);
    RewriteAbsorbs(text, Assigns(key), key + "=" + first, key + "=" + second);
  }

  /** The last line that assigns the key is indented. */
  predicate LastIsIndented(lines: seq<string>, prefix: string) {
    lines != [] &&
    var last := lines[|lines| - 1];
    if LineValue(last, prefix).Some? then !StartsWith(last, prefix)
    else LastIsIndented(lines[..|lines| - 1], prefix)
  }

  /** The writer works on the flush-left assignments of the key, and the reader reads an indented
      one after them. */
  predicate Shadowed(text: string, key: string) {
    Picked(Lines(text), Assigns(key)) && LastIsIndented(Lines(text), key + "=")
  }

  /** Line by line, `b` reads like `a`, and is flush left where `a` is. */
  ghost predicate ReadsAlike(a: seq<string>, b: seq<string>, prefix: string) {
    && |a| == |b|
    && forall i :: 0 <= i < |a| ==>
                     && LineValue(a[i], prefix) == LineValue(b[i], prefix)
                     && StartsWith(a[i], prefix) == StartsWith(b[i], prefix)
  }

  lemma {:induction false} AlikeReadTheSame(a: seq<string>, b: seq<string>, prefix: string)
    requires ReadsAlike(a, b, prefix)
    ensures LastValue(a, prefix) == LastValue(b, prefix)
    ensures LastIsIndented(a, prefix) == LastIsIndented(b, prefix)
  {
    if a != [] {
      AlikeReadTheSame(a[..|a| - 1], b[..|b| - 1], prefix);
    }
  }

  /** A line the key does not read may be appended unseen. */
  lemma AppendUnread(lines: seq<string>, line: string, prefix: string)
    requires LineValue(line, prefix) == None
    ensures LastValue(lines + [line], prefix) == LastValue(lines, prefix)
    ensures LastIsIndented(lines + [line], prefix) == LastIsIndented(lines, prefix)
  {
    assert (lines + [line])[..|lines|] == lines;
  }

  lemma PickedAlike(a: seq<string>, b: seq<string>, key: string)
    requires ReadsAlike(a, b, key + "=")
    ensures Picked(a, Assigns(key)) == Picked(b, Assigns(key))
  {
    if i :| 0 <= i < |a| && Assigns(key)(a[i]) {
      assert Assigns(key)(b[i]);
    }
    if i :| 0 <= i < |b| && Assigns(key)(b[i]) {
      assert Assigns(key)(a[i]);
    }
  }

  /** What becomes of one line. */
  function Rewritten(line: string, key: string, value: string): string {
    DropCr(if StartsWith(line, key + "=") then key + "=" + value else line)
  }

  lemma RewrittenForOthers(line: string, key: string, value: string, other: string)
    requires KeyOk(key) && KeyOk(other) && key != other
    ensures var prefix, now := other + "=", Rewritten(line, key, value);
            LineValue(now, prefix) == LineValue(line, prefix) && StartsWith(now, prefix) == StartsWith(line, prefix)
    ensures StartsWith(line, key + "=") ==>
              LineValue(line, other + "=") == None && !StartsWith(line, other + "=")
  {
    var from := if StartsWith(line, key + "=") then key + "=" + value else line;
    DropCrReadsTheSame(from, other + "=");
    DropCrKeepsPrefix(from, other);
    if StartsWith(line, key + "=") {
      var rest := line[|key| + 1..];
      assert line == key + "=" + rest;
      FlushLeft(key, rest, other);
      NotFlushLeft(key, rest, other);
      FlushLeft(key, value, other);
      NotFlushLeft(key, value, other);
    }
  }

  lemma RewrittenForItself(line: string, key: string, value: string)
    requires KeyOk(key)
    ensures var prefix, now := key + "=", Rewritten(line, key, value);
            && StartsWith(now, prefix) == StartsWith(line, prefix)
            && (StartsWith(line, prefix) ==>
                  LineValue(line, prefix).Some? && LineValue(now, prefix) == Some(StripQuotes(Trim(value))))
            && (!StartsWith(line, prefix) ==> LineValue(now, prefix) == LineValue(line, prefix))
  {
    var from := if StartsWith(line, key + "=") then key + "=" + value else line;
    DropCrReadsTheSame(from, key + "=");
    DropCrKeepsPrefix(from, key);
    if StartsWith(line, key + "=") {
      var rest := line[|key| + 1..];
      assert line == key + "=" + rest;
      FlushLeft(key, rest, key);
      FlushLeft(key, value, key);
    }
  }

  /** The lines of a written text: each old line in its place, and perhaps the entry at the end. */
  lemma UpsertedLines(text: string, key: string, value: string)
    requires KeyOk(key) && NoNewline(value)
    ensures var was, now := Lines(text), Lines(Upserted(Some(text), key, value));
            && |now| == (if Picked(was, Assigns(key)) then |was| else |was| + 1)
            && (forall i :: 0 <= i < |was| ==> now[i] == Rewritten(was[i], key, value))
            && (|now| > |was| ==> now[|was|] == Rewritten(key + "=" + value, key, value))
  {
    LinesOfRewrite(text, Assigns(key), key + "=" + value);
  }

  lemma KeptReadAlike(was: seq<string>, kept: seq<string>, key: string, value: string, other: string)
    requires KeyOk(key) && KeyOk(other) && key != other && |was| == |kept|
    requires forall i :: 0 <= i < |was| ==> kept[i] == Rewritten(was[i], key, value)
    ensures ReadsAlike(was, kept, other + "=")
  {
    forall i | 0 <= i < |was|
      ensures LineValue(was[i], other + "=") == LineValue(kept[i], other + "=")
      ensures StartsWith(was[i], other + "=") == StartsWith(kept[i], other + "=")
    {
      RewrittenForOthers(was[i], key, value, other);
    }
  }

  /** Lines that read alike, and perhaps one more that is not read. */
  lemma ReadTheSame(was: seq<string>, now: seq<string>, key: string)
    requires |was| <= |now| <= |was| + 1 && ReadsAlike(was, now[..|was|], key + "=")
    requires |now| > |was| ==> LineValue(now[|was|], key + "=") == None && !StartsWith(now[|was|], key + "=")
    ensures LastValue(now, key + "=") == LastValue(was, key + "=")
    ensures LastIsIndented(now, key + "=") == LastIsIndented(was, key + "=")
    ensures Picked(now, Assigns(key)) == Picked(was, Assigns(key))
  {
    var kept := now[..|was|];
    AlikeReadTheSame(was, kept, key + "=");
    PickedAlike(was, kept, key);
    if |now| == |was| {
      assert kept == now;
    } else {
      assert now == kept + [now[|was|]];
      AppendUnread(kept, now[|was|], key + "=");
      PickedOneMore(kept, now[|was|], key);
    }
  }

  /** Writing one key changes what no other key reads, nor whether it is shadowed. */
  lemma UpsertKeepsOthers(text: string, key: string, value: string, other: string)
    requires KeyOk(key) && KeyOk(other) && key != other && NoNewline(value)
    ensures ParseValue(Upserted(Some(text), key, value), other) == ParseValue(text, other)
    ensures Shadowed(Upserted(Some(text), key, value), other) == Shadowed(text, other)
  {
    var was, now := Lines(text), Lines(Upserted(Some(text), key, value));
    UpsertedLines(text, key, value);
    KeptReadAlike(was, now[..|was|], key, value, other);
    RewrittenForOthers(key + "=" + value, key, value, other);
    ReadTheSame(was, now, other);
  }

  lemma NotFlushLeft(key: string, rest: string, other: string)
    requires KeyOk(key) && KeyOk(other) && key != other
    ensures !StartsWith(key + "=" + rest, other + "=")
  {
    if StartsWith(key + "=" + rest, other + "=") {
      EqualsComesFirst(key, other, rest);
    }
  }

  lemma PickedOneMore(lines: seq<string>, line: string, key: string)
    ensures Picked(lines + [line], Assigns(key)) == (Picked(lines, Assigns(key)) || StartsWith(line, key + "="))
  {
    if i :| 0 <= i < |lines| && Assigns(key)(lines[i]) {
      assert Assigns(key)((lines + [line])[i]);
    }
    if i :| 0 <= i < |lines + [line]| && Assigns(key)((lines + [line])[i]) {
      assert i < |lines| ==> Assigns(key)(lines[i]);
    }
    if StartsWith(line, key + "=") {
      assert Assigns(key)((lines + [line])[|lines|]);
    }
  }

  /** In place, the flush-left assignments now read the new value; an indented one after them
      still hides it. */
  lemma {:induction false} ReplacedReads(was: seq<string>, now: seq<string>, key: string, value: string)
    requires KeyOk(key) && |was| == |now|
    requires forall i :: 0 <= i < |was| ==> now[i] == Rewritten(was[i], key, value)
    ensures var prefix := key + "=";
            && LastIsIndented(now, prefix) == LastIsIndented(was, prefix)
            && (LastValue(was, prefix) == None ==> LastValue(now, prefix) == None)
            && (LastValue(was, prefix).Some? ==>
                  LastValue(now, prefix) ==
                  if LastIsIndented(was, prefix) then LastValue(was, prefix) else Some(StripQuotes(Trim(value))))
  {
    if was != [] {
      var n := |was| - 1;
      ReplacedReads(was[..n], now[..n], key, value);
      RewrittenForItself(was[n], key, value);
    }
  }

  lemma {:induction false} PickedReads(lines: seq<string>, key: string)
    requires KeyOk(key) && Picked(lines, Assigns(key))
    ensures LastValue(lines, key + "=").Some?
  {
    var n := |lines| - 1;
    if StartsWith(lines[n], key + "=") {
      assert lines[n] == key + "=" + lines[n][|key| + 1..];
      FlushLeft(key, lines[n][|key| + 1..], key);
    } else {
      var i :| 0 <= i < |lines| && Assigns(key)(lines[i]);
      assert Assigns(key)(lines[..n][i]);
      PickedReads(lines[..n], key);
    }
  }

  lemma ReplacingReads(text: string, key: string, value: string)
    requires KeyOk(key) && NoNewline(value) && Picked(Lines(text), Assigns(key))
    ensures ParseValue(Upserted(Some(text), key, value), key) ==
            if Shadowed(text, key) then ParseValue(text, key) else Some(StripQuotes(Trim(value)))
    ensures Shadowed(Upserted(Some(text), key, value), key) == Shadowed(text, key)
  {
    var was, now := Lines(text), Lines(Upserted(Some(text), key, value));
    UpsertedLines(text, key, value);
    ReplacedReads(was, now, key, value);
    PickedReads(was, key);
    var i :| 0 <= i < |was| && Assigns(key)(was[i]);
    RewrittenForItself(was[i], key, value);
    assert Assigns(key)(now[i]);
  }

  lemma AppendingReads(text: string, key: string, value: string)
    requires KeyOk(key) && NoNewline(value) && !Picked(Lines(text), Assigns(key))
    ensures ParseValue(Upserted(Some(text), key, value), key) == Some(StripQuotes(Trim(value)))
    ensures !Shadowed(Upserted(Some(text), key, value), key)
  {
    var was, now := Lines(text), Lines(Upserted(Some(text), key, value));
    UpsertedLines(text, key, value);
    RewrittenForItself(key + "=" + value, key, value);
    assert now[|now| - 1] == now[|was|];
  }

  /** What a key reads right after it was written, for every text: the written value, unless the
      key is shadowed, and then what it read before. Shadowing itself never changes. */
  lemma UpsertReads(text: string, key: string, value: string)
    requires KeyOk(key) && NoNewline(value)
    ensures ParseValue(Upserted(Some(text), key, value), key) ==
            if Shadowed(text, key) then ParseValue(text, key) else Some(StripQuotes(Trim(value)))
    ensures Shadowed(Upserted(Some(text), key, value), key) == Shadowed(text, key)
  {
    if Picked(Lines(text), Assigns(key)) {
      ReplacingReads(text, key, value);
    } else {
      AppendingReads(text, key, value);
    }
  }

  lemma WriteToNothingReads(key: string, value: string, other: string)
    requires KeyOk(key) && KeyOk(other) && NoNewline(value)
    ensures ParseValue(Upserted(None, key, value), other) ==
            if other == key then Some(StripQuotes(Trim(value))) else None
    ensures !Shadowed(Upserted(None, key, value), other)
  {
    var entry := key + "=" + value;
    assert Upserted(None, key, value) == Unlines([entry]);
    LinesOfUnlines([entry]);
    var now := Lines(Upserted(None, key, value));
    assert now == [Rewritten(entry, key, value)];
    assert StartsWith(entry, key + "=");
    if other == key {
      RewrittenForItself(entry, key, value);
    } else {
      RewrittenForOthers(entry, key, value, other);
      assert LineValue(now[|now| - 1], other + "=") == None;
      assert LastValue(now[..|now| - 1], other + "=") == None;
    }
  }

  /** Double quotes around any value without a line feed protect all of it. */
  lemma QuotedReadsBack(text: string, key: string, value: string)
    requires KeyOk(key) && NoNewline(value) && !Shadowed(text, key)
    ensures ParseValue(Upserted(Some(text), key, "\"" + value + "\""), key) == Some(value)
  {
    var quoted := "\"" + value + "\"";
    UpsertReads(text, key, quoted);
    TrimOfTrimmed(quoted);
    assert quoted[1..|quoted| - 1] == value;
  }

  lemma IndentedReads(key: string, rest: string)
    requires KeyOk(key)
    ensures LineValue(" " + (key + "=" + rest), key + "=") == Some(StripQuotes(Trim(rest)))
    ensures !StartsWith(" " + (key + "=" + rest), key + "=")
  {
    var flush := key + "=" + rest;
    var indented := " " + flush;
    assert indented[1..] == flush;
    assert TrimStart(indented) == TrimStart(flush);
    FlushLeft(key, rest, key);
    assert indented[0] == ' ' && (key + "=")[0] != ' ';
  }

  /** The writer's promise fails on a shadowed key: whatever is written, the indented assignment
      after the flush-left one is what is read. */
  lemma ShadowedKeyIsNotUpdated(key: string, flush: string, indented: string, value: string)
    requires KeyOk(key) && NoNewline(flush) && NoNewline(indented) && NoNewline(value)
    ensures var text := Unlines([key + "=" + flush, " " + (key + "=" + indented)]);
            && Shadowed(text, key)
            && ParseValue(Upserted(Some(text), key, value), key) == Some(StripQuotes(Trim(indented)))
  {
    var lines := [key + "=" + flush, " " + (key + "=" + indented)];
    var text := Unlines(lines);
    LinesOfUnlines(lines);
    assert Lines(text) == [DropCr(lines[0]), DropCr(lines[1])];
    DropCrKeepsPrefix(lines[0], key);
    DropCrKeepsPrefix(lines[1], key);
    DropCrReadsTheSame(lines[1], key + "=");
    IndentedReads(key, indented);
    assert Assigns(key)(Lines(text)[0]);
    UpsertReads(text, key, value);
  }

  /** For instance, a key set to 3 that still reads 2. */
  lemma SetToThreeReadsTwo()
    ensures var text := Unlines(["A" + "=" + "1", " " + ("A" + "=" + "2")]);
            ParseValue(Upserted(Some(text), "A", "3"), "A") == Some("2")
  {
    ShadowedKeyIsNotUpdated("A", "1", "2", "3");
    TrimOfTrimmed("2");
  }

  lemma RewriteOfPrinted(printed: seq<string>, key: string, entry: string)
    requires AllLines(printed)
    ensures Lines(Unlines(printed)) == DropCrs(printed)
    ensures Rewrite(Unlines(printed), Assigns(key), entry) ==
            Unlines(ReplaceOrAppend(DropCrs(printed), Assigns(key), entry))
  {
    LinesOfUnlines(printed);
  }

  lemma DropOneCr(line: string)
    ensures DropCr(line + "\r") == line
  {
    assert (line + "\r")[..|line|] == line;
  }

  /** A line that ends in two carriage returns loses one at every write, so setting the same key to
      the same value twice is not setting it once. */
  lemma StrayCrsGoOneByOne(line: string, key: string, value: string)
    requires NoNewline(line) && NoNewline(key) && NoNewline(value)
    requires !EndsWith(line, '\r') && !EndsWith(key + "=" + value, '\r')
    requires !Assigns(key)(line) && !Assigns(key)(line + "\r")
    ensures var entry := key + "=" + value;
            var once := Upserted(Some(Unlines([line + "\r" + "\r"])), key, value);
            once == Unlines([line + "\r", entry]) && Upserted(Some(once), key, value) == Unlines([line, entry])
  {
    var entry := key + "=" + value;
    DropOneCr(line + "\r");
    DropOneCr(line);
    RewriteOfPrinted([line + "\r" + "\r"], key, entry);
    assert DropCrs([line + "\r" + "\r"]) == [line + "\r"];
    assert ReplaceOrAppend([line + "\r"], Assigns(key), entry) == [line + "\r", entry];
    RewriteOfPrinted([line + "\r", entry], key, entry);
    assert DropCrs([line + "\r", entry]) == [line, entry];
    var read := [line, entry];
    assert Assigns(key)(read[1]);
    assert ReplaceOrAppend(read, Assigns(key), entry) == read;
  }

  /** For instance, in a file whose comment line has two of them. */
  lemma CommentLosesBoth()
    ensures var text := Unlines(["#" + "\r" + "\r"]);
            var once := Upserted(Some(text), "A", "1");
            && once == Unlines(["#" + "\r", "A" + "=" + "1"])
            && Upserted(Some(once), "A", "1") == Unlines(["#", "A" + "=" + "1"]) != once
  {
    var a, b := ["#" + "\r", "A" + "=" + "1"], ["#", "A" + "=" + "1"];
    assert "#"[0] == '#' && ("#" + "\r")[0] == '#' && ("A" + "=")[0] == 'A';
    StrayCrsGoOneByOne("#", "A", "1");
    assert |a[0]| != |b[0]|;
    if Unlines(a) == Unlines(b) {
      UnlinesInjective(a, b);
    }
  }
}
