/** Shell-style `KEY=value` text: the last-assignment-wins reader and the replace-or-append writer. */
module Conf {
  import opened Wrappers
  import opened Text

  /** One pair of matching quotes comes off; double quotes are tried first. */
  function StripQuotes(value: string): string {
    var last := |value| - 1;
    if |value| >= 2 && value[0] == '"' == value[last] then value[1..last]
    else if |value| >= 2 && value[0] == '\'' == value[last] then value[1..last]
    else value
  }

  predicate IsQuote(c: char) {
    c == '"' || c == '\''
  }

  /** A value that begins and ends in the same kind of quote is what stands between the two; any other
      value is itself. */
  lemma StripQuotesExactly(value: string)
    ensures forall q, inner :: IsQuote(q) && value == [q] + inner + [q] ==> StripQuotes(value) == inner
    ensures (forall q, inner :: IsQuote(q) ==> value != [q] + inner + [q]) ==> StripQuotes(value) == value
  {
    forall q, inner | IsQuote(q) && value == [q] + inner + [q]
      ensures StripQuotes(value) == inner
    {
      assert value[1..|value| - 1] == inner;
    }
    if |value| >= 2 {
      var last := |value| - 1;
      assert value == [value[0]] + value[1..last] + [value[last]];
    }
  }

  /** What one line assigns to the key whose prefix this is, if anything. */
  function LineValue(line: string, prefix: string): Option<string> {
    var trimmed := Trim(line);
    if StartsWith(trimmed, prefix) then Some(StripQuotes(Trim(trimmed[|prefix|..]))) else None
  }

  function LastValue(lines: seq<string>, prefix: string): Option<string> {
    if lines == [] then None
    else
      var v := LineValue(lines[|lines| - 1], prefix);
      if v.Some? then v else LastValue(lines[..|lines| - 1], prefix)
  }

  /** Reads one key; the last assignment counts. */
  function ParseValue(text: string, key: string): Option<string> {
    LastValue(Lines(text), key + "=")
  }

  lemma EqualsIsVisible(left: string, right: string)
    requires left == "" || !IsWhitespace(left[0])
    requires right == "" || !IsWhitespace(right[|right| - 1])
    ensures Trimmed(left + "=" + right)
  {
    var middle := left + "=" + right;
    assert middle[|middle| - 1] == if right == "" then '=' else right[|right| - 1];
  }

  lemma OuterEnds(front: string, left: string, right: string, back: string)
    ensures (front + left) + "=" + (right + back) == front + (left + "=" + right) + back
  {
  }

  /** Trimming an assignment trims the outer ends of its two sides. */
  lemma TrimAssignment(before: string, after: string)
    ensures Trim(before + "=" + after) == TrimStart(before) + "=" + TrimEnd(after)
  {
    var front := StartIsWhitespace(before);
    var back := EndIsWhitespace(after);
    var left, right := TrimStart(before), TrimEnd(after);
    TrimEndKeepsStart(after);
    EqualsIsVisible(left, right);
    OuterEnds(front, left, right, back);
    TrimIsMiddle(front, left + "=" + right, back);
  }

  lemma FirstEquals(left: string, right: string)
    requires '=' !in left
    ensures var all := left + "=" + right;
            IndexOf(all, '=') == |left| < |all| && all[..|left|] == left && all[|left| + 1..] == right
  {
    IndexOfIs(left + "=" + right, '=', |left|);
  }

  lemma TrimTwice(before: string, after: string)
    ensures Trim(TrimStart(before)) == Trim(before) && Trim(TrimEnd(after)) == Trim(after)
    ensures '=' !in before ==> '=' !in TrimStart(before)
  {
    var front := StartIsWhitespace(before);
    TrimAfterTrimEnd(after);
  }

  /** A line assigns to the key that stands before its first `=`, whatever whitespace is before that, and to
      no other; what it assigns is the text after, without whitespace and one pair of quotes around it. */
  lemma ReadsAroundFirstEquals(before: string, after: string, key: string)
    requires '=' !in before && '=' !in key
    ensures LineValue(before + "=" + after, key + "=") ==
            if TrimStart(before) == key then Some(StripQuotes(Trim(after))) else None
  {
    var left, right := TrimStart(before), TrimEnd(after);
    TrimAssignment(before, after);
    TrimTwice(before, after);
    FirstEquals(left, right);
    if StartsWith(left + "=" + right, key + "=") {
      FirstEquals(key, (left + "=" + right)[|key| + 1..]);
      assert left + "=" + right == key + "=" + (left + "=" + right)[|key| + 1..];
    }
  }

  lemma NoEqualsNoValue(line: string, key: string)
    requires '=' !in line
    ensures LineValue(line, key + "=") == None
  {
    TrimShortens(line);
    assert (key + "=")[|key|] == '=';
  }

  // The writer. It is used twice, for `KEY=` lines and for hosts entries, so its lines are picked
  // by any predicate.

  function Replace(lines: seq<string>, picks: string -> bool, entry: string): seq<string> {
    seq(|lines|, i requires 0 <= i < |lines| => if picks(lines[i]) then entry else lines[i])
  }

  predicate Picked(lines: seq<string>, picks: string -> bool) {
    exists i :: 0 <= i < |lines| && picks(lines[i])
  }

  function ReplaceOrAppend(lines: seq<string>, picks: string -> bool, entry: string): seq<string> {
    Replace(lines, picks, entry) + if Picked(lines, picks) then [] else [entry]
  }

  function Rewrite(text: string, picks: string -> bool, entry: string): string {
    Unlines(ReplaceOrAppend(Lines(text), picks, entry))
  }

  function Assigns(key: string): string -> bool {
    (line: string) => StartsWith(line, key + "=")
  }

  function Upserted(existing: Option<string>, key: string, value: string): string {
    match existing
    case None => key + "=" + value + "\n"
    case Some(text) => Rewrite(text, Assigns(key), key + "=" + value)
  }

  lemma ReplaceOneMore(lines: seq<string>, i: nat, picks: string -> bool, entry: string)
    requires i < |lines|
    ensures Replace(lines[..i + 1], picks, entry) ==
            Replace(lines[..i], picks, entry) + [if picks(lines[i]) then entry else lines[i]]
    ensures Picked(lines[..i + 1], picks) <==> Picked(lines[..i], picks) || picks(lines[i])
    ensures Unlines(Replace(lines[..i + 1], picks, entry)) ==
            Unlines(Replace(lines[..i], picks, entry)) + (if picks(lines[i]) then entry else lines[i]) + "\n"
  {
    var line := if picks(lines[i]) then entry else lines[i];
    assert Replace(lines[..i + 1], picks, entry) == Replace(lines[..i], picks, entry) + [line];
    UnlinesConcat(Replace(lines[..i], picks, entry), [line]);
    if Picked(lines[..i], picks) {
      var j :| 0 <= j < i && picks(lines[..i][j]);
      assert picks(lines[..i + 1][j]);
    }
    if picks(lines[i]) {
      assert picks(lines[..i + 1][i]);
    }
    if Picked(lines[..i + 1], picks) {
      var j :| 0 <= j < i + 1 && picks(lines[..i + 1][j]);
      assert j < i ==> picks(lines[..i][j]);
    }
  }

  /** The loop that sets a key; a missing file becomes the one line. */
  method UpsertKey(existing: Option<string>, key: string, value: string) returns (out: string)
    ensures out == Upserted(existing, key, value)
  {
    var assignment := key + "=" + value;
    if existing == None {
      return assignment + "\n";
    }

    var prefix := key + "=";
    var lines := Lines(existing.value);
    out := "";
    var replaced := false;
    for i := 0 to |lines|
      invariant out == Unlines(Replace(lines[..i], Assigns(key), assignment))
      invariant replaced == Picked(lines[..i], Assigns(key))
    {
      ReplaceOneMore(lines, i, Assigns(key), assignment);
      if StartsWith(lines[i], prefix) {
        out := out + assignment;
        replaced := true;
      } else {
        out := out + lines[i];
      }
      out := out + "\n";
    }

    assert lines[..|lines|] == lines;
    UnlinesConcat(Replace(lines, Assigns(key), assignment), [assignment]);
    assert Unlines([assignment]) == assignment + "\n";
    assert replaced ==> ReplaceOrAppend(lines, Assigns(key), assignment) == Replace(lines, Assigns(key), assignment);
    if !replaced {
      out := out + assignment;
      out := out + "\n";
    }
  }

  // What the writer does to the lines of a text, for any predicate that carriage returns and its
  // own entry do not confuse.

  ghost predicate Steady(picks: string -> bool, entry: string) {
    && picks(entry) && NoNewline(entry)
    && forall line :: picks(DropCr(line)) == picks(line)
  }

  lemma EntryIsThere(lines: seq<string>, picks: string -> bool, entry: string) returns (at: nat)
    ensures at < |ReplaceOrAppend(lines, picks, entry)|
    ensures ReplaceOrAppend(lines, picks, entry)[at] == entry
  {
    if i: nat :| 0 <= i < |lines| && picks(lines[i]) {
      at := i;
    } else {
      at := |lines|;
    }
  }

  lemma RewrittenHasLines(lines: seq<string>, picks: string -> bool, entry: string)
    requires AllLines(lines) && NoNewline(entry)
    ensures AllLines(ReplaceOrAppend(lines, picks, entry))
  {
  }

  lemma LinesOfRewrite(text: string, picks: string -> bool, entry: string)
    requires NoNewline(entry)
    ensures Lines(Rewrite(text, picks, entry)) == DropCrs(ReplaceOrAppend(Lines(text), picks, entry))
  {
    LinesHaveNoNewline(text);
    RewrittenHasLines(Lines(text), picks, entry);
    LinesOfUnlines(ReplaceOrAppend(Lines(text), picks, entry));
  }

  /** Every line that is not picked stays where it was, up to one trailing carriage return; every
      picked line now is the entry; and there is at least one. */
  lemma RewriteKeepsTheRest(text: string, picks: string -> bool, entry: string)
    requires Steady(picks, entry)
    ensures var was, now := Lines(text), Lines(Rewrite(text, picks, entry));
            && |was| <= |now| <= |was| + 1
            && (forall i :: 0 <= i < |was| && !picks(was[i]) ==> now[i] == DropCr(was[i]))
            && (forall i :: 0 <= i < |now| && picks(now[i]) ==> now[i] == DropCr(entry))
            && (exists i :: 0 <= i < |now| && picks(now[i]))
  {
    var was, now := Lines(text), Lines(Rewrite(text, picks, entry));
    LinesOfRewrite(text, picks, entry);
    var at := EntryIsThere(was, picks, entry);
    assert picks(now[at]);
  }

  /** No line outside the picked ones ends in a carriage return. */
  ghost predicate Tidy(text: string, picks: string -> bool) {
    forall i :: 0 <= i < |Lines(text)| && !picks(Lines(text)[i]) ==> !EndsWith(Lines(text)[i], '\r')
  }

  /** The lines a second write prints, against those of writing only once. */
  lemma TwiceAndOnce(was: seq<string>, picks: string -> bool, first: string, second: string)
    requires Steady(picks, first)
    ensures var once := DropCrs(ReplaceOrAppend(was, picks, first));
            var twice, direct := ReplaceOrAppend(once, picks, second), ReplaceOrAppend(was, picks, second);
            && |twice| == |direct| >= |was|
            && (forall i :: 0 <= i < |was| && !picks(was[i]) ==> twice[i] == DropCr(was[i]) && direct[i] == was[i])
            && (forall i :: 0 <= i < |twice| && (i < |was| ==> picks(was[i])) ==> twice[i] == direct[i])
  {
    var replaced := ReplaceOrAppend(was, picks, first);
    var once := DropCrs(replaced);
    assert forall i :: 0 <= i < |replaced| ==> picks(once[i]) == picks(replaced[i]);
    var at := EntryIsThere(was, picks, first);
    assert picks(once[at]);
  }

  /** A second write makes the first one not have happened, exactly on tidy texts; on any other, the
      second pass drops one more carriage return than the first. */
  lemma RewriteAbsorbs(text: string, picks: string -> bool, first: string, second: string)
    requires Steady(picks, first) && NoNewline(second)
    ensures Rewrite(Rewrite(text, picks, first), picks, second) == Rewrite(text, picks, second)
            <==> Tidy(text, picks)
  {
    var was := Lines(text);
    var once := DropCrs(ReplaceOrAppend(was, picks, first));
    var twice, direct := ReplaceOrAppend(once, picks, second), ReplaceOrAppend(was, picks, second);
    LinesOfRewrite(text, picks, first);
    TwiceAndOnce(was, picks, first, second);
    LinesHaveNoNewline(text);
    LinesHaveNoNewline(Rewrite(text, picks, first));
    RewrittenHasLines(was, picks, second);
    RewrittenHasLines(once, picks, second);
    if Unlines(twice) == Unlines(direct) {
      UnlinesInjective(twice, direct);
    }
    if Tidy(text, picks) {
      assert twice == direct;
    }
  }

  /** Writing the same entry again changes nothing, exactly on tidy texts. */
  lemma RewriteIdempotent(text: string, picks: string -> bool, entry: string)
    requires Steady(picks, entry)
    ensures Rewrite(Rewrite(text, picks, entry), picks, entry) == Rewrite(text, picks, entry) <==> Tidy(text, picks)
  {
    RewriteAbsorbs(text, picks, entry, entry);
  }

  /** How many carriage returns a line ends in. */
  function Crs(line: string): nat {
    if EndsWith(line, '\r') then 1 + Crs(DropCr(line)) else 0
  }

  /** The most carriage returns a line to be kept ends in. */
  function MostCrs(lines: seq<string>, picks: string -> bool): nat {
    if lines == [] then 0
    else
      var last := lines[|lines| - 1];
      var before := MostCrs(lines[..|lines| - 1], picks);
      if !picks(last) && Crs(last) > before then Crs(last) else before
  }

  function OneLess(n: nat): nat {
    if n == 0 then 0 else n - 1
  }

  lemma {:induction false} TidyHasNoCrs(lines: seq<string>, picks: string -> bool)
    ensures MostCrs(lines, picks) == 0 <==>
            forall i :: 0 <= i < |lines| && !picks(lines[i]) ==> !EndsWith(lines[i], '\r')
  {
    if lines != [] {
      TidyHasNoCrs(lines[..|lines| - 1], picks);
    }
  }

  lemma {:induction false} ReplacingEatsOneCr(was: seq<string>, now: seq<string>, picks: string -> bool, entry: string)
    requires Steady(picks, entry) && |was| == |now|
    requires forall i :: 0 <= i < |was| ==> now[i] == DropCr(if picks(was[i]) then entry else was[i])
    ensures MostCrs(now, picks) == OneLess(MostCrs(was, picks))
  {
    if was != [] {
      ReplacingEatsOneCr(was[..|was| - 1], now[..|now| - 1], picks, entry);
      assert picks(now[|now| - 1]) == picks(was[|was| - 1]);
    }
  }

  /** A picked line at the end counts for nothing. */
  lemma PickedCountsNothing(lines: seq<string>, picks: string -> bool, entry: string)
    requires picks(entry)
    ensures MostCrs(lines + [entry], picks) == MostCrs(lines, picks)
  {
    assert (lines + [entry])[..|lines|] == lines;
  }

  lemma ReplaceOrAppendEatsOneCr(was: seq<string>, picks: string -> bool, entry: string)
    requires Steady(picks, entry)
    ensures MostCrs(DropCrs(ReplaceOrAppend(was, picks, entry)), picks) == OneLess(MostCrs(was, picks))
  {
    var kept := DropCrs(Replace(was, picks, entry));
    ReplacingEatsOneCr(was, kept, picks, entry);
    if Picked(was, picks) {
      assert ReplaceOrAppend(was, picks, entry) == Replace(was, picks, entry);
    } else {
      assert DropCrs(ReplaceOrAppend(was, picks, entry)) == kept + [DropCr(entry)];
      PickedCountsNothing(kept, picks, DropCr(entry));
    }
  }

  /** Every pass takes one carriage return off every kept line that has one. */
  lemma RewriteEatsOneCr(text: string, picks: string -> bool, entry: string)
    requires Steady(picks, entry)
    ensures MostCrs(Lines(Rewrite(text, picks, entry)), picks) == OneLess(MostCrs(Lines(text), picks))
  {
    LinesOfRewrite(text, picks, entry);
    ReplaceOrAppendEatsOneCr(Lines(text), picks, entry);
  }

  function RewrittenTimes(text: string, picks: string -> bool, entry: string, times: nat): string {
    if times == 0 then text else Rewrite(RewrittenTimes(text, picks, entry, times - 1), picks, entry)
  }

  /** The most carriage returns at the end of a line to be kept, after so many passes. */
  function CrsLeft(text: string, picks: string -> bool, entry: string, times: nat): nat {
    MostCrs(Lines(RewrittenTimes(text, picks, entry, times)), picks)
  }

  lemma OnePassMore(text: string, picks: string -> bool, entry: string, times: nat)
    requires Steady(picks, entry)
    ensures CrsLeft(text, picks, entry, times + 1) == OneLess(CrsLeft(text, picks, entry, times))
  {
    RewriteEatsOneCr(RewrittenTimes(text, picks, entry, times), picks, entry);
  }

  lemma {:induction false} CountsDown(left: nat -> nat, times: nat)
    requires forall k: nat :: left(k + 1) == OneLess(left(k))
    ensures left(times) == if left(0) <= times then 0 else left(0) - times
  {
    if times > 0 {
      CountsDown(left, times - 1);
      assert left(times - 1 + 1) == OneLess(left(times - 1));
    }
  }

  lemma RewrittenTimesCrs(text: string, picks: string -> bool, entry: string, times: nat)
    requires Steady(picks, entry)
    ensures var most := CrsLeft(text, picks, entry, 0);
            CrsLeft(text, picks, entry, times) == if most <= times then 0 else most - times
  {
    var left := (k: nat) => CrsLeft(text, picks, entry, k);
    forall k: nat
      ensures left(k + 1) == OneLess(left(k))
    {
      OnePassMore(text, picks, entry, k);
    }
    CountsDown(left, times);
  }

  /** Stray carriage returns go one per pass: after n + 1 passes another one changes nothing, if and
      only if no kept line ended in more than n of them. */
  lemma RewriteSettles(text: string, picks: string -> bool, entry: string, passes: nat)
    requires Steady(picks, entry)
    ensures RewrittenTimes(text, picks, entry, passes + 2) == RewrittenTimes(text, picks, entry, passes + 1)
            <==> MostCrs(Lines(text), picks) <= passes
  {
    var before := RewrittenTimes(text, picks, entry, passes);
    assert RewrittenTimes(text, picks, entry, passes + 1) == Rewrite(before, picks, entry);
    RewriteIdempotent(before, picks, entry);
    RewrittenTimesCrs(text, picks, entry, passes);
    TidyHasNoCrs(Lines(before), picks);
  }
}
