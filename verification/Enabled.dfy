/** enabled.conf: one target per line, read line by line whatever the lines before it were. */
module Enabled {
  import opened Text
  import opened Sequences
  import opened Targets
  import opened Merging

  datatype Warning = BadLine(number: nat, error: TargetError) | Repeated(number: nat, name: ExperimentName)

  datatype EnabledList = EnabledList(targets: seq<Target>, warnings: seq<Warning>)

  /** Neither blank nor a comment. */
  predicate Significant(line: string) {
    Trim(line) != "" && Trim(line)[0] != '#'
  }

  /** Lines that are blank or comments, and no others, say nothing. */
  lemma SignificantExactly(line: string)
    ensures Significant(line) <==> !BlankOrComment(line)
  {
    BlankOrCommentExactly(line);
  }

  function ReadLine(list: EnabledList, number: nat, line: string): EnabledList {
    if !Significant(line) then list
    else
      match ParsedTarget(Trim(line))
      case Err(e) => list.(warnings := list.warnings + [BadLine(number, e)])
      case Ok(t) =>
        if t.name in Names(list.targets) then list.(warnings := list.warnings + [Repeated(number, t.name)])
        else list.(targets := list.targets + [t])
  }

  function ReadLines(lines: seq<string>): EnabledList {
    if lines == [] then EnabledList([], [])
    else ReadLine(ReadLines(lines[..|lines| - 1]), |lines|, lines[|lines| - 1])
  }

  method ParseEnabled(text: string) returns (list: EnabledList)
    ensures list == ReadLines(Lines(text))
  {
    var lines := Lines(text);
    list := EnabledList([], []);
    for i := 0 to |lines|
      invariant list == ReadLines(lines[..i])
    {
      assert lines[..i + 1][..i] == lines[..i];
      var line := Trim(lines[i]);
      if line == "" || line[0] == '#' {
        continue;
      }
      var r := ParseTarget(line);
      match r
      case Err(e) => list := list.(warnings := list.warnings + [BadLine(i + 1, e)]);
      case Ok(t) =>
        var at := Find(list.targets, t.name);
        if at < |list.targets| {
          list := list.(warnings := list.warnings + [Repeated(i + 1, t.name)]);
        } else {
          list := list.(targets := list.targets + [t]);
        }
    }
    assert lines[..|lines|] == lines;
  }

  predicate Valid(line: string) {
    Significant(line) && ParsedTarget(Trim(line)).Ok?
  }

  /** The target a valid line gives. */
  function TargetOf(line: string): Target
    requires Valid(line)
  {
    ParsedTarget(Trim(line)).value
  }

  /** Line `k` is the first valid one for the name it gives. */
  predicate FirstValid(lines: seq<string>, k: nat) {
    && k < |lines| && Valid(lines[k])
    && forall j :: 0 <= j < k && Valid(lines[j]) ==> TargetOf(lines[j]).name != TargetOf(lines[k]).name
  }

  /** No line is lost: every significant one is either a target or a warning. */
  lemma {:induction false} LinesAreConserved(lines: seq<string>)
    ensures var list := ReadLines(lines);
            |list.targets| + |list.warnings| == |Filter(lines, Significant)|
  {
    if lines != [] {
      LinesAreConserved(lines[..|lines| - 1]);
    }
  }

  /** One more line adds its target exactly when it is valid and its name is new. */
  lemma OneMoreLine(list: EnabledList, number: nat, line: string)
    ensures ReadLine(list, number, line).targets ==
            if Valid(line) && TargetOf(line).name !in Names(list.targets) then list.targets + [TargetOf(line)]
            else list.targets
  {
  }

  /** These lines, in order, are where the targets come from: each is the first valid one for its
      name. */
  ghost predicate ReadFrom(lines: seq<string>, targets: seq<Target>, at: seq<nat>) {
    && |at| == |targets|
    && (forall i, j :: 0 <= i < j < |at| ==> at[i] < at[j])
    && forall i :: 0 <= i < |at| ==> FirstValid(lines, at[i]) && TargetOf(lines[at[i]]) == targets[i]
  }

  /** The names read so far are distinct and include every valid line's. */
  ghost predicate NamesRead(lines: seq<string>, targets: seq<Target>) {
    && Distinct(Names(targets))
    && forall k :: 0 <= k < |lines| && Valid(lines[k]) ==> TargetOf(lines[k]).name in Names(targets)
  }

  lemma NamesReadOneMore(init: seq<string>, last: string, before: seq<Target>, after: seq<Target>)
    requires NamesRead(init, before)
    requires after == if Valid(last) && TargetOf(last).name !in Names(before) then before + [TargetOf(last)] else before
    ensures NamesRead(init + [last], after)
  {
    if after != before {
      assert Names(after) == Names(before) + [TargetOf(last).name];
    }
    forall k | 0 <= k < |init + [last]| && Valid((init + [last])[k])
      ensures TargetOf((init + [last])[k]).name in Names(after)
    {
      if k < |init| {
        assert (init + [last])[k] == init[k];
      }
    }
  }

  lemma FirstValidExtends(init: seq<string>, last: string, k: nat)
    requires FirstValid(init, k)
    ensures FirstValid(init + [last], k)
  {
    assert forall j :: 0 <= j <= k ==> (init + [last])[j] == init[j];
  }

  lemma NewNameIsFirst(init: seq<string>, last: string, targets: seq<Target>)
    requires NamesRead(init, targets) && Valid(last) && TargetOf(last).name !in Names(targets)
    ensures FirstValid(init + [last], |init|)
  {
    assert (init + [last])[|init|] == last;
    assert forall j :: 0 <= j < |init| ==> (init + [last])[j] == init[j];
  }

  lemma ReadFromOneMore(init: seq<string>, last: string, before: seq<Target>, after: seq<Target>, at: seq<nat>)
    returns (at': seq<nat>)
    requires NamesRead(init, before) && ReadFrom(init, before, at)
    requires after == if Valid(last) && TargetOf(last).name !in Names(before) then before + [TargetOf(last)] else before
    ensures ReadFrom(init + [last], after, at')
  {
    forall i | 0 <= i < |at|
      ensures FirstValid(init + [last], at[i]) && (init + [last])[at[i]] == init[at[i]]
    {
      FirstValidExtends(init, last, at[i]);
    }
    at' := at;
    if Valid(last) && TargetOf(last).name !in Names(before) {
      NewNameIsFirst(init, last, before);
      at' := at + [|init|];
    }
  }

  lemma {:induction false} LinesAreRead(lines: seq<string>) returns (at: seq<nat>)
    ensures NamesRead(lines, ReadLines(lines).targets)
    ensures ReadFrom(lines, ReadLines(lines).targets, at)
  {
    if lines == [] {
      at := [];
    } else {
      var init, last := lines[..|lines| - 1], lines[|lines| - 1];
      assert lines == init + [last];
      at := LinesAreRead(init);
      OneMoreLine(ReadLines(init), |lines|, last);
      NamesReadOneMore(init, last, ReadLines(init).targets, ReadLines(lines).targets);
      at := ReadFromOneMore(init, last, ReadLines(init).targets, ReadLines(lines).targets, at);
    }
  }

  /** The targets are the first valid lines for their names, in the order of the file, each with that
      line's profiles; and every valid line's name is among them exactly once. */
  lemma TargetsAreFirstValidLines(lines: seq<string>)
    ensures var ts := ReadLines(lines).targets;
            && Distinct(Names(ts))
            && (forall i :: 0 <= i < |ts| ==> Canonical(ts[i].profiles))
            && (exists at :: ReadFrom(lines, ts, at))
            && (forall k :: 0 <= k < |lines| && Valid(lines[k]) ==> TargetOf(lines[k]).name in Names(ts))
  {
    var ts := ReadLines(lines).targets;
    var at := LinesAreRead(lines);
    forall i | 0 <= i < |ts|
      ensures Canonical(ts[i].profiles)
    {
      assert FirstValid(lines, at[i]);
      ParsedIsCanonical(Trim(lines[at[i]]));
    }
  }

  /** More lines only ever add to both lists. */
  lemma {:induction false} MoreLinesOnlyAdd(a: seq<string>, b: seq<string>)
    ensures ReadLines(a).targets <= ReadLines(a + b).targets
    ensures ReadLines(a).warnings <= ReadLines(a + b).warnings
  {
    if b == [] {
      assert a + b == a;
    } else {
      assert (a + b)[..|a + b| - 1] == a + b[..|b| - 1];
      MoreLinesOnlyAdd(a, b[..|b| - 1]);
    }
  }

  /** Text appended to newline-terminated text only ever adds to both lists. */
  lemma AppendedTextOnlyAdds(a: string, b: string)
    requires Terminated(a)
    ensures ReadLines(Lines(a)).targets <= ReadLines(Lines(a + b)).targets
    ensures ReadLines(Lines(a)).warnings <= ReadLines(Lines(a + b)).warnings
  {
    LinesConcat(a, b);
    MoreLinesOnlyAdd(Lines(a), Lines(b));
  }
  /** Why a line with this number was warned about. */
  ghost predicate Deserved(lines: seq<string>, w: Warning) {
    && 1 <= w.number <= |lines| && Significant(lines[w.number - 1])
    && match w
       case BadLine(number, error) => var r := ParsedTarget(Trim(lines[number - 1])); r.Err? && r.error == error
       case Repeated(number, name) =>
         && Valid(lines[number - 1]) && TargetOf(lines[number - 1]).name == name
         && exists j :: 0 <= j < number - 1 && Valid(lines[j]) && TargetOf(lines[j]).name == name
  }

  lemma DeservedStill(init: seq<string>, last: string, w: Warning)
    requires Deserved(init, w)
    ensures Deserved(init + [last], w)
  {
    assert forall j :: 0 <= j < |init| ==> (init + [last])[j] == init[j];
  }

  /** What one more line is warned about, if it is. */
  function WarningFor(list: EnabledList, number: nat, line: string): seq<Warning> {
    if !Significant(line) then []
    else
      match ParsedTarget(Trim(line))
      case Err(e) => [BadLine(number, e)]
      case Ok(t) => if t.name in Names(list.targets) then [Repeated(number, t.name)] else []
  }

  /** A line before gives this name. */
  ghost predicate Given(lines: seq<string>, name: ExperimentName) {
    exists j :: 0 <= j < |lines| && Valid(lines[j]) && TargetOf(lines[j]).name == name
  }

  /** Every name that has been read stands on a line. */
  lemma NamesAreGiven(lines: seq<string>)
    ensures forall name :: name in Names(ReadLines(lines).targets) ==> Given(lines, name)
  {
    var ts := ReadLines(lines).targets;
    TargetsAreFirstValidLines(lines);
    var at :| ReadFrom(lines, ts, at);
    forall name | name in Names(ts)
      ensures Given(lines, name)
    {
      var i :| 0 <= i < |ts| && Names(ts)[i] == name;
      assert FirstValid(lines, at[i]) && TargetOf(lines[at[i]]) == ts[i];
    }
  }

  lemma BadLineIsDeserved(init: seq<string>, last: string, e: TargetError)
    requires Significant(last) && ParsedTarget(Trim(last)).Err? && ParsedTarget(Trim(last)).error == e
    ensures Deserved(init + [last], BadLine(|init| + 1, e))
  {
    assert (init + [last])[|init|] == last;
  }

  lemma RepeatedIsDeserved(init: seq<string>, last: string)
    requires Valid(last) && Given(init, TargetOf(last).name)
    ensures Deserved(init + [last], Repeated(|init| + 1, TargetOf(last).name))
  {
    var j :| 0 <= j < |init| && Valid(init[j]) && TargetOf(init[j]).name == TargetOf(last).name;
    assert (init + [last])[|init|] == last && (init + [last])[j] == init[j];
  }

  lemma NewWarningIsDeserved(init: seq<string>, last: string, list: EnabledList)
    requires forall name :: name in Names(list.targets) ==> Given(init, name)
    ensures forall w :: w in WarningFor(list, |init| + 1, last) ==>
                          w.number == |init| + 1 && Deserved(init + [last], w)
  {
    if Significant(last) {
      match ParsedTarget(Trim(last)) {
        case Err(e) => BadLineIsDeserved(init, last, e);
        case Ok(t) =>
          if t.name in Names(list.targets) {
            RepeatedIsDeserved(init, last);
          }
      }
    }
  }

  ghost predicate AllDeserved(lines: seq<string>, ws: seq<Warning>) {
    && (forall i :: 0 <= i < |ws| ==> Deserved(lines, ws[i]))
    && (forall i, j :: 0 <= i < j < |ws| ==> ws[i].number < ws[j].number)
  }

  lemma OneMoreIsDeserved(init: seq<string>, last: string, ws: seq<Warning>, more: seq<Warning>)
    requires AllDeserved(init, ws) && |more| <= 1
    requires forall w :: w in more ==> w.number == |init| + 1 && Deserved(init + [last], w)
    ensures AllDeserved(init + [last], ws + more)
  {
    forall i | 0 <= i < |ws|
      ensures Deserved(init + [last], ws[i]) && ws[i].number <= |init|
    {
      DeservedStill(init, last, ws[i]);
    }
  }

  /** Every warning names a line that deserves it, in the order of the file, one for a line at most. */
  lemma {:induction false} WarningsAreDeserved(lines: seq<string>)
    ensures AllDeserved(lines, ReadLines(lines).warnings)
  {
    if lines != [] {
      var init, last := lines[..|lines| - 1], lines[|lines| - 1];
      WarningsAreDeserved(init);
      var list := ReadLines(init);
      NamesAreGiven(init);
      NewWarningIsDeserved(init, last, list);
      OneMoreIsDeserved(init, last, list.warnings, WarningFor(list, |init| + 1, last));
      assert lines == init + [last];
      assert ReadLines(lines).warnings == list.warnings + WarningFor(list, |init| + 1, last);
    }
  }
}
