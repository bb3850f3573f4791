/** The build-time reader of hardware profiles, and its agreement with the run-time reader. */
module Profile {
  import opened Wrappers
  import opened Text
  import opened Numerals
  import opened Conf
  import opened RobotIdentity

  /** The shape of every key a profile may set: capitals and underscores. */
  predicate VariableName(key: string) {
    key != "" && forall i :: 0 <= i < |key| ==> IsUpper(key[i]) || key[i] == '_'
  }

  datatype Assignment = Assignment(key: string, value: string)

  /** A line with nothing to read in it. */
  predicate Skipped(line: string) {
    Trim(line) == "" || Trim(line)[0] == '#'
  }

  lemma SkippedExactly(line: string)
    ensures Skipped(line) <==> BlankOrComment(line)
  {
    BlankOrCommentExactly(line);
  }

  /** What a line assigns: everything before its first `=`, trimmed, is the key. */
  function Assigned(line: string): Option<Assignment> {
    var trimmed := Trim(line);
    var eq := IndexOf(trimmed, '=');
    if Skipped(line) || eq == |trimmed| then None
    else Some(Assignment(Trim(trimmed[..eq]), StripQuotes(Trim(trimmed[eq + 1..]))))
  }

  predicate Accepted(line: string, known: set<string>) {
    Skipped(line) || (Assigned(line).Some? && Assigned(line).value.key in known)
  }

  /** A line that is neither blank nor a comment assigns the text after its first `=`, without whitespace
      and one pair of quotes around it, to the text before, without whitespace around it. */
  lemma AssignsAroundFirstEquals(before: string, after: string)
    requires '=' !in before && !BlankOrComment(before + "=" + after)
    ensures Assigned(before + "=" + after) == Some(Assignment(Trim(before), StripQuotes(Trim(after))))
  {
    TrimAssignment(before, after);
    TrimTwice(before, after);
    FirstEquals(TrimStart(before), TrimEnd(after));
    SkippedExactly(before + "=" + after);
  }

  /** None when the build is failed by a line that is no assignment or assigns an unknown key. */
  function ReadProfile(lines: seq<string>, known: set<string>): Option<map<string, string>> {
    if lines == [] then Some(map[])
    else
      var last := lines[|lines| - 1];
      match ReadProfile(lines[..|lines| - 1], known)
      case None => None
      case Some(values) =>
        if !Accepted(last, known) then None
        else if Skipped(last) then Some(values)
        else Some(values[Assigned(last).value.key := Assigned(last).value.value])
  }

  lemma {:induction false} ReadFails(lines: seq<string>, known: set<string>, n: nat)
    requires n <= |lines| && ReadProfile(lines[..n], known) == None
    ensures ReadProfile(lines, known) == None
    decreases |lines| - n
  {
    if n == |lines| {
      assert lines[..n] == lines;
    } else {
      assert lines[..n + 1][..n] == lines[..n];
      ReadFails(lines, known, n + 1);
    }
  }

  lemma ReadOneMore(lines: seq<string>, i: nat, known: set<string>, values: map<string, string>)
    requires i < |lines| && ReadProfile(lines[..i], known) == Some(values)
    ensures ReadProfile(lines[..i + 1], known) ==
            if !Accepted(lines[i], known) then None
            else if Skipped(lines[i]) then Some(values)
            else Some(values[Assigned(lines[i]).value.key := Assigned(lines[i]).value.value])
    ensures !Accepted(lines[i], known) ==> ReadProfile(lines, known) == None
  {
    assert lines[..i + 1][..i] == lines[..i];
    if !Accepted(lines[i], known) {
      ReadFails(lines, known, i + 1);
    }
  }

  method ReadProfileText(text: string, known: set<string>) returns (r: Option<map<string, string>>)
    ensures r == ReadProfile(Lines(text), known)
  {
    var lines := Lines(text);
    var values := map[];
    for i := 0 to |lines|
      invariant ReadProfile(lines[..i], known) == Some(values)
    {
      ReadOneMore(lines, i, known, values);
      var line := Trim(lines[i]);
      if line == "" || line[0] == '#' {
        continue;
      }
      var eq := IndexOf(line, '=');
      if eq == |line| {
        return None;
      }
      var key := Trim(line[..eq]);
      if key !in known {
        return None;
      }
      values := values[key := StripQuotes(Trim(line[eq + 1..]))];
    }
    assert lines[..|lines|] == lines;
    return Some(values);
  }

  /** No whitespace stands between the key and its `=`. */
  predicate Tight(line: string) {
    var trimmed := Trim(line);
    var eq := IndexOf(trimmed, '=');
    Trim(trimmed[..eq]) == trimmed[..eq]
  }

  /** A text that begins with a key and `=` has nothing but the key before its first `=`. */
  lemma PrefixThenEquals(text: string, key: string)
    requires '=' !in key && StartsWith(text, key + "=")
    ensures IndexOf(text, '=') == |key| < |text| && text[..|key|] == key
  {
    var prefix := key + "=";
    assert text[..|prefix|] == prefix;
    assert text[|key|] == prefix[|key|] == '=';
    forall j | 0 <= j < |key|
      ensures text[j] == key[j] != '='
    {
      assert text[j] == prefix[j];
    }
    IndexOfIs(text, '=', |key|);
  }

  lemma EqualsThenPrefix(text: string, i: nat)
    requires i < |text| && text[i] == '='
    ensures StartsWith(text, text[..i] + "=")
  {
    assert text[..i + 1] == text[..i] + "=";
  }

  /** The run-time reader sees exactly the tight assignments. */
  lemma RuntimeSeesTight(line: string, known: set<string>, key: string)
    requires VariableName(key) && Accepted(line, known)
    ensures LineValue(line, key + "=") ==
            if Assigned(line).Some? && Assigned(line).value.key == key && Tight(line)
            then Some(Assigned(line).value.value) else None
  {
    var trimmed := Trim(line);
    if IndexOf(trimmed, '=') < |trimmed| {
      EqualsThenPrefix(trimmed, IndexOf(trimmed, '='));
    }
    if StartsWith(trimmed, key + "=") {
      PrefixThenEquals(trimmed, key);
      TrimOfTrimmed(key);
      assert trimmed[0] == (key + "=")[0] == key[0];
    }
  }

  /** The value of the last assignment of a key, as the build reads it. */
  function LastAssigned(lines: seq<string>, key: string): Option<string> {
    if lines == [] then None
    else
      var a := Assigned(lines[|lines| - 1]);
      if a.Some? && a.value.key == key then Some(a.value.value) else LastAssigned(lines[..|lines| - 1], key)
  }

  predicate LastIsTight(lines: seq<string>, key: string) {
    lines != [] ==>
      var last := lines[|lines| - 1];
      if Assigned(last).Some? && Assigned(last).value.key == key then Tight(last)
      else LastIsTight(lines[..|lines| - 1], key)
  }

  function Get(values: map<string, string>, key: string): Option<string> {
    if key in values then Some(values[key]) else None
  }

  lemma {:induction false} ProfileIsLastAssigned(lines: seq<string>, known: set<string>, key: string)
    requires ReadProfile(lines, known).Some?
    ensures Get(ReadProfile(lines, known).value, key) == LastAssigned(lines, key)
    ensures forall i :: 0 <= i < |lines| ==> Accepted(lines[i], known)
  {
    if lines != [] {
      ProfileIsLastAssigned(lines[..|lines| - 1], known, key);
      assert forall i :: 0 <= i < |lines| - 1 ==> lines[..|lines| - 1][i] == lines[i];
    }
  }

  /** Where the last assignment of a key is loose, the build takes it and the run time reads on
      before it. */
  ghost predicate LooseAt(lines: seq<string>, key: string, at: nat) {
    && at < |lines|
    && Assigned(lines[at]).Some? && Assigned(lines[at]).value.key == key && !Tight(lines[at])
    && LastAssigned(lines, key) == Some(Assigned(lines[at]).value.value)
    && LastValue(lines, key + "=") == LastValue(lines[..at], key + "=")
  }

  lemma {:induction false} ReadersCompared(lines: seq<string>, known: set<string>, key: string) returns (at: nat)
    requires VariableName(key)
    requires forall i :: 0 <= i < |lines| ==> Accepted(lines[i], known)
    ensures LastIsTight(lines, key) ==> LastAssigned(lines, key) == LastValue(lines, key + "=")
    ensures !LastIsTight(lines, key) ==> LooseAt(lines, key, at)
  {
    at := 0;
    if lines != [] {
      var n := |lines| - 1;
      RuntimeSeesTight(lines[n], known, key);
      var a := Assigned(lines[n]);
      if a.Some? && a.value.key == key {
        at := n;
      } else {
        at := ReadersCompared(lines[..n], known, key);
        if !LastIsTight(lines, key) {
          assert lines[..n][..at] == lines[..at];
        }
      }
    }
  }

  /** For every profile the build accepts, the two readers agree on each key whose last assignment
      has no whitespace before its `=`, set or not. On any other key the run-time reader does not see
      that assignment at all and reads the text before it. */
  lemma ReadersAgree(text: string, known: set<string>, key: string)
    requires VariableName(key) && ReadProfile(Lines(text), known).Some?
    ensures var lines, built := Lines(text), Get(ReadProfile(Lines(text), known).value, key);
            && (LastIsTight(lines, key) ==> built == ParseValue(text, key))
            && (!LastIsTight(lines, key) ==>
                  exists at: nat ::
                    LooseAt(lines, key, at)
                    && built == Some(Assigned(lines[at]).value.value)
                    && ParseValue(text, key) == LastValue(lines[..at], key + "="))
  {
    ProfileIsLastAssigned(Lines(text), known, key);
    var at := ReadersCompared(Lines(text), known, key);
  }

  /** For instance, a key assigned once with a blank before `=`: the build reads the value, the run
      time reads none. */
  lemma LooseAssignmentIsLost(key: string)
    requires VariableName(key)
    ensures var lines := [key + " =1"];
            ReadProfile(lines, {key}) == Some(map[key := "1"]) && LastValue(lines, key + "=") == None
  {
    var line := key + " =1";
    var lines := [line];
    assert line[0] == key[0];
    TrimOfTrimmed(line);
    assert line[|key| + 1] == '=';
    forall j | 0 <= j < |key| + 1
      ensures line[j] != '='
    {
      assert j < |key| ==> line[j] == key[j];
    }
    IndexOfIs(line, '=', |key| + 1);
    assert line[..|key| + 1] == key + " " && line[|key| + 2..] == "1";
    TrimIgnoresTrailing(key, ' ');
    TrimOfTrimmed(key);
    TrimOfTrimmed("1");
    assert Assigned(line) == Some(Assignment(key, "1"));
    assert ReadProfile(lines[..0], {key}) == Some(map[]);
    RuntimeSeesTight(line, {key}, key);
    assert LastValue(lines[..0], key + "=") == None;
  }

  // The identity rules, restated by the build.

  predicate BuildAcceptsChars(raw: string) {
    raw == "" ||
    (!IsUpper(raw[0]) && (IsLower(raw[0]) || IsDigit(raw[0]) || raw[0] == '-') && BuildAcceptsChars(raw[1..]))
  }

  predicate BuildAcceptsRobotId(raw: string) {
    && BuildAcceptsChars(raw)
    && raw != "" && ByteLength(raw) <= 63
    && raw[0] != '-' && raw[|raw| - 1] != '-'
  }

  lemma {:induction false} BuildChars(raw: string)
    ensures BuildAcceptsChars(raw) <==> forall i :: 0 <= i < |raw| ==> LabelChar(raw[i])
  {
    if raw != "" {
      BuildChars(raw[1..]);
      assert forall i :: 0 < i < |raw| ==> raw[i] == raw[1..][i - 1];
      assert forall i :: 0 <= i < |raw| - 1 ==> raw[1..][i] == raw[i + 1];
    }
  }

  /** The build accepts exactly the names the program accepts. */
  lemma BuildAgreesOnRobotIds(raw: string)
    ensures BuildAcceptsRobotId(raw) <==> NewRobotId(raw).Ok?
  {
    BuildChars(raw);
  }

  /** Parsed as a 16-bit number, untrimmed, and then checked against the range. */
  function BuildDomainId(raw: string): Option<nat> {
    var value := ParseUnsigned(raw, 65535);
    if value.Some? && value.value <= ROS_DOMAIN_ID_MAX then value else None
  }

  /** The program reads every number the build accepts as that number, and reads more only where
      there is whitespace around it. */
  lemma BuildAgreesOnDomainIds(raw: string, n: nat)
    ensures BuildDomainId(raw) == Some(n) <==> ParseDomainId(raw) == Ok(n) && Trim(raw) == raw
  {
    if BuildDomainId(raw) == Some(n) {
      var digits := if raw[0] == '+' then raw[1..] else raw;
      assert digits[|digits| - 1] == raw[|raw| - 1];
      assert IsDigit(digits[0]) && IsDigit(digits[|digits| - 1]);
      TrimOfTrimmed(raw);
    }
  }
}
