/** Experiment targets: their names, their profiles, and the text form `name[:profile[,profile...]]`. */
module Targets {
  import opened Wrappers
  import opened Text
  import opened Sequences

  predicate NameChar(c: char) {
    IsAlphanumeric(c) || c == '.' || c == '_' || c == '-'
  }

  lemma NameCharsExactly(c: char)
    ensures NameChar(c) <==> c in "ABCDEFGHIJKLMNOPQRSTUVWXYZ" || c in "abcdefghijklmnopqrstuvwxyz"
                             || c in "0123456789" || c in "._-"
  {
    LettersExactly(c);
  }

  predicate IsExperimentName(name: string) {
    name != "" && name[0] != '.' && forall i :: 0 <= i < |name| ==> NameChar(name[i])
  }

  type ExperimentName = name: string | IsExperimentName(name) witness "a"

  predicate IsProfileName(name: string) {
    name != "" && IsAlphanumeric(name[0]) && forall i :: 0 <= i < |name| ==> NameChar(name[i])
  }

  type ProfileName = name: string | IsProfileName(name) witness "a"

  datatype NameError =
    | Empty
    | PathSeparator
    | RelativeComponent
    | HiddenName
    | InvalidStart(found: char)
    | InvalidCharacter(found: char)

  /** Where the first character is, from `pos` on, that no name may contain; or the length. */
  function FirstInvalid(name: string, pos: nat): (i: nat)
    requires pos <= |name|
    ensures pos <= i <= |name|
    ensures i < |name| ==> !NameChar(name[i])
    ensures forall j :: pos <= j < i ==> NameChar(name[j])
    decreases |name| - pos
  {
    if pos < |name| && NameChar(name[pos]) then FirstInvalid(name, pos + 1) else pos
  }

  /** A name is one path component: no separator in it, and neither hidden nor relative. */
  function NewExperimentName(name: string): (r: Result<ExperimentName, NameError>)
    ensures r.Ok? <==> IsExperimentName(name)
    ensures r.Ok? ==> r.value == name && '/' !in name && '\\' !in name && name != "." && name != ".."
    ensures '/' in name || '\\' in name ==> r == Err(PathSeparator)
    ensures r.Err? ==>
              match r.error
              case Empty => name == ""
              case PathSeparator => '/' in name || '\\' in name
              case RelativeComponent => name == "." || name == ".."
              case HiddenName => |name| > 1 && name[0] == '.'
              case InvalidCharacter(found) =>
                var i := FirstInvalid(name, 0); i < |name| && name[i] == found && !NameChar(found)
              case InvalidStart(_) => false
  {
    if name == "" then Err(Empty)
    else if '/' in name || '\\' in name then Err(PathSeparator)
    else if name == "." || name == ".." then Err(RelativeComponent)
    else if name[0] == '.' then Err(HiddenName)
    else
      var i := FirstInvalid(name, 0);
      if i < |name| then Err(InvalidCharacter(name[i])) else Ok(name)
  }

  function NewProfileName(name: string): (r: Result<ProfileName, NameError>)
    ensures r.Ok? <==> IsProfileName(name)
    ensures r.Ok? ==> r.value == name
    ensures r.Err? ==>
              match r.error
              case Empty => name == ""
              case InvalidStart(found) => name != "" && name[0] == found && !IsAlphanumeric(found)
              case InvalidCharacter(found) =>
                name != "" && var i := FirstInvalid(name, 1); i < |name| && name[i] == found && !NameChar(found)
              case _ => false
  {
    if name == "" then Err(Empty)
    else if !IsAlphanumeric(name[0]) then Err(InvalidStart(name[0]))
    else
      var i := FirstInvalid(name, 1);
      if i < |name| then Err(InvalidCharacter(name[i])) else Ok(name)
  }

  datatype Profiles = NoProfiles | AllProfiles | Named(names: seq<ProfileName>)

  datatype Target = Target(name: ExperimentName, profiles: Profiles)

  datatype TargetError =
    | BadName(name: string, error: NameError)
    | BadProfile(profile: string, error: NameError)
    | WildcardWithOthers

  const ALL_PROFILES := "*"

  /** The profile sets that parsing can yield: a list is never empty and never repeats itself. */
  predicate Canonical(p: Profiles) {
    p.Named? ==> p.names != [] && Distinct(p.names)
  }

  function Join(names: seq<ProfileName>): string {
    if names == [] then ""
    else if |names| == 1 then names[0]
    else names[0] + ", " + Join(names[1..])
  }

  /** How a profile set is displayed. */
  function Show(p: Profiles): string {
    match p
    case NoProfiles => ""
    case AllProfiles => ALL_PROFILES
    case Named(names) => Join(names)
  }

  function ParseProfiles(entries: seq<string>, names: seq<ProfileName>): Result<seq<ProfileName>, TargetError> {
    if entries == [] then Ok(names)
    else
      var entry := Trim(entries[0]);
      if entry == ALL_PROFILES then Err(WildcardWithOthers)
      else
        match NewProfileName(entry)
        case Err(e) => Err(BadProfile(entry, e))
        case Ok(profile) => ParseProfiles(entries[1..], AddNew(names, profile))
  }

  function ParseSuffix(suffix: Option<string>): Result<Profiles, TargetError> {
    if suffix == None || suffix == Some("") then Ok(NoProfiles)
    else if suffix == Some(ALL_PROFILES) then Ok(AllProfiles)
    else
      match ParseProfiles(Split(suffix.value, ','), [])
      case Err(e) => Err(e)
      case Ok(names) => Ok(Named(names))
  }

  function SplitOnce(spec: string): (string, Option<string>) {
    var colon := IndexOf(spec, ':');
    if colon < |spec| then (Trim(spec[..colon]), Some(Trim(spec[colon + 1..]))) else (spec, None)
  }

  function ParsedTarget(spec: string): Result<Target, TargetError> {
    var (name, suffix) := SplitOnce(Trim(spec));
    match NewExperimentName(name)
    case Err(e) => Err(BadName(name, e))
    case Ok(experiment) =>
      match ParseSuffix(suffix)
      case Err(e) => Err(e)
      case Ok(profiles) => Ok(Target(experiment, profiles))
  }

  /** Parses one `name[:profile[,profile...]]`. */
  method ParseTarget(spec: string) returns (r: Result<Target, TargetError>)
    ensures r == ParsedTarget(spec)
  {
    var (given, suffix) := SplitOnce(Trim(spec));
    var name := NewExperimentName(given);
    if name.Err? {
      return Err(BadName(given, name.error));
    }
    if suffix == None || suffix == Some("") {
      return Ok(Target(name.value, NoProfiles));
    }
    if suffix == Some(ALL_PROFILES) {
      return Ok(Target(name.value, AllProfiles));
    }

    var entries := Split(suffix.value, ',');
    var names: seq<ProfileName> := [];
    var i := 0;
    while i < |entries|
      invariant 0 <= i <= |entries|
      invariant ParseProfiles(entries, []) == ParseProfiles(entries[i..], names)
    {
      var entry := Trim(entries[i]);
      assert entries[i..][1..] == entries[i + 1..];
      if entry == ALL_PROFILES {
        return Err(WildcardWithOthers);
      }
      var profile := NewProfileName(entry);
      if profile.Err? {
        return Err(BadProfile(entry, profile.error));
      }
      if profile.value !in names {
        names := names + [profile.value];
      }
      i := i + 1;
    }
    return Ok(Target(name.value, Named(names)));
  }

  // Parse undoes print.

  /** The parts of a displayed list: a blank before each but the first. */
  ghost function Parts(blank: string, names: seq<ProfileName>): seq<string>
    requires names != []
    decreases |names|
  {
    [blank + names[0]] + if |names| == 1 then [] else Parts(" ", names[1..])
  }

  lemma {:induction false} SplitOfJoin(blank: string, names: seq<ProfileName>)
    requires names != [] && ',' !in blank
    ensures Split(blank + Join(names), ',') == Parts(blank, names)
    decreases |names|
  {
    var text := blank + Join(names);
    var head := blank + names[0];
    assert ',' !in names[0];
    if |names| == 1 {
      IndexOfIs(text, ',', |text|);
    } else {
      assert text == head + "," + (" " + Join(names[1..]));
      IndexOfIs(text, ',', |head|);
      assert text[..|head|] == head;
      assert text[|head| + 1..] == " " + Join(names[1..]);
      SplitOfJoin(" ", names[1..]);
    }
  }

  lemma TrimOfPart(name: ProfileName)
    ensures Trim(name) == name && Trim(" " + name) == name
  {
    TrimOfTrimmed(name);
    assert (" " + name)[1..] == name;
  }

  lemma NextIsNew(before: seq<ProfileName>, names: seq<ProfileName>)
    requires names != [] && Distinct(before + names)
    ensures names[0] !in before
  {
    assert (before + names)[|before|] == names[0];
    assert forall i :: 0 <= i < |before| ==> before[i] == (before + names)[i];
  }

  lemma {:induction false} ParseOfParts(blank: string, names: seq<ProfileName>, before: seq<ProfileName>)
    requires names != [] && (blank == "" || blank == " ")
    requires Distinct(before + names)
    ensures ParseProfiles(Parts(blank, names), before) == Ok(before + names)
    decreases |names|
  {
    var parts := Parts(blank, names);
    TrimOfPart(names[0]);
    assert blank == "" ==> blank + names[0] == names[0];
    NextIsNew(before, names);
    assert before + [names[0]] + names[1..] == before + names;
    if |names| == 1 {
      assert parts[1..] == [];
      assert before + names == before + [names[0]];
    } else {
      assert parts[1..] == Parts(" ", names[1..]);
      ParseOfParts(" ", names[1..], before + [names[0]]);
    }
  }

  lemma {:induction false} JoinIsVisible(names: seq<ProfileName>)
    requires names != []
    ensures Join(names) != "" && IsAlphanumeric(Join(names)[0])
    ensures NameChar(Join(names)[|Join(names)| - 1])
    decreases |names|
  {
    if |names| > 1 {
      JoinIsVisible(names[1..]);
    }
  }

  lemma ShowIsTrimmed(p: Profiles)
    requires Canonical(p)
    ensures Trimmed(Show(p))
    ensures p.Named? ==> Show(p) != "" && Show(p) != ALL_PROFILES
  {
    if p.Named? {
      JoinIsVisible(p.names);
    }
  }

  lemma SuffixOfJoin(names: seq<ProfileName>)
    requires names != [] && Distinct(names)
    ensures ParseProfiles(Split(Join(names), ','), []) == Ok(names)
  {
    assert "" + Join(names) == Join(names);
    assert [] + names == names;
    SplitOfJoin("", names);
    ParseOfParts("", names, []);
  }

  lemma SuffixOfShow(p: Profiles)
    requires Canonical(p)
    ensures ParseSuffix(Some(Show(p))) == Ok(p)
  {
    if p.Named? {
      ShowIsTrimmed(p);
      SuffixOfJoin(p.names);
    }
  }

  lemma SplitAtColon(name: ExperimentName, shown: string)
    requires Trimmed(shown)
    ensures SplitOnce(Trim(name + ":" + shown)) == (name, Some(shown))
  {
    var spec := name + ":" + shown;
    assert spec[0] == name[0] && spec[|spec| - 1] == if shown == "" then ':' else shown[|shown| - 1];
    TrimOfTrimmed(spec);
    assert ':' !in name;
    IndexOfIs(spec, ':', |name|);
    assert spec[..|name|] == name && spec[|name| + 1..] == shown;
    TrimOfTrimmed(name);
    TrimOfTrimmed(shown);
  }

  /** Parsing what is displayed gives the target back, for every valid name and every profile set
      that parsing can yield. */
  lemma ParseUndoesShow(t: Target)
    requires Canonical(t.profiles)
    ensures ParsedTarget(t.name + ":" + Show(t.profiles)) == Ok(t)
  {
    ShowIsTrimmed(t.profiles);
    SplitAtColon(t.name, Show(t.profiles));
    SuffixOfShow(t.profiles);
  }

  lemma {:induction false} ParsedProfilesAreDistinct(entries: seq<string>, names: seq<ProfileName>)
    requires Distinct(names) && ParseProfiles(entries, names).Ok?
    ensures var parsed := ParseProfiles(entries, names).value;
            Distinct(parsed) && names <= parsed && (entries != [] ==> parsed != [])
    decreases |entries|
  {
    if entries != [] {
      var profile := NewProfileName(Trim(entries[0])).value;
      ParsedProfilesAreDistinct(entries[1..], AddNew(names, profile));
    }
  }

  /** Whatever parses is canonical, so displaying it and parsing again gives the same target. */
  lemma ParsedIsCanonical(spec: string)
    requires ParsedTarget(spec).Ok?
    ensures var t := ParsedTarget(spec).value;
            Canonical(t.profiles) && ParsedTarget(t.name + ":" + Show(t.profiles)) == Ok(t)
  {
    var t := ParsedTarget(spec).value;
    if t.profiles.Named? {
      var suffix := SplitOnce(Trim(spec)).1.value;
      ParsedProfilesAreDistinct(Split(suffix, ','), []);
    }
    ParseUndoesShow(t);
  }
  // What a target means, without saying how it is parsed.

  function TrimAll(entries: seq<string>): seq<string> {
    seq(|entries|, i requires 0 <= i < |entries| => Trim(entries[i]))
  }

  predicate AllProfileNames(names: seq<string>) {
    forall i :: 0 <= i < |names| ==> IsProfileName(names[i])
  }

  lemma AllAreTheFirstAndTheRest(first: string, rest: seq<string>)
    ensures AllProfileNames([first] + rest) <==> IsProfileName(first) && AllProfileNames(rest)
  {
    var all := [first] + rest;
    assert all[0] == first && forall i :: 0 <= i < |rest| ==> all[i + 1] == rest[i];
  }

  /** Nothing means no profiles and the wildcard alone means all; anything else is a list of valid names
      between commas, whatever whitespace is around them, and repeated ones count once. */
  predicate MeansProfiles(list: string, p: Profiles) {
    if list == "" then p == NoProfiles
    else if list == "*" then p == AllProfiles
    else
      var names := TrimAll(Split(list, ','));
      && p.Named?
      && AllProfileNames(names)
      && p.names == Union([], names)
  }

  /** Everything up to the first colon is the name; without a colon there is nothing but the name. */
  ghost predicate Means(spec: string, t: Target) {
    var s := Trim(spec);
    if ':' !in s then s == t.name && t.profiles == NoProfiles
    else
      exists name, list ::
        && s == name + ":" + list && ':' !in name
        && Trim(name) == t.name && MeansProfiles(Trim(list), t.profiles)
  }

  lemma {:induction false} ProfilesExactly(entries: seq<string>, names: seq<ProfileName>)
    ensures var given, r := TrimAll(entries), ParseProfiles(entries, names);
            && (r.Ok? <==> AllProfileNames(given))
            && (r.Ok? ==> r.value == Union(names, given))
    decreases |entries|
  {
    if entries == [] {
      assert TrimAll(entries) == [];
    } else {
      var first, rest := Trim(entries[0]), TrimAll(entries[1..]);
      assert TrimAll(entries) == [first] + rest;
      AllAreTheFirstAndTheRest(first, rest);
      assert !IsProfileName(ALL_PROFILES);
      if IsProfileName(first) {
        ProfilesExactly(entries[1..], AddNew(names, first));
        UnionFirst<string>(names, first, rest);
      }
    }
  }

  lemma SuffixExactly(suffix: string, p: Profiles)
    ensures ParseSuffix(Some(suffix)) == Ok(p) <==> MeansProfiles(suffix, p)
  {
    ProfilesExactly(Split(suffix, ','), []);
  }

  /** Where the first colon is decides what is the name. */
  lemma ColonSplits(s: string, name: string, list: string)
    requires s == name + ":" + list && ':' !in name
    ensures SplitOnce(s) == (Trim(name), Some(Trim(list)))
  {
    IndexOfIs(s, ':', |name|);
    assert s[..|name|] == name && s[|name| + 1..] == list;
  }

  lemma NoColonIsAllName(s: string)
    requires ':' !in s
    ensures SplitOnce(s) == (s, None)
  {
    IndexOfIs(s, ':', |s|);
  }

  /** A spec parses as a target exactly when that is what it means. */
  lemma ParsesWhatIsMeant(spec: string, t: Target)
    ensures ParsedTarget(spec) == Ok(t) <==> Means(spec, t)
  {
    var s := Trim(spec);
    if ':' !in s {
      NoColonIsAllName(s);
    } else {
      var at := IndexOf(s, ':');
      var first, rest := s[..at], s[at + 1..];
      assert s == first + ":" + rest && ':' !in first;
      ColonSplits(s, first, rest);
      SuffixExactly(Trim(rest), t.profiles);
      if Means(spec, t) {
        var name, list :| s == name + ":" + list && ':' !in name
                          && Trim(name) == t.name && MeansProfiles(Trim(list), t.profiles);
        ColonSplits(s, name, list);
      }
    }
  }

  /** So a name on its own, and a name with nothing after its colon, mean no profiles. */
  lemma BareNameParses(name: ExperimentName)
    ensures ParsedTarget(name) == Ok(Target(name, NoProfiles)) == ParsedTarget(name + ":")
  {
    TrimOfTrimmed(name);
    NoColonIsAllName(name);
    ParseUndoesShow(Target(name, NoProfiles));
    assert name + ":" + "" == name + ":";
  }

  /** What a list fails with, if this is its first entry that is not a valid name. */
  predicate FailsAt(entries: seq<string>, i: nat, e: TargetError) {
    && i < |entries| && !IsProfileName(Trim(entries[i]))
    && (forall j :: 0 <= j < i ==> IsProfileName(Trim(entries[j])))
    && e == (if Trim(entries[i]) == "*" then WildcardWithOthers
             else BadProfile(Trim(entries[i]), NewProfileName(Trim(entries[i])).error))
  }

  lemma {:induction false} FirstBadEntry(entries: seq<string>, names: seq<ProfileName>) returns (i: nat)
    requires ParseProfiles(entries, names).Err?
    ensures FailsAt(entries, i, ParseProfiles(entries, names).error)
    decreases |entries|
  {
    var first := Trim(entries[0]);
    assert !IsProfileName(ALL_PROFILES);
    if IsProfileName(first) {
      i := FirstBadEntry(entries[1..], AddNew(names, first));
      i := i + 1;
      assert forall j :: 0 < j < i ==> entries[1..][j - 1] == entries[j];
    } else {
      i := 0;
    }
  }

  /** A spec that does not parse is reported by its first fault: its name, or else the first bad entry of
      its list. */
  lemma FailsAtTheFirstFault(spec: string)
    requires ParsedTarget(spec).Err?
    ensures var (name, list) := SplitOnce(Trim(spec));
            match ParsedTarget(spec).error
            case BadName(given, e) => given == name && NewExperimentName(name) == Err(e)
            case e => IsExperimentName(name) && list.Some? && exists i :: FailsAt(Split(list.value, ','), i, e)
  {
    var (name, list) := SplitOnce(Trim(spec));
    if IsExperimentName(name) {
      var i := FirstBadEntry(Split(list.value, ','), []);
    }
  }
}
