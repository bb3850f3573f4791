/** Selecting experiment stacks, starting them, and the `docker compose` words that do it. */
module Experiments {
  import opened Wrappers
  import opened Text
  import opened Sequences
  import opened Targets
  import opened Merging
  import opened Enabled

  // The argument list.

  const PROFILE_FLAG := "--profile"

  function ProfileWords(p: Profiles): seq<string> {
    match p
    case NoProfiles => []
    case AllProfiles => [ALL_PROFILES]
    case Named(names) => names
  }

  function Flags(words: seq<string>): seq<string> {
    if words == [] then [] else [PROFILE_FLAG, words[0]] + Flags(words[1..])
  }

  /** The `--profile` flags, which must come before the verb. */
  function ProfileArgs(p: Profiles): seq<string> {
    Flags(ProfileWords(p))
  }

  function ComposeFile(dir: string, name: ExperimentName): string {
    dir + "/" + name + "/docker-compose.yml"
  }

  function ComposeArgs(dir: string, name: ExperimentName, p: Profiles, verb: seq<string>): seq<string> {
    ["compose", "-f", ComposeFile(dir, name), "--project-directory", dir + "/" + name] + ProfileArgs(p) + verb
  }

  /** Reads leading flag and word pairs, up to the first other word. */
  function ReadFlags(args: seq<string>): (seq<string>, seq<string>) {
    if |args| >= 2 && args[0] == "--profile" then
      var (words, rest) := ReadFlags(args[2..]);
      ([args[1]] + words, rest)
    else ([], args)
  }

  lemma {:induction false} FlagsReadBack(words: seq<string>, verb: seq<string>)
    requires verb != [] && verb[0] != PROFILE_FLAG
    ensures ReadFlags(Flags(words) + verb) == (words, verb)
  {
    var args := Flags(words) + verb;
    if words == [] {
      assert args == verb;
    } else {
      assert args == [PROFILE_FLAG, words[0]] + (Flags(words[1..]) + verb);
      assert args[2..] == Flags(words[1..]) + verb;
      FlagsReadBack(words[1..], verb);
      assert [words[0]] + words[1..] == words;
    }
  }

  /** Different profile sets that parsing can yield have different words, and no word of one could
      be taken for an option. */
  lemma WordsTellProfilesApart(p: Profiles, q: Profiles)
    requires Canonical(p) && Canonical(q)
    ensures ProfileWords(p) == ProfileWords(q) <==> p == q
    ensures forall w :: w in ProfileWords(p) ==> w != "" && w[0] != '-'
  {
    assert !IsProfileName(ALL_PROFILES) && ALL_PROFILES[0] != '-';
    assert p.Named? ==> IsProfileName(ProfileWords(p)[0]);
    assert q.Named? ==> IsProfileName(ProfileWords(q)[0]);
    if p.Named? {
      forall w | w in ProfileWords(p)
        ensures w != "" && w[0] != '-'
      {
        var i :| 0 <= i < |p.names| && p.names[i] == w;
        assert IsProfileName(p.names[i]);
      }
    }
  }

  lemma TrimAllFirst(first: string, rest: seq<string>)
    ensures TrimAll([first] + rest) == [Trim(first)] + TrimAll(rest)
  {
  }

  lemma {:induction false} PartsTrimmed(blank: string, names: seq<ProfileName>)
    requires names != [] && (blank == "" || blank == " ")
    ensures TrimAll(Parts(blank, names)) == names
    decreases |names|
  {
    TrimOfPart(names[0]);
    assert blank == "" ==> blank + names[0] == names[0];
    if |names| > 1 {
      PartsTrimmed(" ", names[1..]);
      TrimAllFirst(blank + names[0], Parts(" ", names[1..]));
    }
  }

  /** The words are what the profile set is displayed as, entry by entry. */
  lemma WordsAreWhatIsShown(p: Profiles)
    requires Canonical(p)
    ensures ProfileWords(p) == if Show(p) == "" then [] else TrimAll(Split(Show(p), ','))
  {
    match p {
      case NoProfiles =>
      case AllProfiles =>
        SplitOfPlain("*", ',');
        TrimOfTrimmed("*");
        assert TrimAll(["*"]) == ["*"];
      case Named(names) =>
        ShowIsTrimmed(p);
        assert "" + Join(names) == Join(names);
        SplitOfJoin("", names);
        PartsTrimmed("", names);
    }
  }

  /** The list begins with the compose file, which lies in the experiment's own directory, and that
      directory. */
  predicate NamesStack(args: seq<string>, dir: string, name: ExperimentName) {
    && |args| >= 5 && args[0] == "compose" && args[1] == "-f" && args[3] == "--project-directory"
    && args[4] == dir + "/" + name && args[2] == args[4] + "/docker-compose.yml"
  }

  lemma FixedWords(dir: string, name: ExperimentName, p: Profiles, verb: seq<string>)
    ensures var args := ComposeArgs(dir, name, p, verb);
            NamesStack(args, dir, name) && args[5..] == ProfileArgs(p) + verb
  {
    var stack := dir + "/" + name;
    FiveAndTheRest(["compose", "-f", ComposeFile(dir, name), "--project-directory", stack], ProfileArgs(p), verb);
  }

  lemma FiveAndTheRest(five: seq<string>, flags: seq<string>, verb: seq<string>)
    requires |five| == 5
    ensures (five + flags + verb)[5..] == flags + verb && (five + flags + verb)[..5] == five
    ensures forall i :: 0 <= i < 5 ==> (five + flags + verb)[i] == five[i]
  {
  }

  /** After these five words the flags read back as exactly the profile set and then the verb: two
      argument lists with equal tails come from equal profiles and equal verbs. */
  lemma ComposeArgsReadBack(dir: string, name: ExperimentName, p: Profiles, verb: seq<string>)
    requires verb != [] && verb[0] != PROFILE_FLAG
    ensures var args := ComposeArgs(dir, name, p, verb);
            NamesStack(args, dir, name) && ReadFlags(args[5..]) == (ProfileWords(p), verb)
    ensures Canonical(p) ==> Distinct(ProfileWords(p))
  {
    FixedWords(dir, name, p, verb);
    FlagsReadBack(ProfileWords(p), verb);
  }

  // Selecting.

  datatype Fallback = EnabledOnly | EverythingOnDisk

  predicate Before(a: string, b: string) {
    if a == "" then b != ""
    else b != "" && (a[0] < b[0] || (a[0] == b[0] && Before(a[1..], b[1..])))
  }

  function Insert(sorted: seq<ExperimentName>, name: ExperimentName): seq<ExperimentName> {
    if sorted == [] || Before(name, sorted[0]) then [name] + sorted else [sorted[0]] + Insert(sorted[1..], name)
  }

  /** The sweep: entries whose names are valid and that have a compose file, sorted. */
  function OnDisk(entries: seq<string>, present: string -> bool): seq<ExperimentName> {
    if entries == [] then []
    else
      var rest, last := OnDisk(entries[..|entries| - 1], present), entries[|entries| - 1];
      match NewExperimentName(last)
      case Err(_) => rest
      case Ok(name) => if present(name) then Insert(rest, name) else rest
  }

  lemma {:induction false} BeforeIsAnOrder(a: string, b: string, c: string)
    ensures Before(a, b) ==> !Before(b, a)
    ensures Before(a, b) && Before(b, c) ==> Before(a, c)
    ensures Before(a, b) || Before(b, a) || a == b
    decreases |a|
  {
    if a != "" && b != "" && c != "" {
      BeforeIsAnOrder(a[1..], b[1..], c[1..]);
    } else if a != "" && b != "" {
      BeforeIsAnOrder(a[1..], b[1..], "");
    }
    if a != "" && b != "" && a[0] == b[0] && a[1..] == b[1..] {
      assert a == [a[0]] + a[1..] && b == [b[0]] + b[1..];
    }
  }

  /** The two agree up to here, and here the first one ends or has the smaller character. */
  predicate FirstIsLessAt(a: string, b: string, k: nat) {
    && k <= |a| && k < |b|
    && (forall j :: 0 <= j < k ==> a[j] == b[j])
    && (k == |a| || a[k] < b[k])
  }

  lemma LessOneFurther(a: string, b: string, k: nat)
    requires a != "" && b != "" && a[0] == b[0]
    ensures FirstIsLessAt(a, b, k + 1) <==> FirstIsLessAt(a[1..], b[1..], k)
  {
    assert forall j :: 0 <= j < |a| - 1 ==> a[1..][j] == a[j + 1];
    assert forall j :: 0 <= j < |b| - 1 ==> b[1..][j] == b[j + 1];
    if FirstIsLessAt(a[1..], b[1..], k) {
      forall j | 0 <= j < k + 1
        ensures a[j] == b[j]
      {
        assert j > 0 ==> a[1..][j - 1] == b[1..][j - 1];
      }
    }
  }

  /** The order of the dictionary: what differs first decides, and a beginning comes before the whole. */
  lemma {:induction false} BeforeIsLexicographic(a: string, b: string)
    ensures Before(a, b) <==> exists k: nat :: FirstIsLessAt(a, b, k)
    decreases |a|
  {
    if a != "" && b != "" && a[0] == b[0] {
      BeforeIsLexicographic(a[1..], b[1..]);
      if k: nat :| FirstIsLessAt(a[1..], b[1..], k) {
        LessOneFurther(a, b, k);
      }
      if k: nat :| FirstIsLessAt(a, b, k) {
        LessOneFurther(a, b, k - 1);
      }
    } else if Before(a, b) {
      assert FirstIsLessAt(a, b, 0);
    }
  }

  lemma {:induction false} InsertMembers(sorted: seq<ExperimentName>, name: ExperimentName)
    ensures forall x :: x in Insert(sorted, name) <==> x == name || x in sorted
    decreases |sorted|
  {
    if sorted != [] && !Before(name, sorted[0]) {
      assert sorted == [sorted[0]] + sorted[1..];
      InsertMembers(sorted[1..], name);
    }
  }

  predicate Ascending(names: seq<ExperimentName>) {
    forall i, j :: 0 <= i < j < |names| ==> Before(names[i], names[j])
  }

  lemma {:induction false} InsertSorts(sorted: seq<ExperimentName>, name: ExperimentName)
    requires Ascending(sorted) && name !in sorted
    ensures Ascending(Insert(sorted, name))
    decreases |sorted|
  {
    if sorted == [] {
    } else if Before(name, sorted[0]) {
      forall j | 0 <= j < |sorted|
        ensures Before(name, sorted[j])
      {
        BeforeIsAnOrder(name, sorted[0], sorted[j]);
      }
    } else {
      assert sorted == [sorted[0]] + sorted[1..];
      InsertSorts(sorted[1..], name);
      InsertMembers(sorted[1..], name);
      BeforeIsAnOrder(name, sorted[0], "");
      var rest := Insert(sorted[1..], name);
      forall j | 0 <= j < |rest|
        ensures Before(sorted[0], rest[j])
      {
        assert rest[j] in rest;
        if rest[j] != name {
          var k :| 0 <= k < |sorted[1..]| && sorted[1..][k] == rest[j];
          assert sorted[k + 1] == rest[j];
        }
      }
    }
  }

  function AsTargets(names: seq<ExperimentName>): (ts: seq<Target>)
    ensures Names(ts) == names
  {
    seq(|names|, i requires 0 <= i < |names| => Target(names[i], NoProfiles))
  }

  function Has(present: string -> bool): Target -> bool {
    (t: Target) => present(t.name)
  }

  function Lacks(present: string -> bool): Target -> bool {
    (t: Target) => !present(t.name)
  }

  /** The targets of a command. Named ones are all or nothing; the others are taken if they are there. */
  function Select(targets: seq<Target>, fallback: Fallback, enabled: string, entries: seq<string>,
                  present: string -> bool): Result<seq<Target>, seq<Target>> {
    if targets != [] then
      var merged := MergeOnto([], targets);
      var missing := Filter(merged, Lacks(present));
      if missing != [] then Err(missing) else Ok(merged)
    else if fallback == EnabledOnly then Ok(Filter(ReadLines(Lines(enabled)).targets, Has(present)))
    else Ok(AsTargets(OnDisk(entries, present)))
  }

  /** Exactly the valid names with a compose file, strictly ascending. */
  lemma {:induction false} OnDiskNames(entries: seq<string>, present: string -> bool)
    requires Distinct(entries)
    ensures Ascending(OnDisk(entries, present))
    ensures forall name: ExperimentName :: name in OnDisk(entries, present) <==> name in entries && present(name)
  {
    if entries != [] {
      var init, last := entries[..|entries| - 1], entries[|entries| - 1];
      DistinctInit(entries);
      OnDiskNames(init, present);
      assert entries == init + [last];
      if NewExperimentName(last).Ok? && present(last) {
        InsertMembers(OnDisk(init, present), last);
        InsertSorts(OnDisk(init, present), last);
      }
    }
  }

  lemma AscendingIsDistinct(names: seq<ExperimentName>)
    requires Ascending(names)
    ensures Distinct(names)
  {
    forall i, j | 0 <= i < j < |names|
      ensures names[i] != names[j]
    {
      BeforeIsAnOrder(names[i], names[j], "");
    }
  }

  lemma NewNameStaysDistinct(ts: seq<Target>, t: Target)
    requires Distinct(Names(ts)) && forall x :: x in ts ==> x.name != t.name
    ensures Distinct(Names(ts + [t]))
  {
    assert Names(ts + [t]) == Names(ts) + [t.name];
    forall i | 0 <= i < |ts|
      ensures Names(ts)[i] != t.name
    {
      assert ts[i] in ts;
    }
  }

  lemma LastNameIsNew(ts: seq<Target>)
    requires Distinct(Names(ts)) && ts != []
    ensures Distinct(Names(ts[..|ts| - 1]))
    ensures forall x :: x in ts[..|ts| - 1] ==> x.name != ts[|ts| - 1].name
  {
    var init, last := ts[..|ts| - 1], ts[|ts| - 1];
    DistinctInit(Names(ts));
    assert Names(init) == Names(ts)[..|init|];
    forall x | x in init
      ensures x.name != last.name
    {
      var i :| 0 <= i < |init| && init[i] == x;
      assert Names(init)[i] == x.name;
    }
  }

  lemma {:induction false} FilterKeepsDistinctNames(ts: seq<Target>, keep: Target -> bool)
    requires Distinct(Names(ts))
    ensures Distinct(Names(Filter(ts, keep)))
    ensures forall t :: t in Filter(ts, keep) ==> t in ts && keep(t)
  {
    FilterMembers(ts, keep);
    if ts != [] {
      var init, last := ts[..|ts| - 1], ts[|ts| - 1];
      LastNameIsNew(ts);
      FilterKeepsDistinctNames(init, keep);
      NewNameStaysDistinct(Filter(init, keep), last);
    }
  }

  lemma MissingExactly(merged: seq<Target>, present: string -> bool)
    ensures var missing := Filter(merged, Lacks(present));
            && (missing != [] <==> exists t :: t in merged && !present(t.name))
            && forall t :: t in missing <==> t in merged && !present(t.name)
  {
    var missing := Filter(merged, Lacks(present));
    FilterMembers(merged, Lacks(present));
    if missing != [] {
      assert missing[0] in missing;
    }
  }

  lemma EnabledAreDistinct(lines: seq<string>, present: string -> bool)
    ensures var ts := Filter(ReadLines(lines).targets, Has(present));
            Distinct(Names(ts)) && forall t :: t in ts ==> present(t.name)
  {
    TargetsAreFirstValidLines(lines);
    FilterKeepsDistinctNames(ReadLines(lines).targets, Has(present));
  }

  lemma OnDiskAreDistinct(entries: seq<string>, present: string -> bool)
    requires Distinct(entries)
    ensures var ts := AsTargets(OnDisk(entries, present));
            Distinct(Names(ts)) && forall t :: t in ts ==> present(t.name)
  {
    OnDiskNames(entries, present);
    AscendingIsDistinct(OnDisk(entries, present));
    var ts := AsTargets(OnDisk(entries, present));
    assert forall i :: 0 <= i < |ts| ==> ts[i].name == Names(ts)[i];
  }

  /** Whichever way targets are selected, no experiment is selected twice, every selected one has a
      compose file, and a request that names a missing one selects nothing and reports it. */
  lemma SelectionIsDistinct(targets: seq<Target>, fallback: Fallback, enabled: string, entries: seq<string>,
                            present: string -> bool)
    requires Distinct(entries)
    ensures var r := Select(targets, fallback, enabled, entries, present);
            && (r.Ok? ==> Distinct(Names(r.value)) && forall t :: t in r.value ==> present(t.name))
            && (r.Err? <==> exists t :: t in MergeOnto([], targets) && !present(t.name))
            && (r.Err? ==> forall t :: t in r.error <==> t in MergeOnto([], targets) && !present(t.name))
  {
    if targets == [] {
      EnabledAreDistinct(Lines(enabled), present);
      OnDiskAreDistinct(entries, present);
    } else {
      MergedIsFoldPerName(targets);
      MissingExactly(MergeOnto([], targets), present);
    }
  }

  // What is selected, without saying how.

  /** The lines of enabled.conf at these places: in the order of the file, each the first valid one for its
      name, and of those exactly the ones whose experiment has a compose file. */
  ghost predicate EnabledAt(lines: seq<string>, present: string -> bool, ts: seq<Target>, at: seq<nat>) {
    && ReadFrom(lines, ts, at)
    && (forall i :: 0 <= i < |ts| ==> present(ts[i].name))
    && forall k: nat :: FirstValid(lines, k) && present(TargetOf(lines[k]).name) ==> k in at
  }

  /** Named targets are every name given, once and in order, with all profiles given for it. Without
      names it is what enabled.conf enables and is there, with the profiles given there; or else
      everything that is there, in ascending order and without profiles. */
  ghost predicate Selected(targets: seq<Target>, fallback: Fallback, enabled: string, entries: seq<string>,
                           present: string -> bool, ts: seq<Target>) {
    if targets != [] then
      && Names(ts) == Union([], Names(targets))
      && (forall i :: 0 <= i < |ts| ==> ts[i].profiles == ProfilesFor(targets, ts[i].name))
      && forall t :: t in targets ==> present(t.name)
    else
      match fallback
      case EnabledOnly => exists at :: EnabledAt(Lines(enabled), present, ts, at)
      case EverythingOnDisk =>
        && Ascending(Names(ts))
        && (forall i :: 0 <= i < |ts| ==> ts[i].profiles == NoProfiles)
        && forall name: ExperimentName :: name in Names(ts) <==> name in entries && present(name)
  }

  ghost predicate Below(at: seq<nat>, k: nat) {
    forall i :: 0 <= i < |at| ==> at[i] < k
  }

  lemma ReadOneFurther(lines: seq<string>, ts: seq<Target>, at: seq<nat>, t: Target, k: nat)
    requires ReadFrom(lines, ts, at) && Below(at, k)
    requires FirstValid(lines, k) && TargetOf(lines[k]) == t
    ensures ReadFrom(lines, ts + [t], at + [k])
  {
  }

  lemma ReadLessFar(lines: seq<string>, ts: seq<Target>, at: seq<nat>)
    requires ReadFrom(lines, ts, at) && ts != []
    ensures ReadFrom(lines, ts[..|ts| - 1], at[..|ts| - 1])
    ensures Below(at[..|ts| - 1], at[|ts| - 1])
    ensures FirstValid(lines, at[|ts| - 1]) && TargetOf(lines[at[|ts| - 1]]) == ts[|ts| - 1]
  {
  }

  /** The places of the targets that are kept. */
  ghost function KeptAt(ts: seq<Target>, at: seq<nat>, keep: Target -> bool): seq<nat>
    requires |at| == |ts|
  {
    if ts == [] then []
    else KeptAt(ts[..|ts| - 1], at[..|ts| - 1], keep) + if keep(ts[|ts| - 1]) then [at[|ts| - 1]] else []
  }

  lemma {:induction false} KeptStayBelow(ts: seq<Target>, at: seq<nat>, keep: Target -> bool, k: nat)
    requires |at| == |ts| && Below(at, k)
    ensures Below(KeptAt(ts, at, keep), k)
  {
    if ts != [] {
      KeptStayBelow(ts[..|ts| - 1], at[..|ts| - 1], keep, k);
    }
  }

  /** The kept targets come from them, in order. */
  lemma {:induction false} KeptAreRead(lines: seq<string>, ts: seq<Target>, at: seq<nat>, keep: Target -> bool)
    requires ReadFrom(lines, ts, at)
    ensures ReadFrom(lines, Filter(ts, keep), KeptAt(ts, at, keep))
  {
    if ts != [] {
      var n := |ts| - 1;
      ReadLessFar(lines, ts, at);
      KeptAreRead(lines, ts[..n], at[..n], keep);
      FilterLast(ts, keep);
      if keep(ts[n]) {
        KeptStayBelow(ts[..n], at[..n], keep, at[n]);
        ReadOneFurther(lines, Filter(ts[..n], keep), KeptAt(ts[..n], at[..n], keep), ts[n], at[n]);
      }
    }
  }

  /** And none of them is missing. */
  lemma {:induction false} KeptIsThere(ts: seq<Target>, at: seq<nat>, keep: Target -> bool, i: nat)
    requires |at| == |ts| && i < |ts| && keep(ts[i])
    ensures at[i] in KeptAt(ts, at, keep)
  {
    if i < |ts| - 1 {
      KeptIsThere(ts[..|ts| - 1], at[..|ts| - 1], keep, i);
    }
  }

  lemma FirstOfItsName(lines: seq<string>, j: nat, k: nat)
    requires FirstValid(lines, j) && FirstValid(lines, k) && TargetOf(lines[j]).name == TargetOf(lines[k]).name
    ensures j == k
  {
  }

  /** Every first valid line is where a target comes from. */
  lemma FirstValidIsRead(lines: seq<string>, at: seq<nat>, k: nat) returns (i: nat)
    requires ReadFrom(lines, ReadLines(lines).targets, at) && FirstValid(lines, k)
    ensures i < |at| && at[i] == k
  {
    var ts := ReadLines(lines).targets;
    TargetsAreFirstValidLines(lines);
    i :| 0 <= i < |ts| && Names(ts)[i] == TargetOf(lines[k]).name;
    assert FirstValid(lines, at[i]) && TargetOf(lines[at[i]]) == ts[i];
    FirstOfItsName(lines, at[i], k);
  }

  lemma FirstValidIsKept(lines: seq<string>, present: string -> bool, at: seq<nat>, k: nat)
    requires ReadFrom(lines, ReadLines(lines).targets, at)
    requires FirstValid(lines, k) && present(TargetOf(lines[k]).name)
    ensures k in KeptAt(ReadLines(lines).targets, at, Has(present))
  {
    var i := FirstValidIsRead(lines, at, k);
    assert FirstValid(lines, at[i]) && TargetOf(lines[at[i]]) == ReadLines(lines).targets[i];
    KeptIsThere(ReadLines(lines).targets, at, Has(present), i);
  }

  lemma KeptAreThere(ts: seq<Target>, present: string -> bool)
    ensures forall i :: 0 <= i < |Filter(ts, Has(present))| ==> present(Filter(ts, Has(present))[i].name)
  {
    FilterMembers(ts, Has(present));
    forall i | 0 <= i < |Filter(ts, Has(present))|
      ensures present(Filter(ts, Has(present))[i].name)
    {
      assert Filter(ts, Has(present))[i] in Filter(ts, Has(present));
    }
  }

  lemma EnabledIsSelected(lines: seq<string>, present: string -> bool)
    ensures exists at :: EnabledAt(lines, present, Filter(ReadLines(lines).targets, Has(present)), at)
  {
    var all := ReadLines(lines).targets;
    TargetsAreFirstValidLines(lines);
    var from :| ReadFrom(lines, all, from);
    var at := KeptAt(all, from, Has(present));
    KeptAreRead(lines, all, from, Has(present));
    KeptAreThere(all, present);
    forall k: nat | FirstValid(lines, k) && present(TargetOf(lines[k]).name)
      ensures k in at
    {
      FirstValidIsKept(lines, present, from, k);
    }
    assert EnabledAt(lines, present, Filter(all, Has(present)), at);
  }

  lemma MergedArePresent(targets: seq<Target>, present: string -> bool)
    requires Filter(MergeOnto([], targets), Lacks(present)) == []
    ensures forall t :: t in targets ==> present(t.name)
  {
    var merged := MergeOnto([], targets);
    MergedIsFoldPerName(targets);
    FilterMembers(merged, Lacks(present));
    forall t | t in targets
      ensures present(t.name)
    {
      var i :| 0 <= i < |targets| && targets[i] == t;
      assert Names(targets)[i] == t.name;
      UnionMembers([], Names(targets), t.name);
      var j :| 0 <= j < |merged| && Names(merged)[j] == t.name;
      assert merged[j] in merged && merged[j] !in Filter(merged, Lacks(present));
    }
  }

  /** Whatever is selected is that; and nothing is selected exactly when a named experiment is not there. */
  lemma SelectsWhatWasAskedFor(targets: seq<Target>, fallback: Fallback, enabled: string, entries: seq<string>,
                               present: string -> bool)
    requires Distinct(entries)
    ensures var r := Select(targets, fallback, enabled, entries, present);
            && (r.Ok? ==> Selected(targets, fallback, enabled, entries, present, r.value))
            && (r.Err? <==> exists t :: t in targets && !present(t.name))
  {
    var r := Select(targets, fallback, enabled, entries, present);
    if targets != [] {
      MergedIsFoldPerName(targets);
      if r.Ok? {
        MergedArePresent(targets, present);
      } else {
        MissingWasNamed(targets, present);
      }
    } else if fallback == EnabledOnly {
      EnabledIsSelected(Lines(enabled), present);
    } else {
      OnDiskNames(entries, present);
    }
  }

  lemma MissingWasNamed(targets: seq<Target>, present: string -> bool)
    requires Filter(MergeOnto([], targets), Lacks(present)) != []
    ensures exists t :: t in targets && !present(t.name)
  {
    var merged := MergeOnto([], targets);
    var t := Filter(merged, Lacks(present))[0];
    MergedIsFoldPerName(targets);
    FilterMembers(merged, Lacks(present));
    assert t in Filter(merged, Lacks(present));
    var i :| 0 <= i < |merged| && merged[i] == t;
    assert Names(merged)[i] == t.name;
    UnionMembers([], Names(targets), t.name);
    var j :| 0 <= j < |targets| && Names(targets)[j] == t.name;
    assert targets[j] in targets && !present(targets[j].name);
  }
}
