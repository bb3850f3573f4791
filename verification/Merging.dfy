/** Combining profile sets, and the targets that name the same experiment. */
module Merging {
  import opened Sequences
  import opened Targets

  function Merged(mine: Profiles, other: Profiles): Profiles {
    if mine.AllProfiles? || other.AllProfiles? then AllProfiles
    else if mine.NoProfiles? then other
    else if other.NoProfiles? then mine
    else Named(Union(mine.names, other.names))
  }

  /** All profiles if either asks for all; else mine, and then what is new in the other's. */
  method Merge(mine: Profiles, other: Profiles) returns (r: Profiles)
    ensures r == Merged(mine, other)
  {
    if mine.AllProfiles? || other.AllProfiles? {
      return AllProfiles;
    }
    if mine.NoProfiles? {
      return other;
    }
    if other.NoProfiles? {
      return mine;
    }
    var names := mine.names;
    for i := 0 to |other.names|
      invariant names == Union(mine.names, other.names[..i])
    {
      assert other.names[..i + 1] == other.names[..i] + [other.names[i]];
      UnionOneMore(mine.names, other.names[..i], other.names[i]);
      if other.names[i] !in names {
        names := names + [other.names[i]];
      }
    }
    assert other.names[..|other.names|] == other.names;
    return Named(names);
  }

  /** Merging is a monoid with an absorbing element, and never leaves the canonical sets. */
  lemma MergedIsAMonoid(a: Profiles, b: Profiles, c: Profiles)
    ensures Merged(Merged(a, b), c) == Merged(a, Merged(b, c))
    ensures Merged(NoProfiles, a) == a == Merged(a, NoProfiles)
    ensures Merged(AllProfiles, a) == AllProfiles == Merged(a, AllProfiles)
    ensures Canonical(a) && Canonical(b) ==> Canonical(Merged(a, b))
    ensures Canonical(a) ==> Merged(a, a) == a
  {
    if a.Named? && b.Named? && c.Named? {
      UnionAssociative(a.names, b.names, c.names);
    }
    if a.Named? && b.Named? && Canonical(a) {
      UnionDistinct(a.names, b.names);
    }
    if a.Named? {
      UnionWithItself(a.names, a.names);
    }
  }

  lemma {:induction false} UnionWithItself<T>(a: seq<T>, b: seq<T>)
    requires b <= a
    ensures Union(a, b) == a
  {
    if b != [] {
      UnionWithItself(a, b[..|b| - 1]);
      assert b[|b| - 1] == a[|b| - 1];
    }
  }

  /** A profile is in the union exactly when one of the two names it; mine come first, in their order. */
  lemma MergedMembers(a: Profiles, b: Profiles, p: ProfileName)
    requires a.Named? && b.Named?
    ensures p in Merged(a, b).names <==> p in a.names || p in b.names
    ensures Canonical(a) ==> a.names <= Merged(a, b).names
  {
    UnionMembers(a.names, b.names, p);
    if Canonical(a) {
      UnionDistinct(a.names, b.names);
    }
  }

  function Names(ts: seq<Target>): (names: seq<ExperimentName>)
    ensures |names| == |ts|
    ensures forall i :: 0 <= i < |ts| ==> names[i] == ts[i].name
  {
    seq(|ts|, i requires 0 <= i < |ts| => ts[i].name)
  }

  /** Where the first target of this name is, or the length. */
  function Find(ts: seq<Target>, name: ExperimentName): (i: nat)
    ensures i <= |ts|
    ensures i < |ts| ==> ts[i].name == name
    ensures forall j :: 0 <= j < i ==> ts[j].name != name
    ensures name in Names(ts) <==> i < |ts|
  {
    if ts == [] || ts[0].name == name then 0 else 1 + Find(ts[1..], name)
  }

  function MergeOne(merged: seq<Target>, t: Target): seq<Target> {
    var i := Find(merged, t.name);
    if i < |merged| then merged[i := merged[i].(profiles := Merged(merged[i].profiles, t.profiles))]
    else merged + [t]
  }

  function MergeOnto(merged: seq<Target>, ts: seq<Target>): seq<Target> {
    if ts == [] then merged else MergeOne(MergeOnto(merged, ts[..|ts| - 1]), ts[|ts| - 1])
  }

  /** One target for each name, with every profile any of them gave it. */
  method MergeDuplicates(targets: seq<Target>) returns (merged: seq<Target>)
    ensures merged == MergeOnto([], targets)
  {
    merged := [];
    for i := 0 to |targets|
      invariant merged == MergeOnto([], targets[..i])
    {
      assert targets[..i + 1][..i] == targets[..i];
      var at := Find(merged, targets[i].name);
      if at < |merged| {
        var profiles := Merge(merged[at].profiles, targets[i].profiles);
        merged := merged[at := merged[at].(profiles := profiles)];
      } else {
        merged := merged + [targets[i]];
      }
    }
    assert targets[..|targets|] == targets;
  }

  /** The in-order fold of the profile sets given for one name. */
  function ProfilesFor(ts: seq<Target>, name: ExperimentName): Profiles {
    if ts == [] then NoProfiles
    else
      var last := ts[|ts| - 1];
      var before := ProfilesFor(ts[..|ts| - 1], name);
      if last.name == name then Merged(before, last.profiles) else before
  }

  /** Only the target of that name changes, or one is added at the end. */
  lemma MergeOneStep(before: seq<Target>, t: Target)
    requires Distinct(Names(before))
    ensures var after := MergeOne(before, t);
            && Names(after) == AddNew(Names(before), t.name)
            && |before| <= |after|
            && (forall i :: 0 <= i < |before| ==>
                  after[i].profiles == if before[i].name == t.name then Merged(before[i].profiles, t.profiles)
                                       else before[i].profiles)
            && (|before| < |after| ==> after[|before|] == t)
  {
    var at := Find(before, t.name);
    forall i | 0 <= i < |before| && before[i].name == t.name
      ensures i == at
    {
      assert Names(before)[i] == Names(before)[at];
    }
  }

  lemma {:induction false} MergedNames(ts: seq<Target>)
    ensures Names(MergeOnto([], ts)) == Union([], Names(ts))
    ensures Distinct(Names(MergeOnto([], ts)))
  {
    UnionDistinct<ExperimentName>([], Names(ts));
    if ts != [] {
      var init, last := ts[..|ts| - 1], ts[|ts| - 1];
      MergedNames(init);
      assert Names(ts) == Names(init) + [last.name];
      UnionOneMore([], Names(init), last.name);
      MergeOneStep(MergeOnto([], init), last);
    }
  }

  lemma {:induction false} MergedProfiles(ts: seq<Target>, i: nat)
    requires i < |MergeOnto([], ts)|
    ensures MergeOnto([], ts)[i].profiles == ProfilesFor(ts, MergeOnto([], ts)[i].name)
  {
    var init, last := ts[..|ts| - 1], ts[|ts| - 1];
    var before := MergeOnto([], init);
    MergedNames(init);
    MergeOneStep(before, last);
    if i < |before| {
      MergedProfiles(init, i);
      assert Names(before)[i] == Names(MergeOnto([], ts))[i];
    } else {
      UnnamedHasNoProfiles(init, last.name);
    }
  }

  /** The merged list is exactly this: every name once, in order of first appearance, with the fold
      of everything given for it. */
  lemma MergedIsFoldPerName(ts: seq<Target>)
    ensures var merged := MergeOnto([], ts);
            && Names(merged) == Union([], Names(ts))
            && Distinct(Names(merged))
            && forall i :: 0 <= i < |merged| ==> merged[i].profiles == ProfilesFor(ts, merged[i].name)
  {
    MergedNames(ts);
    forall i | 0 <= i < |MergeOnto([], ts)|
      ensures MergeOnto([], ts)[i].profiles == ProfilesFor(ts, MergeOnto([], ts)[i].name)
    {
      MergedProfiles(ts, i);
    }
  }

  lemma {:induction false} UnnamedHasNoProfiles(ts: seq<Target>, name: ExperimentName)
    requires name !in Union([], Names(ts))
    ensures ProfilesFor(ts, name) == NoProfiles
  {
    if ts != [] {
      var init, last := ts[..|ts| - 1], ts[|ts| - 1];
      assert Names(ts) == Names(init) + [last.name];
      UnionOneMore([], Names(init), last.name);
      UnnamedHasNoProfiles(init, name);
    }
  }

  lemma {:induction false} MergeOntoConcat(merged: seq<Target>, a: seq<Target>, b: seq<Target>)
    ensures MergeOnto(merged, a + b) == MergeOnto(MergeOnto(merged, a), b)
  {
    if b == [] {
      assert a + b == a;
    } else {
      assert (a + b)[..|a + b| - 1] == a + b[..|b| - 1];
      MergeOntoConcat(merged, a, b[..|b| - 1]);
    }
  }

  lemma MergeFresh(ts: seq<Target>, t: Target)
    requires t.name !in Names(ts)
    ensures MergeOne(ts, t) == ts + [t]
  {
  }

  lemma {:induction false} MergeOfDistinct(ts: seq<Target>)
    requires Distinct(Names(ts))
    ensures MergeOnto([], ts) == ts
  {
    if ts != [] {
      var init, last := ts[..|ts| - 1], ts[|ts| - 1];
      DistinctInit(Names(ts));
      assert Names(init) == Names(ts)[..|init|];
      MergeOfDistinct(init);
      MergeFresh(init, last);
    }
  }

  /** Merging twice is merging once, and a part may be merged before the rest is added. */
  lemma MergeIdempotent(a: seq<Target>, b: seq<Target>)
    ensures MergeOnto([], MergeOnto([], a)) == MergeOnto([], a)
    ensures MergeOnto([], a + b) == MergeOnto([], MergeOnto([], a) + b)
  {
    MergedIsFoldPerName(a);
    MergeOfDistinct(MergeOnto([], a));
    MergeOntoConcat([], a, b);
    MergeOntoConcat([], MergeOnto([], a), b);
  }

  ghost predicate AllCanonical(ts: seq<Target>) {
    forall t :: t in ts ==> Canonical(t.profiles)
  }

  lemma MergeOneStaysCanonical(merged: seq<Target>, t: Target)
    requires AllCanonical(merged) && Canonical(t.profiles)
    ensures AllCanonical(MergeOne(merged, t))
  {
    var at := Find(merged, t.name);
    if at < |merged| {
      assert merged[at] in merged;
      MergedIsAMonoid(merged[at].profiles, t.profiles, NoProfiles);
    }
  }

  /** Merging canonical targets gives canonical targets, so no profile is ever given twice. */
  lemma {:induction false} MergedStaysCanonical(ts: seq<Target>)
    requires AllCanonical(ts)
    ensures AllCanonical(MergeOnto([], ts))
  {
    if ts != [] {
      MergedStaysCanonical(ts[..|ts| - 1]);
      MergeOneStaysCanonical(MergeOnto([], ts[..|ts| - 1]), ts[|ts| - 1]);
    }
  }
}
