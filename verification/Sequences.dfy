/** Lists without repetition, as the experiment code builds them: look for it, else push it. */
module Sequences {
  predicate Distinct<T(==)>(s: seq<T>) {
    forall i, j :: 0 <= i < j < |s| ==> s[i] != s[j]
  }

  lemma DistinctInit<T>(s: seq<T>)
    requires Distinct(s) && s != []
    ensures Distinct(s[..|s| - 1]) && s[|s| - 1] !in s[..|s| - 1]
  {
    var init := s[..|s| - 1];
    assert forall i :: 0 <= i < |init| ==> init[i] == s[i] != s[|s| - 1];
  }

  function AddNew<T(==)>(s: seq<T>, x: T): seq<T> {
    if x in s then s else s + [x]
  }

  /** `mine`, and then whatever of `other` is not there yet, in order. */
  function Union<T(==)>(mine: seq<T>, other: seq<T>): seq<T> {
    if other == [] then mine else AddNew(Union(mine, other[..|other| - 1]), other[|other| - 1])
  }

  lemma UnionOneMore<T>(mine: seq<T>, other: seq<T>, x: T)
    ensures Union(mine, other + [x]) == AddNew(Union(mine, other), x)
  {
    assert (other + [x])[..|other|] == other;
  }

  /** The other list may be taken up from its front as well. */
  lemma {:induction false} UnionFirst<T>(mine: seq<T>, x: T, rest: seq<T>)
    ensures Union(mine, [x] + rest) == Union(AddNew(mine, x), rest)
  {
    if rest == [] {
      assert [x] + rest == [x] && [x][..0] == [];
    } else {
      assert ([x] + rest)[..|rest|] == [x] + rest[..|rest| - 1];
      UnionFirst(mine, x, rest[..|rest| - 1]);
    }
  }

  lemma {:induction false} UnionMembers<T>(mine: seq<T>, other: seq<T>, x: T)
    ensures x in Union(mine, other) <==> x in mine || x in other
  {
    if other != [] {
      UnionMembers(mine, other[..|other| - 1], x);
      assert other == other[..|other| - 1] + [other[|other| - 1]];
    }
  }

  lemma {:induction false} UnionDistinct<T>(mine: seq<T>, other: seq<T>)
    requires Distinct(mine)
    ensures Distinct(Union(mine, other)) && mine <= Union(mine, other)
  {
    if other != [] {
      UnionDistinct(mine, other[..|other| - 1]);
    }
  }

  /** A list without repetition is its own union with nothing. */
  lemma {:induction false} UnionOfDistinct<T>(mine: seq<T>, other: seq<T>)
    requires Distinct(mine + other)
    ensures Union(mine, other) == mine + other
  {
    if other != [] {
      var init, last := other[..|other| - 1], other[|other| - 1];
      assert (mine + other)[..|mine + other| - 1] == mine + init;
      UnionOfDistinct(mine, init);
      assert (mine + other)[|mine + init|] == last;
      assert forall i :: 0 <= i < |mine + init| ==> (mine + init)[i] == (mine + other)[i];
    } else {
      assert mine + other == mine;
    }
  }

  lemma {:induction false} UnionAssociative<T>(a: seq<T>, b: seq<T>, c: seq<T>)
    ensures Union(Union(a, b), c) == Union(a, Union(b, c))
  {
    if c != [] {
      var init, last := c[..|c| - 1], c[|c| - 1];
      UnionAssociative(a, b, init);
      UnionMembers(a, Union(b, init), last);
      if last !in Union(b, init) {
        UnionOneMore(a, Union(b, init), last);
      }
    }
  }

  function Filter<T>(s: seq<T>, keep: T -> bool): seq<T> {
    if s == [] then []
    else Filter(s[..|s| - 1], keep) + if keep(s[|s| - 1]) then [s[|s| - 1]] else []
  }

  lemma {:induction false} FilterMembers<T(!new)>(s: seq<T>, keep: T -> bool)
    ensures forall x :: x in Filter(s, keep) <==> x in s && keep(x)
    ensures Distinct(s) ==> Distinct(Filter(s, keep))
  {
    if s != [] {
      FilterMembers(s[..|s| - 1], keep);
      assert s == s[..|s| - 1] + [s[|s| - 1]];
    }
  }

  lemma FilterLast<T>(s: seq<T>, keep: T -> bool)
    requires s != []
    ensures Filter(s, keep) == Filter(s[..|s| - 1], keep) + if keep(s[|s| - 1]) then [s[|s| - 1]] else []
  {
  }

  lemma FilterOneMore<T>(s: seq<T>, i: nat, keep: T -> bool)
    requires i < |s|
    ensures Filter(s[..i + 1], keep) == Filter(s[..i], keep) + if keep(s[i]) then [s[i]] else []
  {
    assert s[..i + 1][..i] == s[..i];
  }

  /** What is kept and what is not together are everything. */
  lemma {:induction false} FilterSplits<T>(s: seq<T>, keep: T -> bool, drop: T -> bool)
    requires forall x :: x in s ==> (drop(x) <==> !keep(x))
    ensures |Filter(s, keep)| + |Filter(s, drop)| == |s|
  {
    if s != [] {
      FilterSplits(s[..|s| - 1], keep, drop);
      assert s == s[..|s| - 1] + [s[|s| - 1]];
    }
  }
}
