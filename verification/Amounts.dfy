/** The same amount many times over. */
module Amounts {
  /** So many times the same, added up one by one. */
  function Times(count: nat, each: nat): nat {
    if count == 0 then 0 else Times(count - 1, each) + each
  }

  lemma {:induction false} TimesIsProduct(count: nat, each: nat)
    ensures Times(count, each) == count * each
  {
    if count > 0 {
      TimesIsProduct(count - 1, each);
      assert count * each == (count - 1) * each + each;
    }
  }

  lemma {:induction false} TimesMore(more: nat, count: nat, each: nat)
    ensures Times(more + count, each) == Times(more, each) + Times(count, each)
  {
    if more > 0 {
      TimesMore(more - 1, count, each);
    }
  }

  lemma {:induction false} TimesGrows(fewer: nat, count: nat, each: nat)
    requires fewer <= count
    ensures Times(fewer, each) <= Times(count, each)
    decreases count
  {
    if fewer < count {
      TimesGrows(fewer, count - 1, each);
    }
  }
}
