/** Properties of `invest`: case-insensitive type matching, exchange rates, and the invariant. */
module Investment {
  import opened Wrappers
  import opened Domain
  import opened Repository
  import opened Service

  function UpperChar(c: char): char {
    if 'a' <= c <= 'z' then (c as int - 32) as char else c
  }

  /** `s` spells the lower-case `word` with any mix of upper- and lower-case letters. */
  predicate EqualsIgnoringCase(s: string, word: string) {
    |s| == |word| && forall i :: 0 <= i < |s| ==> s[i] == word[i] || s[i] == UpperChar(word[i])
  }

  /** The type is recognised exactly when it is a keyword in any letter case. */
  lemma ParseInvestTypeIgnoresCase(kind: string, t: InvestType)
    ensures ParseInvestType(kind) == Some(t) <==> EqualsIgnoringCase(kind, Keyword(t))
  {
  }

  /** With a non-negative amount, investing keeps every stored resource non-negative. */
  lemma InvestPreservesWellFormed(s: Store, id: Id, kind: string, amount: int)
    requires WellFormed(s) && amount >= 0
    ensures WellFormed(Invest(s, id, kind, amount).store)
  {
  }

  /**
   * The exchange rates as conserved quantities: buying food keeps
   * 2 * gold + food, buying citizens keeps gold + citizens.
   */
  lemma InvestKeepsWorth(s: Store, id: Id, kind: string, amount: int)
    ensures var o := Invest(s, id, kind, amount);
      o.result.Success? ==>
        var before := s[id];
        var after := o.result.value;
        && after.id == Some(id)
        && after.dateOfCreation == before.dateOfCreation
        && after.gold == before.gold - amount
        && (ParseInvestType(kind) == Some(Food) ==>
              2 * after.gold + after.food == 2 * before.gold + before.food && after.citizens == before.citizens)
        && (ParseInvestType(kind) == Some(Citizens) ==>
              after.gold + after.citizens == before.gold + before.citizens && after.food == before.food)
  {
  }

  /** Two affordable investments of the same type add up to one investment of the sum. */
  lemma InvestAdditive(s: Store, id: Id, kind: string, a: int, b: int)
    requires id in s && 0 <= a && 0 <= b && a + b <= s[id].gold
    ensures Invest(Invest(s, id, kind, a).store, id, kind, b) == Invest(s, id, kind, a + b)
  {
  }

  /** Without the amount's validation the invariant fails: a negative amount can drive food below zero. */
  lemma NegativeAmountBreaksInvariant()
    ensures var s := map["k" := Row(0, 1, 0, Date(0))];
      && WellFormed(s)
      && Invest(s, "k", "food", -1).result.Success?
      && !WellFormed(Invest(s, "k", "food", -1).store)
  {
  }
}
