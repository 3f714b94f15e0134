/** Properties of `attack`: the winner rule, conservation, and self-attack. */
module Warfare {
  import opened Wrappers
  import opened Domain
  import opened Repository
  import opened Service

  /** `after` is `before` having lost all its gold and half its citizens. */
  predicate Plundered(before: Kingdom, after: Kingdom) {
    && after.gold == 0
    && after.citizens == before.citizens - TruncHalf(before.citizens)
    && after.food == before.food
  }

  /** `after` is `before` having taken the loser's gold and half its citizens. */
  predicate Enriched(before: Kingdom, after: Kingdom, loser: Kingdom) {
    && after.gold == before.gold + loser.gold
    && after.citizens == before.citizens + TruncHalf(loser.citizens)
    && after.food == before.food
  }

  /**
   * The winner rule: the attacker wins exactly when it has strictly more
   * citizens; otherwise, ties included, the target wins.
   */
  lemma WinnerRule(attacker: Kingdom, target: Kingdom)
    ensures var (a, t) := Combat(attacker, target);
      if attacker.citizens > target.citizens then
        Enriched(attacker, a, target) && Plundered(target, t)
      else
        Enriched(target, t, attacker) && Plundered(attacker, a)
  {
  }

  /**
   * Between two distinct kingdoms an attack moves gold and citizens from one
   * to the other and creates or destroys none; food and creation dates stay;
   * the attacker's stored row is the record returned.
   */
  lemma AttackConservesTotals(s: Store, a: Id, t: Id)
    requires a in s && t in s && a != t
    ensures var o := Attack(s, a, t);
      && o.store[a].gold + o.store[t].gold == s[a].gold + s[t].gold
      && o.store[a].citizens + o.store[t].citizens == s[a].citizens + s[t].citizens
      && o.store[a].food == s[a].food && o.store[t].food == s[t].food
      && o.store[a].dateOfCreation == s[a].dateOfCreation
      && o.store[t].dateOfCreation == s[t].dateOfCreation
      && o.result == Success(ToKingdom(a, o.store[a]))
  {
  }

  /**
   * When the citizen counts differ, the stronger side wins whoever attacks,
   * so swapping the roles leaves the same store.
   */
  lemma AttackRoleIrrelevantWhenUnequal(s: Store, a: Id, t: Id)
    requires a in s && t in s && a != t && s[a].citizens != s[t].citizens
    ensures Attack(s, a, t).store == Attack(s, t, a).store
  {
  }

  /** On a tie the target wins and the attacker is plundered. */
  lemma TieGoesToDefender(s: Store, a: Id, t: Id)
    requires a in s && t in s && a != t && s[a].citizens == s[t].citizens
    ensures var o := Attack(s, a, t);
      && o.store[t].gold == s[t].gold + s[a].gold
      && o.store[a].gold == 0
      && o.store[a].citizens == s[a].citizens - TruncHalf(s[a].citizens)
  {
  }

  /**
   * Self-attack is not refused. The kingdom ties with itself and so loses to
   * itself; the target's save comes last and wins, so the stored kingdom
   * ends with twice its gold, while the record returned shows no gold at all.
   */
  lemma SelfAttack(s: Store, a: Id)
    requires a in s
    ensures var o := Attack(s, a, a);
      var r := s[a];
      && o.store == s[a := Row(2 * r.gold, r.citizens + TruncHalf(r.citizens), r.food, r.dateOfCreation)]
      && o.result.value.gold == 0
      && o.result.value.citizens == r.citizens - TruncHalf(r.citizens)
  {
  }

  /** Attack keeps every stored resource non-negative, self-attack included. */
  lemma AttackPreservesWellFormed(s: Store, a: Id, t: Id)
    requires WellFormed(s)
    ensures WellFormed(Attack(s, a, t).store)
  {
  }
}
