/**
 * Properties of daily production, checked against an independent reference:
 * citizens are fed one at a time, each fed citizen eating one unit of food
 * and earning two gold, each unfed one dying.
 */
module Production {
  import opened Wrappers
  import opened Domain
  import opened Repository
  import opened Service

  /** Gold and food left after feeding, and the number of citizens fed. */
  datatype Harvest = Harvest(gold: int, food: int, survivors: int)

  /** The reference: `hungry` citizens queue for food one after the other. */
  function FeedEach(gold: int, food: nat, hungry: nat): Harvest
    decreases hungry
  {
    if hungry == 0 then Harvest(gold, food, 0)
    else if food == 0 then FeedEach(gold, food, hungry - 1)
    else
      var rest := FeedEach(gold + 2, food - 1, hungry - 1);
      rest.(survivors := rest.survivors + 1)
  }

  function Min(a: int, b: int): int {
    if a <= b then a else b
  }

  /** Feeding one by one ends with min(food, hungry) survivors. */
  lemma {:induction false} FeedEachClosedForm(gold: int, food: nat, hungry: nat)
    ensures FeedEach(gold, food, hungry)
         == Harvest(gold + 2 * Min(food, hungry), food - Min(food, hungry), Min(food, hungry))
    decreases hungry
  {
    if hungry == 0 {
    } else if food == 0 {
      FeedEachClosedForm(gold, food, hungry - 1);
    } else {
      FeedEachClosedForm(gold + 2, food - 1, hungry - 1);
    }
  }

  /**
   * For a kingdom with no negative citizens or food, a production call is exactly the
   * reference: with no survivors the kingdom is deleted and the call fails
   * with NoCitizens, otherwise the survivors, the remaining food and the
   * earned gold are written back and returned.
   */
  lemma DailyProductionFeedsEachCitizen(s: Store, id: Id)
    requires id in s && s[id].citizens >= 0 && s[id].food >= 0
    ensures var r := s[id];
      var h := FeedEach(r.gold, r.food, r.citizens);
      var o := StartDailyProduction(s, id);
      if h.survivors == 0 then
        o == Outcome(Failure(NoCitizens), s - {id})
      else
        && o.result == Success(Kingdom(Some(id), h.gold, h.survivors, h.food, r.dateOfCreation))
        && o.store == s[id := Row(h.gold, h.survivors, h.food, r.dateOfCreation)]
  {
    var r := s[id];
    FeedEachClosedForm(r.gold, r.food, r.citizens);
  }

  /** Production keeps every stored resource non-negative. */
  lemma ProductionPreservesWellFormed(s: Store, id: Id)
    requires WellFormed(s)
    ensures WellFormed(StartDailyProduction(s, id).store)
  {
  }

  /**
   * A successful cycle never raises citizens or food, never lowers gold, and
   * leaves at least one citizen; gold grows by twice the survivors.
   */
  lemma ProductionMonotone(s: Store, id: Id)
    requires WellFormed(s)
    ensures var o := StartDailyProduction(s, id);
      o.result.Success? ==>
        && id in s
        && 0 < o.result.value.citizens <= s[id].citizens
        && o.result.value.food <= s[id].food
        && o.result.value.gold == s[id].gold + 2 * o.result.value.citizens
  {
  }

  /**
   * With the rollback, a kingdom with citizens but no food fails with
   * NoCitizens and yet still reads back afterwards, unchanged.
   */
  lemma RollbackKeepsExtinctKingdom()
    ensures var s := map["k" := Row(10, 2, 0, Date(0))];
      var o := StartDailyProductionAsRun(s, "k");
      && o.result == Failure(NoCitizens)
      && GetKingdom(o.store, "k") == Success(Kingdom(Some("k"), 10, 2, 0, Date(0)))
  {
  }

  /** After a failed production call the id no longer resolves. */
  lemma FailedProductionLeavesNotFound(s: Store, id: Id)
    ensures var o := StartDailyProduction(s, id);
      o.result.Failure? ==> GetKingdom(o.store, id) == Failure(NotFound)
  {
  }
}
