/**
 * The expected values of the repository's integration tests, stated over the
 * model. Each scenario starts from the kingdoms the test creates.
 */
module Scenarios {
  import opened Wrappers
  import opened Domain
  import opened Repository
  import opened Service

  const Day := Date(0)

  /** Ten food feeds five citizens: 20 gold, 5 citizens, 5 food. */
  lemma FedProduction()
    ensures StartDailyProduction(map["k" := Row(10, 5, 10, Day)], "k").result
         == Success(Kingdom(Some("k"), 20, 5, 5, Day))
  {
  }

  /** Five food for ten citizens: five survive and earn 10 gold. */
  lemma StarvingProduction()
    ensures StartDailyProduction(map["k" := Row(10, 10, 5, Day)], "k").result
         == Success(Kingdom(Some("k"), 20, 5, 0, Day))
  {
  }

  /** No food at all: the kingdom is deleted and can no longer be read. */
  lemma ExtinctProduction()
    ensures var o := StartDailyProduction(map["k" := Row(10, 2, 0, Day)], "k");
      o.result == Failure(NoCitizens) && GetKingdom(o.store, "k") == Failure(NotFound)
  {
  }

  /** Five gold buys ten food, or five citizens, in any letter case; two gold buys neither; an unknown type buys nothing. */
  lemma Investments()
    ensures Invest(map["k" := Row(10, 5, 5, Day)], "k", "food", 5).result
         == Success(Kingdom(Some("k"), 5, 5, 15, Day))
    ensures Invest(map["k" := Row(10, 5, 5, Day)], "k", "CiTiZeNs", 5).result
         == Success(Kingdom(Some("k"), 5, 10, 5, Day))
    ensures Invest(map["k" := Row(2, 5, 5, Day)], "k", "food", 5).result == Failure(InsufficientGold)
    ensures Invest(map["k" := Row(2, 5, 5, Day)], "k", "citizens", 5).result == Failure(InsufficientGold)
    ensures Invest(map["k" := Row(10, 5, 5, Day)], "k", "invalid", 5).result == Failure(InvalidInvestmentType)
  {
  }

  /** Ten against six citizens: the attacker wins 10 gold and 3 citizens. */
  lemma AttackerWins()
    ensures var o := Attack(map["a" := Row(30, 10, 20, Day), "t" := Row(10, 6, 6, Day)], "a", "t");
      && o.result == Success(Kingdom(Some("a"), 40, 13, 20, Day))
      && o.store["t"] == Row(0, 3, 6, Day)
  {
  }

  /** Ten against ten: the defender wins the tie. */
  lemma DefenderWinsTie()
    ensures var o := Attack(map["a" := Row(30, 10, 20, Day), "t" := Row(20, 10, 20, Day)], "a", "t");
      && o.result == Success(Kingdom(Some("a"), 0, 5, 20, Day))
      && o.store["t"] == Row(50, 15, 20, Day)
  {
  }

  /**
   * Five against twenty: the attacker loses 5 / 2 = 2 citizens and keeps 3
   * (the test expects 2 here); the target ends with 80 gold and 22 citizens.
   */
  lemma StrongDefender()
    ensures var o := Attack(map["a" := Row(30, 5, 20, Day), "t" := Row(50, 20, 30, Day)], "a", "t");
      && o.result == Success(Kingdom(Some("a"), 0, 3, 20, Day))
      && o.store["t"] == Row(80, 22, 30, Day)
  {
  }
}
