/**
 * The kingdom state-transition engine: creation, daily production,
 * investment, lookups and attack. Each writing call is one transition of
 * the store; it yields the call's result (a kingdom or an error kind)
 * together with the store it leaves behind.
 */
module Service {
  import opened Wrappers
  import opened Domain
  import opened Repository

  datatype Outcome = Outcome(result: Result<Kingdom, Error>, store: Store)

  /** Java's `n / 2` on `int`: the quotient is truncated toward zero. */
  function TruncHalf(n: int): int {
    if n >= 0 then n / 2 else -((-n) / 2)
  }

  // ---------------------------------------------------------------- creation

  /**
   * `createKingdom` saves the kingdom it is given. A kingdom without id is
   * inserted under `freshId` and comes back with its resources and creation
   * date as given; one that already carries an id goes down the update path.
   */
  function CreateKingdom(s: Store, k: Kingdom, freshId: Id): (o: Outcome)
    requires k.id.None? ==> freshId !in s
    ensures o.result.Success?
    ensures k.id.None? ==>
      && o.result.value == k.(id := Some(freshId))
      && o.store.Keys == s.Keys + {freshId}
      && (forall i :: i in s ==> o.store[i] == s[i])
      && FindById(o.store, freshId) == Some(o.result.value)
    ensures k.id.Some? ==> o.result.value == k && o.store.Keys == s.Keys
    ensures k.id.Some? && k.id.value in s ==>
      o.store == s[k.id.value := s[k.id.value].(gold := k.gold, citizens := k.citizens, food := k.food)]
    ensures k.id.Some? && k.id.value !in s ==> o.store == s
  {
    var (saved, s') := Save(s, k, freshId);
    Outcome(Success(saved), s')
  }

  // ------------------------------------------------------ daily production

  /**
   * One production cycle on a loaded kingdom with citizens. Each citizen
   * needs one unit of food; when food falls short the unfed citizens die.
   * Gold grows by two per citizen still alive afterwards.
   */
  function Produce(k: Kingdom): Kingdom {
    if k.food >= k.citizens then
      k.(food := k.food - k.citizens, gold := k.gold + 2 * k.citizens)
    else
      var starved := k.(citizens := k.food, food := 0);
      starved.(gold := starved.gold + 2 * starved.citizens)
  }

  /**
   * `startDailyProduction`. A kingdom that has no citizens when loaded, or
   * none left after starvation, is deleted and the call fails with
   * NoCitizens; otherwise the produced kingdom is saved and returned.
   */
  function StartDailyProduction(s: Store, id: Id): (o: Outcome)
    ensures id !in s ==> o == Outcome(Failure(NotFound), s)
    ensures id in s && (s[id].citizens == 0 || 0 == s[id].food < s[id].citizens) ==>
      o == Outcome(Failure(NoCitizens), s - {id})
    ensures id in s && 0 < s[id].citizens <= s[id].food ==>
      var r := s[id];
      && o.result == Success(Kingdom(Some(id), r.gold + 2 * r.citizens, r.citizens, r.food - r.citizens, r.dateOfCreation))
      && o.store == s[id := ToRow(o.result.value)]
    ensures id in s && 0 < s[id].food < s[id].citizens ==>
      var r := s[id];
      && o.result == Success(Kingdom(Some(id), r.gold + 2 * r.food, r.food, 0, r.dateOfCreation))
      && o.store == s[id := ToRow(o.result.value)]
    ensures o.result.Success? ==> id in s && o.store == s[id := ToRow(o.result.value)]
    ensures o.result.Failure? ==> o.store == s - {id}
  {
    match FindById(s, id)
    case None => Outcome(Failure(NotFound), s)
    case Some(k) =>
      if k.citizens == 0 then
        Outcome(Failure(NoCitizens), Delete(s, id))
      else
        var k' := Produce(k);
        if k.food < k.citizens && k'.citizens == 0 then
          Outcome(Failure(NoCitizens), Delete(s, id))
        else
          Outcome(Success(k'), Update(s, k'))
  }

  /**
   * `startDailyProduction` as it behaves at run time. The method is
   * transactional and the NoCitizens exception is unchecked, so the
   * transaction is rolled back and the delete issued before the throw is
   * undone: a failed call leaves the store as it was.
   */
  function StartDailyProductionAsRun(s: Store, id: Id): (o: Outcome)
    ensures o.result == StartDailyProduction(s, id).result
    ensures o.result.Failure? ==> o.store == s
    ensures o.result.Success? ==> o.store == StartDailyProduction(s, id).store
  {
    var committed := StartDailyProduction(s, id);
    if committed.result.Failure? then Outcome(committed.result, s) else committed
  }

  // -------------------------------------------------------------- investment

  datatype InvestType = Food | Citizens

  /** The lower-case spelling under which each investment type is requested. */
  function Keyword(t: InvestType): string {
    match t
    case Food => "food"
    case Citizens => "citizens"
  }

  /** `Character.toLowerCase` restricted to ASCII letters. */
  function LowerChar(c: char): char {
    if 'A' <= c <= 'Z' then (c as int + 32) as char else c
  }

  function ToLower(s: string): string {
    seq(|s|, i requires 0 <= i < |s| => LowerChar(s[i]))
  }

  /** The `switch (type.toLowerCase())` of `invest`. */
  function ParseInvestType(kind: string): (r: Option<InvestType>)
    ensures r.Some? ==> ToLower(kind) == Keyword(r.value)
    ensures r.None? ==> forall t: InvestType :: ToLower(kind) != Keyword(t)
  {
    var lower := ToLower(kind);
    if lower == "food" then Some(Food)
    else if lower == "citizens" then Some(Citizens)
    else None
  }

  /**
   * `invest`: spends `amount` gold on twice as much food, or on as many
   * citizens. A failed call leaves the store as it was, since the exception
   * is raised before anything is saved.
   */
  function Invest(s: Store, id: Id, kind: string, amount: int): (o: Outcome)
    ensures id !in s ==> o == Outcome(Failure(NotFound), s)
    ensures id in s && s[id].gold < amount ==> o == Outcome(Failure(InsufficientGold), s)
    ensures id in s && amount <= s[id].gold && ParseInvestType(kind).None? ==>
      o == Outcome(Failure(InvalidInvestmentType), s)
    ensures id in s && amount <= s[id].gold && ParseInvestType(kind) == Some(Food) ==>
      var r := s[id];
      o.result == Success(Kingdom(Some(id), r.gold - amount, r.citizens, r.food + 2 * amount, r.dateOfCreation))
    ensures id in s && amount <= s[id].gold && ParseInvestType(kind) == Some(Citizens) ==>
      var r := s[id];
      o.result == Success(Kingdom(Some(id), r.gold - amount, r.citizens + amount, r.food, r.dateOfCreation))
    ensures o.result.Success? ==> id in s && o.store == s[id := ToRow(o.result.value)]
    ensures o.result.Failure? ==> o.store == s
  {
    match FindById(s, id)
    case None => Outcome(Failure(NotFound), s)
    case Some(k) =>
      if k.gold < amount then
        Outcome(Failure(InsufficientGold), s)
      else
        var paid := k.(gold := k.gold - amount);
        match ParseInvestType(kind)
        case None => Outcome(Failure(InvalidInvestmentType), s)
        case Some(Food) =>
          var k' := paid.(food := paid.food + amount * 2);
          Outcome(Success(k'), Update(s, k'))
        case Some(Citizens) =>
          var k' := paid.(citizens := paid.citizens + amount);
          Outcome(Success(k'), Update(s, k'))
  }

  // ----------------------------------------------------------------- lookups

  /** `getKingdom`: a pure read. */
  function GetKingdom(s: Store, id: Id): (r: Result<Kingdom, Error>)
    ensures r.Success? <==> id in s
    ensures r.Success? ==> r.value.id == Some(id) && ToRow(r.value) == s[id]
    ensures r.Failure? ==> r.error == NotFound
  {
    match FindById(s, id)
    case None => Failure(NotFound)
    case Some(k) => Success(k)
  }

  /** `getRichestKingdom`: a pure read; fails exactly when the store is empty. */
  method GetRichestKingdom(s: Store) returns (r: Result<Kingdom, Error>)
    ensures r.Failure? <==> |s| == 0
    ensures r.Failure? ==> r.error == NotFound
    ensures r.Success? ==> r.value.id.Some? && GetKingdom(s, r.value.id.value) == Success(r.value)
    ensures r.Success? ==> forall i :: i in s ==> s[i].gold <= r.value.gold
  {
    var richest := FindRichest(s);
    if richest.None? {
      r := Failure(NotFound);
    } else {
      r := Success(richest.value);
    }
  }

  // ------------------------------------------------------------------ attack

  /**
   * Combat between two loaded kingdoms, returning the attacker and the target
   * afterwards. The side with strictly more citizens wins and a tie goes to
   * the target. The loser's gold all goes to the winner, and so does half of
   * the loser's citizens (Java integer division). Food is never touched.
   */
  function Combat(attacker: Kingdom, target: Kingdom): (r: (Kingdom, Kingdom))
    ensures r.0.id == attacker.id && r.1.id == target.id
    ensures r.0.dateOfCreation == attacker.dateOfCreation && r.1.dateOfCreation == target.dateOfCreation
    ensures r.0.food == attacker.food && r.1.food == target.food
    ensures r.0.gold + r.1.gold == attacker.gold + target.gold
    ensures r.0.citizens + r.1.citizens == attacker.citizens + target.citizens
    ensures attacker.citizens > target.citizens ==>
      r.1.gold == 0 && r.1.citizens == target.citizens - TruncHalf(target.citizens)
    ensures attacker.citizens <= target.citizens ==>
      r.0.gold == 0 && r.0.citizens == attacker.citizens - TruncHalf(attacker.citizens)
  {
    if attacker.citizens > target.citizens then
      var stolenGold := target.gold;
      var stolenCitizens := TruncHalf(target.citizens);
      (attacker.(gold := attacker.gold + stolenGold, citizens := attacker.citizens + stolenCitizens),
       target.(gold := 0, citizens := target.citizens - stolenCitizens))
    else
      var stolenGold := attacker.gold;
      var stolenCitizens := TruncHalf(attacker.citizens);
      (attacker.(gold := 0, citizens := attacker.citizens - stolenCitizens),
       target.(gold := target.gold + stolenGold, citizens := target.citizens + stolenCitizens))
  }

  /**
   * `attack`: both kingdoms are loaded as separate objects, fought, and saved
   * attacker first, then target. The attacker as it left the combat is
   * returned. Nothing is deleted, whatever the citizens come to.
   */
  function Attack(s: Store, attackerId: Id, targetId: Id): (o: Outcome)
    ensures attackerId !in s || targetId !in s ==> o == Outcome(Failure(NotFound), s)
    ensures attackerId in s && targetId in s ==> o.result.Success?
    ensures o.result.Success? ==>
      o.result.value == Combat(ToKingdom(attackerId, s[attackerId]), ToKingdom(targetId, s[targetId])).0
    ensures attackerId in s && targetId in s ==>
      var c := Combat(ToKingdom(attackerId, s[attackerId]), ToKingdom(targetId, s[targetId]));
      o.store == s[attackerId := ToRow(c.0)][targetId := ToRow(c.1)]
    ensures o.store.Keys == s.Keys
    ensures forall i :: i in s && i != attackerId && i != targetId ==> o.store[i] == s[i]
  {
    match (FindById(s, attackerId), FindById(s, targetId))
    case (None, _) => Outcome(Failure(NotFound), s)
    case (_, None) => Outcome(Failure(NotFound), s)
    case (Some(attacker), Some(target)) =>
      var (attacker', target') := Combat(attacker, target);
      Outcome(Success(attacker'), Update(Update(s, attacker'), target'))
  }
}
