# Kingdom engine — a Dafny model

This project models the state-transition engine of a small resource game.
A *kingdom* holds three integer resources: gold, citizens and food. It also has
an id, assigned by the store, and a creation date. Four kinds of call act on
the kingdoms held by the store:

- **daily production** feeds citizens and earns gold. Unfed citizens die, and
  a kingdom left without citizens is deleted;
- **investment** turns gold into twice as much food or into as many citizens;
- **attack** pits two kingdoms against each other. The side with strictly more
  citizens wins and a tie goes to the defender. The winner takes all of the
  loser's gold and half (rounded down) of its citizens;
- **reads**: one kingdom by id, or a kingdom holding the most gold.

The store is a `map<Id, Row>` with the repository's observable behaviour:

- insert under a fresh id, writing the whole row;
- update that rewrites only gold, citizens and food;
- delete;
- lookup;
- a query for the most gold.

Every call that writes is a pure function from a store to an `Outcome`. An
`Outcome` holds the call's result (a kingdom or an error kind) and the store
the call leaves. The two reads leave the store alone. `GetKingdom` is a
function returning a `Result`. The richest-kingdom read is a method, because
it picks among equally rich kingdoms without committing to one.

Modules:

- `Wrappers`: `Option`, `Result`.
- `Domain`: the kingdom, the error kinds, and the bounds on the two request bodies.
- `Repository`: the store.
- `Service`: the engine itself.
- `Production`, `Investment`, `Warfare`: properties of each operation. Daily
  production is checked against an independent reference, `FeedEach`, which
  feeds citizens one at a time.
- `Lifecycle`: runs of validated requests. The non-negativity invariant holds
  after any run, creation dates never change, and only production deletes.
- `Scenarios`: the expected values of the repository's integration tests.

Points where the code's behaviour is easy to misread; the model follows the code in each:

- The test at `src/test/java/com/tecnocampus/examsimulation/KingdomTest.java:321-324`
  expects a losing attacker with 5 citizens to keep 2. The code subtracts
  `5 / 2 = 2` and leaves 3. `Scenarios.StrongDefender` states 3.
- `invest` deducts gold in memory before it checks the investment type. It
  then throws before anything is saved, so an invalid type leaves the store
  unchanged, exactly as if the type had been checked first (`Service.Invest`).
- `createKingdom` is the repository's `save`, so a kingdom that already has an
  id goes down the update path rather than being created. `Service.CreateKingdom`
  models both paths.
- Self-attack is not refused. The kingdom ties with itself, so it is both
  winner and loser. The target's save comes last and wins, so the stored gold
  doubles while the returned record shows zero gold (`Warfare.SelfAttack`).

Java's `/` truncates toward zero, and the model writes that out (`Service.TruncHalf`).
On the non-negative values the store keeps, this is the same as floor division.

## Model

| member | source | states |
|---|---|---|
| Domain.ValidateCreation | src/main/java/com/tecnocampus/examsimulation/api/domain/Kingdom.java:11-37 | a creation body is accepted iff gold, citizens and food are all present and in [0, 60]; the kingdom built has exactly those values, no id, and today's creation date; otherwise ValidationError |
| Domain.ValidateInvestAmount | src/main/java/com/tecnocampus/examsimulation/api/domain/Kingdom.java:51-57 | an investment amount is accepted iff present and non-negative |
| Repository.FindById | src/main/java/com/tecnocampus/examsimulation/api/application/KingdomRepository.java:34-37 | a lookup succeeds iff the id is stored, and returns that row under that id |
| Repository.Insert | src/main/java/com/tecnocampus/examsimulation/api/application/KingdomRepository.java:21-26 | insert returns the given kingdom with the fresh id, and writes the kingdom's own gold, citizens, food and creation date as the row under that id; no other key is added and other rows are left alone |
| Repository.Update | src/main/java/com/tecnocampus/examsimulation/api/application/KingdomRepository.java:27-30 | update keeps the key set, rewrites only gold/citizens/food of the kingdom's own row (creation date kept), touches no other row, and does nothing for an unknown id |
| Repository.Save | src/main/java/com/tecnocampus/examsimulation/api/application/KingdomRepository.java:21-32 | without an id, save returns the kingdom with the fresh id and writes its whole row under that id; with a stored id, it rewrites only that row's gold, citizens and food, keeping the date; with an unknown id, it changes nothing; a kingdom with an id is returned as given |
| Repository.Delete | src/main/java/com/tecnocampus/examsimulation/api/application/KingdomRepository.java:44-47 | delete removes exactly that id and leaves every other row as it was |
| Repository.FindRichest | src/main/java/com/tecnocampus/examsimulation/api/application/KingdomRepository.java:49-52 | finds nothing iff the store is empty; otherwise returns a stored kingdom whose gold is at least every stored kingdom's gold |
| Service.CreateKingdom | src/main/java/com/tecnocampus/examsimulation/api/application/KingdomService.java:17-20 | creation always succeeds; an id-less kingdom comes back with the fresh id and its own resources and date, reads back from the store, and no other row changes; one with an id is returned as given and, like an update, rewrites only the resources of that id's row, or changes nothing when the id is unknown |
| Service.StartDailyProduction | src/main/java/com/tecnocampus/examsimulation/api/application/KingdomService.java:22-48 | unknown id: NotFound, store unchanged; no citizens, or no food for some citizens: NoCitizens and the id is deleted; fed: food drops by citizens, gold rises by twice citizens; starving: citizens become the food, food 0, gold rises by twice the survivors; on success the store holds exactly the returned kingdom. This is the deletion as the code intends it; the rolled-back run-time behaviour is `Service.StartDailyProductionAsRun` |
| Service.StartDailyProductionAsRun | src/main/java/com/tecnocampus/examsimulation/api/application/KingdomService.java:22-48 | the same result as the intended production call; on a failure the transaction rollback leaves the store unchanged, so the NoCitizens delete does not persist; on success the store is the intended one |
| Service.ParseInvestType | src/main/java/com/tecnocampus/examsimulation/api/application/KingdomService.java:61-70 | a recognised type is one whose keyword equals the lower-cased input; no type is recognised otherwise |
| Service.Invest | src/main/java/com/tecnocampus/examsimulation/api/application/KingdomService.java:50-73 | NotFound, InsufficientGold (amount above gold; equal is allowed) and InvalidInvestmentType each leave the store unchanged; food adds twice the amount to food, citizens adds the amount to citizens, gold drops by the amount, nothing else changes; on success the store holds the returned kingdom |
| Service.GetKingdom | src/main/java/com/tecnocampus/examsimulation/api/application/KingdomService.java:75-78 | a read succeeds iff the id is stored and returns that row under that id; otherwise NotFound |
| Service.GetRichestKingdom | src/main/java/com/tecnocampus/examsimulation/api/application/KingdomService.java:80-83 | fails with NotFound iff the store is empty; otherwise returns a stored kingdom, as stored, with gold at least every stored kingdom's gold |
| Service.Combat | src/main/java/com/tecnocampus/examsimulation/api/application/KingdomService.java:92-112 | ids, dates and food of both sides are kept; the pair's total gold and total citizens are conserved; the loser (target iff the attacker has strictly more citizens) ends with no gold and keeps its citizens minus half of them |
| Service.Attack | src/main/java/com/tecnocampus/examsimulation/api/application/KingdomService.java:85-118 | NotFound, store unchanged, when either id is absent; otherwise success with the attacker as it left the combat, and the store is the original with the attacker's combat row written and then the target's; no id is ever deleted and kingdoms other than the two are untouched |
| Production.FeedEachClosedForm | src/main/java/com/tecnocampus/examsimulation/api/application/KingdomService.java:32-39 | feeding citizens one at a time leaves min(food, citizens) survivors, that much less food, and twice that much more gold |
| Production.DailyProductionFeedsEachCitizen | src/main/java/com/tecnocampus/examsimulation/api/application/KingdomService.java:27-47 | for non-negative citizens and food, whatever the gold, a production call is exactly the one-at-a-time feeding: deleted with NoCitizens when nobody is fed, otherwise the fed citizens, remaining food and earned gold are stored and returned |
| Production.ProductionPreservesWellFormed | src/main/java/com/tecnocampus/examsimulation/api/application/KingdomService.java:32-47 | production keeps every stored resource non-negative |
| Production.ProductionMonotone | src/main/java/com/tecnocampus/examsimulation/api/application/KingdomService.java:32-47 | a successful cycle leaves at least one citizen, never raises citizens or food, and adds twice the survivors to gold |
| Production.RollbackKeepsExtinctKingdom | src/main/java/com/tecnocampus/examsimulation/api/application/KingdomService.java:22-44 | at run time, a kingdom with 2 citizens and no food fails with NoCitizens and still reads back unchanged, where the test expects NotFound |
| Production.FailedProductionLeavesNotFound | src/main/java/com/tecnocampus/examsimulation/api/application/KingdomService.java:24-44 | after any failed production call a lookup of that id gives NotFound |
| Investment.ParseInvestTypeIgnoresCase | src/main/java/com/tecnocampus/examsimulation/api/application/KingdomService.java:61-69 | a type is recognised as food (citizens) iff it spells "food" ("citizens") in any mix of upper and lower case |
| Investment.InvestPreservesWellFormed | src/main/java/com/tecnocampus/examsimulation/api/application/KingdomService.java:55-67 | with a non-negative amount, investing keeps every stored resource non-negative |
| Investment.InvestKeepsWorth | src/main/java/com/tecnocampus/examsimulation/api/application/KingdomService.java:59-67 | a successful investment keeps id and date, lowers gold by the amount, and conserves 2*gold+food (food) or gold+citizens (citizens) with the other resource unchanged |
| Investment.InvestAdditive | src/main/java/com/tecnocampus/examsimulation/api/application/KingdomService.java:55-67 | two affordable non-negative investments of one type equal a single investment of their sum |
| Investment.NegativeAmountBreaksInvariant | src/main/java/com/tecnocampus/examsimulation/api/domain/Kingdom.java:51-57 | without the amount's lower bound the service accepts a negative amount that drives food below zero |
| Warfare.WinnerRule | src/main/java/com/tecnocampus/examsimulation/api/application/KingdomService.java:92-112 | for all inputs, the attacker wins iff it has strictly more citizens; the winner gains exactly the loser's gold and half its citizens (Java division), the loser keeps no gold and the rest of its citizens; food untouched |
| Warfare.AttackConservesTotals | src/main/java/com/tecnocampus/examsimulation/api/application/KingdomService.java:92-117 | between distinct kingdoms, stored total gold and total citizens of the pair are conserved, food and dates untouched, and the returned record is the attacker's stored row |
| Warfare.AttackRoleIrrelevantWhenUnequal | src/main/java/com/tecnocampus/examsimulation/api/application/KingdomService.java:92-112 | with unequal citizen counts, swapping attacker and target leaves the same store |
| Warfare.TieGoesToDefender | src/main/java/com/tecnocampus/examsimulation/api/application/KingdomService.java:102-112 | on equal citizens the target takes the attacker's gold and the attacker loses half its citizens |
| Warfare.SelfAttack | src/main/java/com/tecnocampus/examsimulation/api/application/KingdomService.java:86-117 | a kingdom attacking itself ends stored with doubled gold and citizens plus half, while the returned record shows no gold and citizens minus half |
| Warfare.AttackPreservesWellFormed | src/main/java/com/tecnocampus/examsimulation/api/application/KingdomService.java:92-115 | attack keeps every stored resource non-negative, self-attack included |
| Lifecycle.CreateThenGet | src/main/java/com/tecnocampus/examsimulation/api/application/KingdomService.java:17-20 | a validated creation reads back under its fresh id with exactly the requested gold, citizens, food and today's date |
| Lifecycle.ApplyPreservesWellFormed | src/main/java/com/tecnocampus/examsimulation/api/application/KingdomService.java:22-117 | any single validated request keeps every stored resource non-negative |
| Lifecycle.RunPreservesWellFormed | src/main/java/com/tecnocampus/examsimulation/api/domain/Kingdom.java:11-24 | any sequence of validated requests keeps every stored resource non-negative, although the 60 cap is checked only at creation |
| Lifecycle.OnlyProductionDeletes | src/main/java/com/tecnocampus/examsimulation/api/application/KingdomService.java:27-44 | a request removes a stored kingdom only if it is a production request for that kingdom |
| Lifecycle.RunDeletesOnlyByProduction | src/main/java/com/tecnocampus/examsimulation/api/application/KingdomService.java:27-44 | a kingdom that disappears during a run was the subject of some production request in it |
| Lifecycle.ApplyKeepsDates | src/main/java/com/tecnocampus/examsimulation/api/application/KingdomRepository.java:27-30 | a kingdom present before and after a request keeps its creation date |
| Lifecycle.RunOnlyCreatesByRequest | src/main/java/com/tecnocampus/examsimulation/api/application/KingdomRepository.java:21-26 | an id absent from the store and handed out by no creation is still absent after the run |
| Lifecycle.RunKeepsDates | src/main/java/com/tecnocampus/examsimulation/api/domain/Kingdom.java:26-30 | a kingdom present before and after a run keeps its creation date, unless its id was handed out again in between |
| Scenarios.FedProduction | src/test/java/com/tecnocampus/examsimulation/KingdomTest.java:47-61 | 5 citizens with 10 food end with 20 gold, 5 citizens, 5 food |
| Scenarios.StarvingProduction | src/test/java/com/tecnocampus/examsimulation/KingdomTest.java:64-78 | 10 citizens with 5 food end with 20 gold, 5 citizens, 0 food |
| Scenarios.ExtinctProduction | src/test/java/com/tecnocampus/examsimulation/KingdomTest.java:81-98 | 2 citizens with no food: NoCitizens, then NotFound |
| Scenarios.Investments | src/test/java/com/tecnocampus/examsimulation/KingdomTest.java:102-184 | the five investment tests: food, citizens, not enough gold for food, not enough gold for citizens, invalid type |
| Scenarios.AttackerWins | src/test/java/com/tecnocampus/examsimulation/KingdomTest.java:272-300 | 10 vs 6 citizens: attacker 40 gold, 13 citizens, 20 food; target 0 gold, 3 citizens, 6 food |
| Scenarios.DefenderWinsTie | src/test/java/com/tecnocampus/examsimulation/KingdomTest.java:243-269 | 10 vs 10 citizens: attacker 0 gold, 5 citizens; target 50 gold, 15 citizens |
| Scenarios.StrongDefender | src/test/java/com/tecnocampus/examsimulation/KingdomTest.java:303-330 | 5 vs 20 citizens: attacker 0 gold and 3 citizens (the test's 2 disagrees with the code); target 80 gold, 22 citizens |

## Left out

- The HTTP controller, its routes, and the mapping of error kinds to status codes. The model exposes error kinds only.
- JDBC, the SQL text and the row mapper. The repository is modelled by its observable contract on a map. `findAll` is never called by the service and is not modelled.
- UUID generation. The fresh id is a parameter that must not already be in use. Reuse of an id after deletion is not excluded by the store model; `Lifecycle.RunKeepsDates` names that case.
- `LocalDate.now()`. The creation date is a parameter (`today`).
- Service.StartDailyProduction: the NoCitizens delete is modelled as committed, as the code intends. At run time the enclosing transaction rolls it back. `Service.StartDailyProductionAsRun` models that behaviour (see Findings).
- Concurrency. Each call is one transition of the store. Apart from the rollback above, transaction boundaries are not modelled.
- Java `int` overflow. Resources are unbounded integers. Production's `2 * citizens`, the investment sums and the attack sums would wrap at 2^31 in the Java code.
- Locale-dependent `toLowerCase`. The model lowers ASCII letters only. For the two keywords this matches the default root-style mapping, but not, for example, a Turkish default locale.
- A null investment type, on which `toLowerCase` would throw. The controller always supplies a type.
- The tie-break among equally rich kingdoms. SQL leaves it open, and so does `Repository.FindRichest`.
- Ids and dates that a client puts in a creation body. `Domain.ValidateCreation` builds an id-less kingdom dated today. `Service.CreateKingdom` still models the update path that a kingdom with an id takes.
- Swagger annotations.

## Findings

| source | as written | input that shows it | evidently intended | confidence | as-written member | corrected member |
|---|---|---|---|---|---|---|
| src/main/java/com/tecnocampus/examsimulation/api/application/KingdomService.java:22-44 | `startDailyProduction` is `@Transactional`. It deletes the kingdom and then throws an unchecked `IllegalStateException`, so Spring rolls the delete back | a kingdom with 10 gold, 2 citizens and 0 food: the call fails with NoCitizens, and the kingdom still reads back | the kingdom is deleted and a later read gives NotFound, as KingdomTest.java:94-98 expects | high, not executed | Production.RollbackKeepsExtinctKingdom | Production.FailedProductionLeavesNotFound |
