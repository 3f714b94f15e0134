/**
 * Sequences of validated requests against the store: the resource invariant
 * holds throughout, creation dates never change, and only production deletes.
 */
module Lifecycle {
  import opened Wrappers
  import opened Domain
  import opened Repository
  import opened Service

  /** A request as it reaches the engine, bodies still to be validated. */
  datatype Request =
    | CreateKingdomRequest(body: CreateRequest, freshId: Id, today: Date)
    | ProductionRequest(id: Id)
    | InvestRequest(id: Id, kind: string, amount: Option<int>)
    | AttackRequest(attackerId: Id, targetId: Id)
    | GetKingdomRequest(id: Id)

  /** The id a creation would be given is not in use. */
  predicate Fresh(s: Store, req: Request) {
    req.CreateKingdomRequest? ==> req.freshId !in s
  }

  /** The store after one request; a body that fails validation changes nothing. */
  function Apply(s: Store, req: Request): Store
    requires Fresh(s, req)
  {
    match req
    case CreateKingdomRequest(body, freshId, today) =>
      (match ValidateCreation(body, today)
       case Failure(_) => s
       case Success(k) => CreateKingdom(s, k, freshId).store)
    case ProductionRequest(id) => StartDailyProduction(s, id).store
    case InvestRequest(id, kind, amount) =>
      (match ValidateInvestAmount(amount)
       case Failure(_) => s
       case Success(n) => Invest(s, id, kind, n).store)
    case AttackRequest(a, t) => Attack(s, a, t).store
    case GetKingdomRequest(_) => s
  }

  /** Every creation along the way is given an id not in use at that point. */
  predicate FreshAlong(s: Store, reqs: seq<Request>)
    decreases |reqs|
  {
    reqs == [] || (Fresh(s, reqs[0]) && FreshAlong(Apply(s, reqs[0]), reqs[1..]))
  }

  function Run(s: Store, reqs: seq<Request>): Store
    requires FreshAlong(s, reqs)
    decreases |reqs|
  {
    if reqs == [] then s else Run(Apply(s, reqs[0]), reqs[1..])
  }

  /** A kingdom created through validation reads back with exactly the requested resources. */
  lemma CreateThenGet(s: Store, body: CreateRequest, freshId: Id, today: Date)
    requires freshId !in s
    requires ValidateCreation(body, today).Success?
    ensures var r := GetKingdom(Apply(s, CreateKingdomRequest(body, freshId, today)), freshId);
      && r.Success?
      && r.value.id == Some(freshId)
      && Some(r.value.gold) == body.gold
      && Some(r.value.citizens) == body.citizens
      && Some(r.value.food) == body.food
      && r.value.dateOfCreation == today
  {
  }

  lemma ApplyPreservesWellFormed(s: Store, req: Request)
    requires WellFormed(s) && Fresh(s, req)
    ensures WellFormed(Apply(s, req))
  {
  }

  /** Any run of validated requests keeps every resource of every kingdom non-negative. */
  lemma {:induction false} RunPreservesWellFormed(s: Store, reqs: seq<Request>)
    requires WellFormed(s) && FreshAlong(s, reqs)
    ensures WellFormed(Run(s, reqs))
    decreases |reqs|
  {
    if reqs != [] {
      ApplyPreservesWellFormed(s, reqs[0]);
      RunPreservesWellFormed(Apply(s, reqs[0]), reqs[1..]);
    }
  }

  /** A request deletes a kingdom only when it is a production request for that kingdom. */
  lemma OnlyProductionDeletes(s: Store, req: Request, i: Id)
    requires Fresh(s, req) && i in s && i !in Apply(s, req)
    ensures req == ProductionRequest(i)
  {
  }

  /** A kingdom that existed before a request and still exists after it keeps its creation date. */
  lemma ApplyKeepsDates(s: Store, req: Request, i: Id)
    requires Fresh(s, req) && i in s && i in Apply(s, req)
    ensures Apply(s, req)[i].dateOfCreation == s[i].dateOfCreation
  {
  }

  /** A kingdom that disappears during a run was the subject of some production request. */
  lemma {:induction false} RunDeletesOnlyByProduction(s: Store, reqs: seq<Request>, i: Id)
    requires FreshAlong(s, reqs) && i in s && i !in Run(s, reqs)
    ensures exists j :: 0 <= j < |reqs| && reqs[j] == ProductionRequest(i)
    decreases |reqs|
  {
    var s1 := Apply(s, reqs[0]);
    if i !in s1 {
      OnlyProductionDeletes(s, reqs[0], i);
      assert reqs[0] == ProductionRequest(i);
    } else {
      RunDeletesOnlyByProduction(s1, reqs[1..], i);
      var j :| 0 <= j < |reqs[1..]| && reqs[1..][j] == ProductionRequest(i);
      assert reqs[j + 1] == ProductionRequest(i);
    }
  }

  /** No request of the run creates a kingdom under `i`. */
  predicate NeverCreates(reqs: seq<Request>, i: Id) {
    forall j :: 0 <= j < |reqs| && reqs[j].CreateKingdomRequest? ==> reqs[j].freshId != i
  }

  lemma NeverCreatesTail(reqs: seq<Request>, i: Id)
    requires reqs != [] && NeverCreates(reqs, i)
    ensures NeverCreates(reqs[1..], i)
  {
  }

  /** Ids only come into use through creation. */
  lemma {:induction false} RunOnlyCreatesByRequest(s: Store, reqs: seq<Request>, i: Id)
    requires FreshAlong(s, reqs) && i !in s && NeverCreates(reqs, i)
    ensures i !in Run(s, reqs)
    decreases |reqs|
  {
    if reqs != [] {
      NeverCreatesTail(reqs, i);
      RunOnlyCreatesByRequest(Apply(s, reqs[0]), reqs[1..], i);
    }
  }

  /**
   * A kingdom present before and after a run keeps its creation date, as long
   * as its id is not handed out again by a creation in between.
   */
  lemma {:induction false} RunKeepsDates(s: Store, reqs: seq<Request>, i: Id)
    requires FreshAlong(s, reqs) && NeverCreates(reqs, i) && i in s && i in Run(s, reqs)
    ensures Run(s, reqs)[i].dateOfCreation == s[i].dateOfCreation
    decreases |reqs|
  {
    if reqs != [] {
      var s1 := Apply(s, reqs[0]);
      NeverCreatesTail(reqs, i);
      if i in s1 {
        ApplyKeepsDates(s, reqs[0], i);
        RunKeepsDates(s1, reqs[1..], i);
      } else {
        RunOnlyCreatesByRequest(s1, reqs[1..], i);
        assert false;
      }
    }
  }
}
