/**
 * The `Kingdom` entity and the bounds that Bean Validation puts on the two
 * request bodies (a creation body and an investment body).
 */
module Domain {
  import opened Wrappers

  /** Kingdom ids are opaque strings chosen by the store. */
  type Id = string

  /** A calendar date; the model only ever compares dates for equality. */
  datatype Date = Date(epochDay: int)

  /** Inclusive upper bound on each resource in a creation request. */
  const MaxInitialResource: int := 60

  /** The error kinds a service call can end with. */
  datatype Error =
    | NotFound               // the id does not resolve to a stored kingdom
    | NoCitizens             // production found or left no citizens; a delete is issued before the
                             // exception, and the transaction rollback undoes it at run time
    | InsufficientGold       // an investment asked for more gold than the kingdom holds
    | InvalidInvestmentType  // an investment type other than food or citizens
    | ValidationError        // a request body outside its declared bounds

  /**
   * The in-memory kingdom object. `id` is absent until the store assigns one;
   * the resource fields are plain integers with no bound of their own.
   */
  datatype Kingdom = Kingdom(id: Option<Id>, gold: int, citizens: int, food: int, dateOfCreation: Date)

  /** The state invariant the engine must keep: no resource is negative. */
  predicate NonNegative(k: Kingdom) {
    k.gold >= 0 && k.citizens >= 0 && k.food >= 0
  }

  /** The body of a creation request; each field may be missing (null). */
  datatype CreateRequest = CreateRequest(gold: Option<int>, citizens: Option<int>, food: Option<int>)

  /** One resource field of a creation request is present and within [0, 60]. */
  predicate InCreationBounds(v: Option<int>) {
    v.Some? && 0 <= v.value <= MaxInitialResource
  }

  /**
   * Validation of a creation body. The body is built by the no-argument
   * constructor, which stamps the creation date from the clock (`today`) and
   * leaves the id unset, and then by the three resource setters.
   */
  function ValidateCreation(req: CreateRequest, today: Date): (r: Result<Kingdom, Error>)
    ensures r.Success? <==>
      && req.gold.Some? && 0 <= req.gold.value <= 60
      && req.citizens.Some? && 0 <= req.citizens.value <= 60
      && req.food.Some? && 0 <= req.food.value <= 60
    ensures r.Failure? ==> r.error == ValidationError
    ensures r.Success? ==>
      && r.value.id == None
      && r.value.dateOfCreation == today
      && Some(r.value.gold) == req.gold
      && Some(r.value.citizens) == req.citizens
      && Some(r.value.food) == req.food
      && NonNegative(r.value)
  {
    if InCreationBounds(req.gold) && InCreationBounds(req.citizens) && InCreationBounds(req.food) then
      Success(Kingdom(None, req.gold.value, req.citizens.value, req.food.value, today))
    else
      Failure(ValidationError)
  }

  /** Validation of an investment body: the amount is present and not negative. */
  function ValidateInvestAmount(amount: Option<int>): (r: Result<int, Error>)
    ensures r.Success? <==> amount.Some? && amount.value >= 0
    ensures r.Success? ==> r.value >= 0 && Some(r.value) == amount
    ensures r.Failure? ==> r.error == ValidationError
  {
    if amount.Some? && amount.value >= 0 then Success(amount.value) else Failure(ValidationError)
  }
}
