/**
 * The dishes controller: the validation steps that guard creating and
 * updating a dish, the lookup of a dish by its route id, the ordered
 * pipelines that the router runs for create, read and update, and the
 * in-memory dish store that the terminal handlers change.
 *
 * Express's `next()` becomes `Pass` and `next({status, message})` becomes
 * `Reject(status, message)`; the pipeline runner stops at the first
 * rejection, as Express does once `next` is called with an error.
 */
module DishesController {
  import opened JsValues

  /** A stored dish. Every field but `id` is whatever the request body held. */
  datatype Dish = Dish(id: string, name: Value, description: Value, price: Value, imageUrl: Value)

  /** The `data` member of a request body. `None` stands for a body without
      `data`, which the controller destructures with the default `{}`. */
  type Envelope = Option<map<string, Value>>

  /** The parts of a request the controller reads: the `:dishId` route
      parameter and the body's `data`. On POST /dishes the route has no
      `:dishId`, and no step of the create pipeline reads it. */
  datatype Request = Request(dishId: string, data: Envelope)

  /** What a validation step passes to `next`. */
  datatype Outcome = Pass | Reject(status: nat, message: string)

  /** What a handler sends: a dish with a success status, or an error. */
  datatype Reply = Ok(status: nat, dish: Dish) | Error(status: nat, message: string)

  /** "Dish must have a price that is an integer greater than 0", written in
      two pieces so that the verifier can see its first characters. */
  const PriceMessage := "Dish must " + "have a price that is an integer greater than 0"

  /** `data[p]`, with a missing envelope read as `{}`. */
  function Field(data: Envelope, p: string): (v: Option<Value>)
    ensures v.Some? <==> data.Some? && p in data.value
  {
    match data
    case None => None
    case Some(fields) => if p in fields then Some(fields[p]) else None
  }

  function MissingMessage(p: string): string
  {
    "Dish must include a " + p
  }

  function NotFoundMessage(dishId: string): string
  {
    "Dish does not exist: " + dishId
  }

  function MismatchMessage(id: Value, dishId: string): string
  {
    "Dish id does not match route id. Dish: " + Show(id) + ", Route: " + dishId
  }

  /** A price the create and update pipelines accept: an integer above zero. */
  predicate PositiveInteger(price: Option<Value>)
  {
    price.Some? && price.value.Int? && price.value.i > 0
  }

  // ---------------------------------------------------------------------------
  // Validation steps

  /** `bodyDataHas(p)`: passes exactly when `data[p]` is truthy. */
  function BodyDataHas(p: string, data: Envelope): (o: Outcome)
    ensures o.Pass? <==> data.Some? && p in data.value && Truthy(data.value[p])
    ensures o.Reject? ==> o == Reject(400, MissingMessage(p))
  {
    if Present(Field(data, p)) then Pass else Reject(400, MissingMessage(p))
  }

  /** `priceIsValidNumber`: rejects when `price <= 0 || !Number.isInteger(price)`.
      `Number.isInteger` is false of every non-number and every fraction, so
      `price <= 0` only decides for integers. */
  function PriceIsValidNumber(data: Envelope): (o: Outcome)
    ensures o.Pass? <==> PositiveInteger(Field(data, "price"))
    ensures o.Pass? ==> Present(Field(data, "price"))
    ensures o.Reject? ==> o == Reject(400, PriceMessage)
  {
    match Field(data, "price")
    case Some(Int(n)) => if n <= 0 then Reject(400, PriceMessage) else Pass
    case _ => Reject(400, PriceMessage)
  }

  /** `idMatch`: passes when the body's `id` is strictly equal to the route
      id or is falsy; otherwise rejects naming both ids. */
  function IdMatch(req: Request): (o: Outcome)
    ensures o.Pass? <==> Field(req.data, "id") == Some(Str(req.dishId)) || !Present(Field(req.data, "id"))
    ensures o.Reject? ==>
              && Field(req.data, "id").Some?
              && Truthy(Field(req.data, "id").value)
              && Field(req.data, "id").value != Str(req.dishId)
              && o == Reject(400, MismatchMessage(Field(req.data, "id").value, req.dishId))
  {
    var id := Field(req.data, "id");
    if id == Some(Str(req.dishId)) || !Present(id) then Pass
    else Reject(400, MismatchMessage(id.value, req.dishId))
  }

  /** The `dishes.find` in `dishExists`: the index of the FIRST dish whose id
      is the route id. */
  function FindDish(dishes: seq<Dish>, dishId: string): (r: Option<nat>)
    ensures r.Some? ==> r.value < |dishes| && dishes[r.value].id == dishId
    ensures r.Some? ==> forall j :: 0 <= j < r.value ==> dishes[j].id != dishId
    ensures r.None? <==> forall j :: 0 <= j < |dishes| ==> dishes[j].id != dishId
  {
    if dishes == [] then None
    else if dishes[0].id == dishId then Some(0)
    else
      match FindDish(dishes[1..], dishId)
      case None => None
      case Some(k) => Some(k + 1)
  }

  /** `dishExists`: passes when some dish has the route id, else a 404. */
  function DishExists(req: Request, dishes: seq<Dish>): (o: Outcome)
    ensures o.Pass? <==> exists k :: 0 <= k < |dishes| && dishes[k].id == req.dishId
    ensures o.Reject? ==> o == Reject(404, NotFoundMessage(req.dishId))
  {
    if FindDish(dishes, req.dishId).Some? then Pass else Reject(404, NotFoundMessage(req.dishId))
  }

  // ---------------------------------------------------------------------------
  // Pipelines

  datatype Step = HasProperty(property: string) | PriceIsValid | Exists | IdMatches

  function Check(step: Step, req: Request, dishes: seq<Dish>): Outcome
  {
    match step
    case HasProperty(p) => BodyDataHas(p, req.data)
    case PriceIsValid => PriceIsValidNumber(req.data)
    case Exists => DishExists(req, dishes)
    case IdMatches => IdMatch(req)
  }

  /** Runs the steps in order and stops at the first rejection. Every
      rejection is a validation error (400) or a missing dish (404). */
  function Run(steps: seq<Step>, req: Request, dishes: seq<Dish>): (o: Outcome)
    ensures o.Reject? ==> o.status == 400 || o.status == 404
  {
    if steps == [] then Pass
    else
      var first := Check(steps[0], req, dishes);
      if first.Reject? then first
      else
        Run(steps[1..], req, dishes)
  }

  /** A pipeline passes exactly when every step passes, and a rejection is
      the verdict of some step all of whose predecessors passed. */
  lemma {:induction false} RunFirstRejection(steps: seq<Step>, req: Request, dishes: seq<Dish>)
    ensures Run(steps, req, dishes).Pass? <==>
              forall k :: 0 <= k < |steps| ==> Check(steps[k], req, dishes).Pass?
    ensures Run(steps, req, dishes).Reject? ==>
              exists k :: 0 <= k < |steps| && Check(steps[k], req, dishes) == Run(steps, req, dishes) &&
                          forall j :: 0 <= j < k ==> Check(steps[j], req, dishes).Pass?
  {
    if steps != [] && Check(steps[0], req, dishes).Pass? {
      RunFirstRejection(steps[1..], req, dishes);
      assert forall k :: 1 <= k < |steps| ==> steps[k] == steps[1..][k - 1];
      if Run(steps, req, dishes).Reject? {
        var k :| 0 <= k < |steps[1..]| && Check(steps[1..][k], req, dishes) == Run(steps, req, dishes) &&
                 forall j :: 0 <= j < k ==> Check(steps[1..][j], req, dishes).Pass?;
        assert Check(steps[k + 1], req, dishes) == Run(steps, req, dishes);
      }
    }
  }

  const CreateSteps: seq<Step> :=
    [HasProperty("name"), HasProperty("description"), HasProperty("price"), HasProperty("image_url"), PriceIsValid]

  const ReadSteps: seq<Step> := [Exists]

  const UpdateSteps: seq<Step> :=
    [Exists, IdMatches,
     HasProperty("name"), HasProperty("description"), HasProperty("price"), HasProperty("image_url"), PriceIsValid]

  /** The first rejection among the steps is the first rejection of their
      first part, or, when that part passes, of the rest. */
  lemma {:induction false} RunAppend(a: seq<Step>, b: seq<Step>, req: Request, dishes: seq<Dish>)
    ensures Run(a + b, req, dishes) == if Run(a, req, dishes).Reject? then Run(a, req, dishes) else Run(b, req, dishes)
  {
    if a == [] {
      assert a + b == b;
    } else {
      assert (a + b)[0] == a[0];
      assert (a + b)[1..] == a[1..] + b;
      RunAppend(a[1..], b, req, dishes);
    }
  }

  /** Running a step and then the rest. */
  lemma RunCons(step: Step, rest: seq<Step>, req: Request, dishes: seq<Dish>)
    ensures Run([step] + rest, req, dishes) ==
            if Check(step, req, dishes).Reject? then Check(step, req, dishes) else Run(rest, req, dishes)
  {
  }

  /** POST /dishes: which error wins, and when creation goes ahead. */
  lemma CreatePrecedence(req: Request, dishes: seq<Dish>)
    ensures var o := Run(CreateSteps, req, dishes);
            var d := req.data;
            && (!Present(Field(d, "name")) ==> o == Reject(400, "Dish must include a name"))
            && (Present(Field(d, "name")) && !Present(Field(d, "description")) ==>
                  o == Reject(400, "Dish must include a description"))
            && (Present(Field(d, "name")) && Present(Field(d, "description")) &&
                !Present(Field(d, "price")) ==>
                  o == Reject(400, "Dish must include a price"))
            && (Present(Field(d, "name")) && Present(Field(d, "description")) &&
                Present(Field(d, "price")) && !Present(Field(d, "image_url")) ==>
                  o == Reject(400, "Dish must include a image_url"))
            && (Present(Field(d, "name")) && Present(Field(d, "description")) &&
                Present(Field(d, "price")) && Present(Field(d, "image_url")) &&
                !PositiveInteger(Field(d, "price")) ==>
                  o == Reject(400, PriceMessage))
            && (o.Pass? <==>
                  Present(Field(d, "name")) && Present(Field(d, "description")) &&
                  PositiveInteger(Field(d, "price")) && Present(Field(d, "image_url")))
  {
    var tail4: seq<Step> := [PriceIsValid];
    var tail3 := [HasProperty("image_url")] + tail4;
    var tail2 := [HasProperty("price")] + tail3;
    var tail1 := [HasProperty("description")] + tail2;
    assert CreateSteps == [HasProperty("name")] + tail1;
    RunCons(HasProperty("name"), tail1, req, dishes);
    RunCons(HasProperty("description"), tail2, req, dishes);
    RunCons(HasProperty("price"), tail3, req, dishes);
    RunCons(HasProperty("image_url"), tail4, req, dishes);
    RunCons(PriceIsValid, [], req, dishes);
  }

  /** A price of 0 is falsy, so it is reported as missing, never as invalid:
      the price message never wins, and once the checks before the price's
      presence pass, the presence message does. */
  lemma ZeroPriceIsMissing(req: Request, dishes: seq<Dish>)
    requires Field(req.data, "price") == Some(Int(0))
    ensures Run(CreateSteps, req, dishes) != Reject(400, PriceMessage)
    ensures Run(UpdateSteps, req, dishes) != Reject(400, PriceMessage)
    ensures Present(Field(req.data, "name")) && Present(Field(req.data, "description")) ==>
              Run(CreateSteps, req, dishes) == Reject(400, "Dish must include a price")
    ensures Present(Field(req.data, "name")) && Present(Field(req.data, "description")) &&
            FindDish(dishes, req.dishId).Some? && IdMatch(req).Pass? ==>
              Run(UpdateSteps, req, dishes) == Reject(400, "Dish must include a price")
  {
    CreatePrecedence(req, dishes);
    UpdatePrecedence(req, dishes);
    if IdMatch(req).Reject? {
      MismatchIsNotPriceMessage(Field(req.data, "id").value, req.dishId);
    }
  }

  /** An id mismatch can never be mistaken for a bad price. */
  lemma MismatchIsNotPriceMessage(id: Value, dishId: string)
    ensures MismatchMessage(id, dishId) != PriceMessage
  {
    assert MismatchMessage(id, dishId)[5] == 'i';
  }

  /** PUT /dishes/:dishId: a missing dish (404) beats an id mismatch (400),
      which beats the field checks of create, in their order. */
  lemma UpdatePrecedence(req: Request, dishes: seq<Dish>)
    ensures var o := Run(UpdateSteps, req, dishes);
            && (FindDish(dishes, req.dishId).None? ==> o == Reject(404, NotFoundMessage(req.dishId)))
            && (FindDish(dishes, req.dishId).Some? && IdMatch(req).Reject? ==> o == IdMatch(req))
            && (FindDish(dishes, req.dishId).Some? && IdMatch(req).Pass? ==> o == Run(CreateSteps, req, dishes))
            && (o.Pass? ==> FindDish(dishes, req.dishId).Some?)
  {
  }

  /** GET /dishes/:dishId: the pipeline passes exactly when the dish exists. */
  lemma ReadOutcome(req: Request, dishes: seq<Dish>)
    ensures FindDish(dishes, req.dishId).Some? ==> Run(ReadSteps, req, dishes) == Pass
    ensures FindDish(dishes, req.dishId).None? ==>
              Run(ReadSteps, req, dishes) == Reject(404, NotFoundMessage(req.dishId))
  {
  }

  // ---------------------------------------------------------------------------
  // The store

  predicate UniqueIds(dishes: seq<Dish>)
  {
    forall i, j :: 0 <= i < j < |dishes| ==> dishes[i].id != dishes[j].id
  }

  /** With unique ids, the lookup finds the one dish that has the id. */
  lemma UniqueLookup(dishes: seq<Dish>, k: nat)
    requires UniqueIds(dishes) && k < |dishes|
    ensures FindDish(dishes, dishes[k].id) == Some(k)
  {
  }

  /** The process-wide `dishes` array, seeded at start-up. */
  class DishStore {
    var dishes: seq<Dish>

    constructor (seed: seq<Dish>)
      ensures dishes == seed
    {
      dishes := seed;
    }

    /** GET /dishes */
    method List() returns (data: seq<Dish>)
      ensures data == dishes
    {
      data := dishes;
    }

    /** GET /dishes/:dishId: the `read` pipeline, then `read`. */
    method Read(req: Request) returns (reply: Reply)
      ensures FindDish(dishes, req.dishId).Some? ==>
                reply == Ok(200, dishes[FindDish(dishes, req.dishId).value])
      ensures FindDish(dishes, req.dishId).None? ==>
                reply == Error(404, NotFoundMessage(req.dishId))
    {
      var outcome := Run(ReadSteps, req, dishes);
      ReadOutcome(req, dishes);
      if outcome.Reject? {
        reply := Error(outcome.status, outcome.message);
      } else {
        var found := FindDish(dishes, req.dishId).value;
        reply := Ok(200, dishes[found]);
      }
    }

    /** POST /dishes: the `create` pipeline, then `create`, which pushes a
        dish with a fresh id and the body's four fields. */
    method Create(req: Request, freshId: string) returns (reply: Reply)
      requires forall k :: 0 <= k < |dishes| ==> dishes[k].id != freshId
      modifies this
      ensures var o := Run(CreateSteps, req, old(dishes));
              o.Reject? ==> reply == Error(o.status, o.message) && dishes == old(dishes)
      ensures var o := Run(CreateSteps, req, old(dishes));
              var n := |old(dishes)|;
              o.Pass? ==>
                && |dishes| == n + 1
                && dishes[..n] == old(dishes)
                && dishes[n].id == freshId
                && Some(dishes[n].name) == Field(req.data, "name")
                && Some(dishes[n].description) == Field(req.data, "description")
                && Some(dishes[n].price) == Field(req.data, "price")
                && Some(dishes[n].imageUrl) == Field(req.data, "image_url")
                && reply == Ok(201, dishes[n])
      ensures UniqueIds(old(dishes)) ==> UniqueIds(dishes)
    {
      var outcome := Run(CreateSteps, req, dishes);
      if outcome.Reject? {
        reply := Error(outcome.status, outcome.message);
        return;
      }
      CreatePrecedence(req, dishes);
      var data := req.data.value;
      var newDish := Dish(freshId, data["name"], data["description"], data["price"], data["image_url"]);
      dishes := dishes + [newDish];
      reply := Ok(201, newDish);
    }

    /** PUT /dishes/:dishId: the `update` pipeline, then `update`, which
        overwrites four fields of the dish `dishExists` found. */
    method Update(req: Request) returns (reply: Reply)
      modifies this
      ensures var o := Run(UpdateSteps, req, old(dishes));
              o.Reject? ==> reply == Error(o.status, o.message) && dishes == old(dishes)
      ensures var o := Run(UpdateSteps, req, old(dishes));
              var found := FindDish(old(dishes), req.dishId);
              o.Pass? ==>
                && found.Some?
                && |dishes| == |old(dishes)|
                && dishes[found.value].id == old(dishes)[found.value].id
                && Some(dishes[found.value].name) == Field(req.data, "name")
                && Some(dishes[found.value].description) == Field(req.data, "description")
                && Some(dishes[found.value].price) == Field(req.data, "price")
                && Some(dishes[found.value].imageUrl) == Field(req.data, "image_url")
                && (forall j :: 0 <= j < |dishes| && j != found.value ==> dishes[j] == old(dishes)[j])
                && reply == Ok(200, dishes[found.value])
      ensures UniqueIds(old(dishes)) ==> UniqueIds(dishes)
    {
      var outcome := Run(UpdateSteps, req, dishes);
      if outcome.Reject? {
        reply := Error(outcome.status, outcome.message);
        return;
      }
      UpdatePrecedence(req, dishes);
      CreatePrecedence(req, dishes);
      var i := FindDish(dishes, req.dishId).value;
      var data := req.data.value;
      var dish := dishes[i].(name := data["name"], description := data["description"],
                             price := data["price"], imageUrl := data["image_url"]);
      dishes := dishes[i := dish];
      reply := Ok(200, dish);
    }
  }
}
