/**
 * The orders controller's `list`: the orders collection, filtered by an
 * optional `dishId` route parameter. The file exports nothing, so no route
 * reaches this function; it is modelled as written.
 */
module OrdersController {
  import opened JsValues

  /** The property `order.dishes`, as far as reading `.id` from it goes.
      `Nullish` is `undefined` or `null`, where reading `.id` throws a
      TypeError. `Defined(id)` is any other value; `id` is its property
      `id`, `None` when that is undefined (as it is whenever `dishes` is an
      array of line items). */
  datatype DishesProp = Nullish | Defined(id: Option<string>)

  /** An order, as far as `list` reads it. `list` reads only `dishes`;
      `id` is here so that distinct orders can be told apart. */
  datatype Order = Order(id: string, dishes: DishesProp)

  /** What `list` produces: the filtered orders, or the TypeError that the
      filter callback throws, which Express answers with a server error. */
  datatype Listing = Listed(orders: seq<Order>) | TypeError

  /** A route parameter is truthy when it is defined and not empty. */
  predicate TruthyParam(dishId: Option<string>)
  {
    dishId.Some? && dishId.value != ""
  }

  /** The callback `list` hands to `filter`, on an order where it does not
      throw: with a truthy `dishId`, `order.dishes.id == dishId`; otherwise
      `() => true`. */
  predicate Selected(order: Order, dishId: Option<string>)
  {
    if TruthyParam(dishId) then order.dishes.Defined? && order.dishes.id == dishId else true
  }

  /** `orders.filter(...)`, which stops with a TypeError at the first order
      whose callback throws. */
  function List(orders: seq<Order>, dishId: Option<string>): (r: Listing)
    ensures r.TypeError? <==>
              TruthyParam(dishId) && exists k :: 0 <= k < |orders| && orders[k].dishes.Nullish?
    ensures r.Listed? ==> |r.orders| <= |orders|
    ensures r.Listed? ==> forall k :: 0 <= k < |r.orders| ==> Selected(r.orders[k], dishId)
  {
    if orders == [] then Listed([])
    else if TruthyParam(dishId) && orders[0].dishes.Nullish? then TypeError
    else
      match List(orders[1..], dishId)
      case TypeError => TypeError
      case Listed(rest) =>
        assert forall k :: 1 <= k < |orders| ==> orders[k] == orders[1..][k - 1];
        Listed(if Selected(orders[0], dishId) then [orders[0]] + rest else rest)
  }

  /** `a` is `b` with some elements left out, the rest in their order. */
  ghost predicate IsSubsequence(a: seq<Order>, b: seq<Order>)
    decreases |b|
  {
    if a == [] then true
    else if b == [] then false
    else (a[0] == b[0] && IsSubsequence(a[1..], b[1..])) || IsSubsequence(a, b[1..])
  }

  /** Without a truthy `dishId`, `list` returns the whole collection in order. */
  lemma {:induction false} ListAllWhenNoDishId(orders: seq<Order>, dishId: Option<string>)
    requires !TruthyParam(dishId)
    ensures List(orders, dishId) == Listed(orders)
  {
    if orders != [] {
      ListAllWhenNoDishId(orders[1..], dishId);
      assert orders == [orders[0]] + orders[1..];
    }
  }

  /** The result keeps the collection's order. */
  lemma {:induction false} ListIsSubsequence(orders: seq<Order>, dishId: Option<string>)
    ensures List(orders, dishId).Listed? ==> IsSubsequence(List(orders, dishId).orders, orders)
  {
    if orders != [] && List(orders, dishId).Listed? {
      ListIsSubsequence(orders[1..], dishId);
      if Selected(orders[0], dishId) {
        var r := List(orders, dishId).orders;
        assert r[0] == orders[0] && r[1..] == List(orders[1..], dishId).orders;
      }
    }
  }

  /** When `list` does not throw, every order the callback selects is kept as
      often as the collection holds it, and no other order is kept. */
  lemma {:induction false} ListCounts(orders: seq<Order>, dishId: Option<string>, x: Order)
    ensures List(orders, dishId).Listed? ==>
              multiset(List(orders, dishId).orders)[x] ==
                if Selected(x, dishId) then multiset(orders)[x] else 0
  {
    if orders != [] && List(orders, dishId).Listed? {
      ListCounts(orders[1..], dishId, x);
      assert orders == [orders[0]] + orders[1..];
    }
  }

  /** Membership, in both directions: a truthy `dishId` keeps exactly the
      orders whose `dishes.id` equals it. */
  lemma ListMembership(orders: seq<Order>, dishId: Option<string>, x: Order)
    requires List(orders, dishId).Listed?
    ensures x in List(orders, dishId).orders <==>
              x in orders && (TruthyParam(dishId) ==> x.dishes == Defined(dishId))
  {
    ListCounts(orders, dishId, x);
  }

  /** Filtering an already filtered collection changes nothing. */
  lemma {:induction false} ListIdempotent(orders: seq<Order>, dishId: Option<string>)
    requires List(orders, dishId).Listed?
    ensures List(List(orders, dishId).orders, dishId) == List(orders, dishId)
  {
    if orders != [] {
      ListIdempotent(orders[1..], dishId);
      if Selected(orders[0], dishId) {
        var r := List(orders, dishId).orders;
        assert r[0] == orders[0] && r[1..] == List(orders[1..], dishId).orders;
      }
    }
  }
}
