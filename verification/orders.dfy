/** `POST /api/orders/local` (app/api/orders/local/route.ts): checkout of the cart into a
    pending order priced from the catalogue. Prices are integer cents. */
module Orders {
  import opened Common

  datatype OrderLine = OrderLine(productId: string, qty: int)

  /** The JSON body; `items` is `None` when it is missing or not an array. */
  datatype OrderBody = OrderBody(items: Option<seq<OrderLine>>, shippingName: Option<string>,
                                 shippingAddress: Option<string>, phone: Option<string>, note: Option<string>)

  datatype Order = Order(orderId: nat, customerId: string, status: string, totalAmount: int,
                         address: Option<string>, phone: Option<string>, note: Option<string>)

  datatype OrderItemRow = OrderItemRow(orderId: nat, productId: string, quantity: int, unitPrice: int)

  /** No id occurs twice. */
  predicate NoDuplicates(ids: seq<string>)
  {
    ids == [] || (ids[0] !in ids[1..] && NoDuplicates(ids[1..]))
  }

  function Ids(lines: seq<OrderLine>): (r: seq<string>)
    ensures |r| == |lines| && forall i :: 0 <= i < |r| ==> r[i] == lines[i].productId
  {
    if lines == [] then [] else [lines[0].productId] + Ids(lines[1..])
  }

  /** The distinct products the `product_id = ANY(ids)` query returns. */
  function Found(ids: seq<string>, prices: map<string, int>): set<string>
  {
    set x | x in ids && x in prices
  }

  function Elements(ids: seq<string>): set<string>
  {
    set x | x in ids
  }

  lemma {:induction false} ElementsCard(ids: seq<string>)
    ensures |Elements(ids)| <= |ids|
    ensures |Elements(ids)| == |ids| <==> NoDuplicates(ids)
  {
    if ids != [] {
      ElementsCard(ids[1..]);
      assert Elements(ids) == {ids[0]} + Elements(ids[1..]);
      if ids[0] in ids[1..] {
        assert Elements(ids) == Elements(ids[1..]);
      } else {
        assert ids[0] !in Elements(ids[1..]);
      }
    } else {
      assert Elements(ids) == {};
    }
  }

  /** The catalogue returns as many rows as there are lines exactly when every line names
      a known product and no product is named twice. */
  lemma FoundAll(ids: seq<string>, prices: map<string, int>)
    ensures |Found(ids, prices)| <= |ids|
    ensures |Found(ids, prices)| == |ids| <==> NoDuplicates(ids) && forall x :: x in ids ==> x in prices
  {
    ElementsCard(ids);
    var f := Found(ids, prices);
    var e := Elements(ids);
    assert f <= e;
    if !forall x :: x in ids ==> x in prices {
      var x :| x in ids && x !in prices;
      assert x in e && x !in f;
      assert f < e;
      SubsetCard(f, e);
    } else {
      assert f == e;
    }
  }

  lemma SubsetCard(a: set<string>, b: set<string>)
    requires a < b
    ensures |a| < |b|
  {
    var x :| x in b && x !in a;
    SubsetCardLe(a, b - {x});
  }

  lemma {:induction false} SubsetCardLe(a: set<string>, b: set<string>)
    requires a <= b
    ensures |a| <= |b|
    decreases a
  {
    if a != {} {
      var x :| x in a;
      SubsetCardLe(a - {x}, b - {x});
    }
  }

  /** `priceMap.get(id) || 0`. */
  function PriceOr0(prices: map<string, int>, id: string): int
  {
    if id in prices then prices[id] else 0
  }

  /** The order total: each line's catalogue price times its quantity. */
  function OrderTotal(lines: seq<OrderLine>, prices: map<string, int>): int
  {
    if lines == [] then 0 else PriceOr0(prices, lines[0].productId) * lines[0].qty + OrderTotal(lines[1..], prices)
  }

  /** The `order_items` rows written for an order, one per line, in order. */
  function LineRows(orderId: nat, lines: seq<OrderLine>, prices: map<string, int>): (r: seq<OrderItemRow>)
    ensures |r| == |lines|
    ensures forall i :: 0 <= i < |r| ==>
              r[i] == OrderItemRow(orderId, lines[i].productId, lines[i].qty, PriceOr0(prices, lines[i].productId))
  {
    if lines == [] then []
    else LineRows(orderId, lines[..|lines| - 1], prices)
         + [OrderItemRow(orderId, lines[|lines| - 1].productId, lines[|lines| - 1].qty, PriceOr0(prices, lines[|lines| - 1].productId))]
  }

  /** The rows of one more line are the rows so far and that line's row. */
  lemma LineRowsPrefix(orderId: nat, lines: seq<OrderLine>, i: nat, prices: map<string, int>)
    requires i < |lines|
    ensures LineRows(orderId, lines[..i + 1], prices)
            == LineRows(orderId, lines[..i], prices)
               + [OrderItemRow(orderId, lines[i].productId, lines[i].qty, PriceOr0(prices, lines[i].productId))]
  {
    assert lines[..i + 1][..i] == lines[..i];
  }

  /** The order's total is the sum of its item rows' unit price times quantity, so the
      amount charged is computed from catalogue prices only. */
  lemma {:induction false} TotalMatchesRows(orderId: nat, lines: seq<OrderLine>, prices: map<string, int>)
    ensures OrderTotal(lines, prices) == RowsTotal(LineRows(orderId, lines, prices))
  {
    if lines != [] {
      TotalMatchesRows(orderId, lines[1..], prices);
      var rows := LineRows(orderId, lines, prices);
      assert rows[1..] == LineRows(orderId, lines[1..], prices);
    }
  }

  function RowsTotal(rows: seq<OrderItemRow>): int
  {
    if rows == [] then 0 else rows[0].unitPrice * rows[0].quantity + RowsTotal(rows[1..])
  }

  const NotFoundMessage := "One or more products " + "not found"

  /** Why an order is refused before anything is written, if it is. */
  function Rejection(email: Option<string>, customers: map<string, string>, body: OrderBody,
                     prices: map<string, int>): (r: Option<(int, string)>)
    ensures OrEmpty(email) == "" ==> r == Some((401, "Not authenticated"))
    ensures OrEmpty(email) != "" && email.value !in customers ==> r == Some((404, "Customer not found"))
    ensures r.None? <==> && OrEmpty(email) != "" && email.value in customers
                         && body.items.Some? && body.items.value != []
                         && NoDuplicates(Ids(body.items.value))
                         && forall l :: l in body.items.value ==> l.productId in prices
    ensures (OrEmpty(email) != "" && email.value in customers && (body.items.None? || body.items.value == []))
              ==> r == Some((400, "No items"))
    ensures (OrEmpty(email) != "" && email.value in customers && body.items.Some? && body.items.value != []
             && !(NoDuplicates(Ids(body.items.value)) && forall l :: l in body.items.value ==> l.productId in prices))
              ==> r == Some((400, NotFoundMessage))
  {
    if OrEmpty(email) == "" then Some((401, "Not authenticated"))
    else if email.value !in customers then Some((404, "Customer not found"))
    else if body.items.None? || body.items.value == [] then Some((400, "No items"))
    else
      var ids := Ids(body.items.value);
      FoundAll(ids, prices);
      assert (forall x :: x in ids ==> x in prices) <==> (forall l :: l in body.items.value ==> l.productId in prices) by {
        forall l | l in body.items.value ensures l.productId in ids {
          var i :| 0 <= i < |body.items.value| && body.items.value[i] == l;
          assert ids[i] == l.productId;
        }
      }
      if |Found(ids, prices)| != |ids| then Some((400, NotFoundMessage))
      else None
  }

  /** The `orders` and `order_items` tables. */
  class OrderDb {
    var orders: seq<Order>
    var orderItems: seq<OrderItemRow>
    var nextOrderId: nat

    ghost predicate Valid()
      reads this
    {
      (forall o :: o in orders ==> o.orderId < nextOrderId)
      && (forall r :: r in orderItems ==> r.orderId < nextOrderId)
    }

    constructor ()
      ensures Valid() && orders == [] && orderItems == []
    {
      orders := [];
      orderItems := [];
      nextOrderId := 0;
    }

    /** `POST`: refused requests write nothing; an accepted one writes one pending order
        carrying the total, then one item row per line at the catalogue price. The
        shipping name is read but never stored. */
    method Post(email: Option<string>, customers: map<string, string>, body: OrderBody, prices: map<string, int>)
      returns (reply: Reply<nat>)
      requires Valid()
      modifies this
      ensures Valid()
      ensures var rejection := Rejection(email, customers, body, prices);
              rejection.Some? ==> reply == Fail(rejection.value.0, rejection.value.1)
                                  && orders == old(orders) && orderItems == old(orderItems)
      ensures Rejection(email, customers, body, prices).None? ==>
                && reply == Ok(old(nextOrderId))
                && orders == old(orders) + [Order(old(nextOrderId), customers[email.value], "pending",
                                                  OrderTotal(body.items.value, prices),
                                                  NullIfEmpty(body.shippingAddress), NullIfEmpty(body.phone),
                                                  NullIfEmpty(body.note))]
                && orderItems == old(orderItems) + LineRows(old(nextOrderId), body.items.value, prices)
    {
      var rejection := Rejection(email, customers, body, prices);
      if rejection.Some? {
        return Fail(rejection.value.0, rejection.value.1);
      }
      var items := body.items.value;
      var total := OrderTotal(items, prices);
      var orderId := nextOrderId;
      orders := orders + [Order(orderId, customers[email.value], "pending", total,
                                NullIfEmpty(body.shippingAddress), NullIfEmpty(body.phone), NullIfEmpty(body.note))];
      nextOrderId := nextOrderId + 1;
      WriteItems(orderId, items, prices);
      reply := Ok(orderId);
    }

    /** The `order_items` inserts, one per line in order, for an order already written. */
    method WriteItems(orderId: nat, items: seq<OrderLine>, prices: map<string, int>)
      requires Valid() && orderId < nextOrderId
      modifies this
      ensures Valid()
      ensures orders == old(orders) && nextOrderId == old(nextOrderId)
      ensures orderItems == old(orderItems) + LineRows(orderId, items, prices)
    {
      var i := 0;
      while i < |items|
        invariant 0 <= i <= |items|
        invariant Valid() && orders == old(orders) && nextOrderId == old(nextOrderId)
        invariant orderItems == old(orderItems) + LineRows(orderId, items[..i], prices)
      {
        var row := OrderItemRow(orderId, items[i].productId, items[i].qty, PriceOr0(prices, items[i].productId));
        assert LineRows(orderId, items[..i + 1], prices) == LineRows(orderId, items[..i], prices) + [row] by {
          LineRowsPrefix(orderId, items, i, prices);
        }
        orderItems := orderItems + [row];
        i := i + 1;
      }
      assert items[..i] == items;
    }
  }
}
