/** The client-side cart (app/hooks/useCart.ts): a list of items kept in local storage
    under `cart:v1`, re-read before every change and written back after it. Prices are
    integer cents. */
module Cart {
  import opened Common

  datatype CartItem = CartItem(productId: string, name: string, price: int, photo: Option<string>, qty: int)

  /** What `addItem` is given: an item without a quantity. */
  datatype NewItem = NewItem(productId: string, name: string, price: int, photo: Option<string>)

  /** An item as parsed back from local storage, before its numbers are normalised. */
  datatype StoredItem = StoredItem(productId: string, name: string, price: Json, photo: Option<string>, qty: Json)

  /** `Number(v) || d` for a stored number. */
  function NumberOr(v: Json, d: int): (r: int)
    ensures ToNumber(v).Fin? && ToNumber(v).n != 0 ==> r == ToNumber(v).n
    ensures !NumTruthy(ToNumber(v)) ==> r == d
  {
    match ToNumber(v)
    case Fin(n) => if n != 0 then n else d
    case _ => d
  }

  /** One stored item read back: the text fields as stored, the price `Number(price) || 0`
      and the quantity `Number(qty) || 1`. */
  function LoadItem(s: StoredItem): (r: CartItem)
    ensures r.productId == s.productId && r.name == s.name && r.photo == s.photo
    ensures r.price == if ToNumber(s.price).Fin? then ToNumber(s.price).n else 0
    ensures r.qty == if ToNumber(s.qty).Fin? && ToNumber(s.qty).n != 0 then ToNumber(s.qty).n else 1
    ensures r.qty != 0
  {
    CartItem(s.productId, s.name, NumberOr(s.price, 0), s.photo, NumberOr(s.qty, 1))
  }

  /** `load()`: nothing stored, or text that does not parse, gives the empty cart; otherwise
      every item with its price coerced to a number (else 0) and its quantity to a
      non-zero number (else 1). */
  function Load(stored: Option<seq<StoredItem>>): (r: seq<CartItem>)
    ensures stored.None? ==> r == []
    ensures stored.Some? ==> |r| == |stored.value|
                             && forall i :: 0 <= i < |r| ==> r[i].productId == stored.value[i].productId && r[i].qty != 0
    ensures stored.Some? ==> forall i :: 0 <= i < |r| ==> r[i] == LoadItem(stored.value[i])
  {
    if stored.None? then [] else LoadAll(stored.value)
  }

  function LoadAll(s: seq<StoredItem>): (r: seq<CartItem>)
    ensures |r| == |s| && forall i :: 0 <= i < |r| ==> r[i] == LoadItem(s[i])
  {
    if s == [] then [] else [LoadItem(s[0])] + LoadAll(s[1..])
  }

  /** `save(items)`: the items as `JSON.stringify` writes them. */
  function Save(items: seq<CartItem>): (r: seq<StoredItem>)
    ensures |r| == |items|
  {
    if items == [] then []
    else [StoredItem(items[0].productId, items[0].name, JNum(Fin(items[0].price)), items[0].photo,
                     JNum(Fin(items[0].qty)))] + Save(items[1..])
  }

  /** Reading back what was saved gives the same cart, as long as no quantity is 0
      (a stored 0 reads back as 1). */
  lemma {:induction false} LoadSave(items: seq<CartItem>)
    requires forall x :: x in items ==> x.qty != 0
    ensures Load(Some(Save(items))) == items
  {
    if items != [] {
      assert forall x :: x in items[1..] ==> x in items;
      LoadSave(items[1..]);
      assert items == [items[0]] + items[1..];
    }
  }

  /** A stored quantity of 0 reads back as 1. */
  lemma LoadZeroQty(s: StoredItem)
    requires s.qty == JNum(Fin(0))
    ensures Load(Some([s])) == [CartItem(s.productId, s.name, NumberOr(s.price, 0), s.photo, 1)]
  {
  }

  predicate HasId(list: seq<CartItem>, id: string)
  {
    exists x :: x in list && x.productId == id
  }

  /** No product appears twice. */
  predicate DistinctIds(list: seq<CartItem>)
  {
    forall i, j :: 0 <= i < j < |list| ==> list[i].productId != list[j].productId
  }

  /** Sum of quantities (`count`). */
  function Count(list: seq<CartItem>): int
  {
    if list == [] then 0 else list[0].qty + Count(list[1..])
  }

  /** Sum of price times quantity (`total`). */
  function Total(list: seq<CartItem>): int
  {
    if list == [] then 0 else list[0].price * list[0].qty + Total(list[1..])
  }

  /** Quantity held under `id`, summed over every item carrying it. */
  function QtyOf(list: seq<CartItem>, id: string): int
  {
    if list == [] then 0 else (if list[0].productId == id then list[0].qty else 0) + QtyOf(list[1..], id)
  }

  /** Value held under `id`. */
  function TotalOf(list: seq<CartItem>, id: string): int
  {
    if list == [] then 0
    else (if list[0].productId == id then list[0].price * list[0].qty else 0) + TotalOf(list[1..], id)
  }

  /** How many items carry `id`. */
  function Occurrences(list: seq<CartItem>, id: string): nat
  {
    if list == [] then 0 else (if list[0].productId == id then 1 else 0) + Occurrences(list[1..], id)
  }

  /** Price of the items carrying `id`, summed once each. */
  function PriceOf(list: seq<CartItem>, id: string): int
  {
    if list == [] then 0 else (if list[0].productId == id then list[0].price else 0) + PriceOf(list[1..], id)
  }

  /** The items with every `id` item's quantity raised by one. */
  function Bump(list: seq<CartItem>, id: string): (r: seq<CartItem>)
    ensures |r| == |list|
    ensures forall i :: 0 <= i < |r| ==> r[i].productId == list[i].productId && r[i].name == list[i].name
                                         && r[i].price == list[i].price && r[i].photo == list[i].photo
    ensures forall i :: 0 <= i < |r| ==> r[i].qty == (if list[i].productId == id then list[i].qty + 1 else list[i].qty)
  {
    if list == [] then []
    else [if list[0].productId == id then list[0].(qty := list[0].qty + 1) else list[0]] + Bump(list[1..], id)
  }

  /** `addToList`: an item already in the cart gains one unit in place; a new one is
      appended with quantity 1. */
  function AddToList(list: seq<CartItem>, item: NewItem): (r: seq<CartItem>)
    ensures HasId(list, item.productId) ==> r == Bump(list, item.productId)
    ensures !HasId(list, item.productId) ==>
              r == list + [CartItem(item.productId, item.name, item.price, item.photo, 1)]
    ensures forall id :: HasId(r, id) <==> HasId(list, id) || id == item.productId
  {
    if HasId(list, item.productId) then
      var r := Bump(list, item.productId);
      assert forall id :: HasId(r, id) ==> HasId(list, id) by {
        forall id | HasId(r, id) ensures HasId(list, id) {
          var x :| x in r && x.productId == id;
          var i :| 0 <= i < |r| && r[i] == x;
          assert list[i] in list;
        }
      }
      assert forall id :: HasId(list, id) ==> HasId(r, id) by {
        forall id | HasId(list, id) ensures HasId(r, id) {
          var x :| x in list && x.productId == id;
          var i :| 0 <= i < |list| && list[i] == x;
          assert r[i] in r;
        }
      }
      r
    else
      var r := list + [CartItem(item.productId, item.name, item.price, item.photo, 1)];
      assert r[|list|] in r;
      r
  }

  /** Adding never creates a second entry for a product. */
  lemma AddToListDistinct(list: seq<CartItem>, item: NewItem)
    requires DistinctIds(list)
    ensures DistinctIds(AddToList(list, item))
  {
    var r := AddToList(list, item);
    if !HasId(list, item.productId) {
      forall i, j | 0 <= i < j < |r| ensures r[i].productId != r[j].productId {
        if j == |list| {
          assert r[i] == list[i] && list[i] in list;
        }
      }
    }
  }

  lemma {:induction false} BumpSums(list: seq<CartItem>, id: string)
    ensures Count(Bump(list, id)) == Count(list) + Occurrences(list, id)
    ensures Total(Bump(list, id)) == Total(list) + PriceOf(list, id)
  {
    if list != [] {
      BumpSums(list[1..], id);
      assert Bump(list, id)[1..] == Bump(list[1..], id);
    }
  }

  lemma {:induction false} SingleOccurrence(list: seq<CartItem>, id: string)
    requires DistinctIds(list)
    requires HasId(list, id)
    ensures Occurrences(list, id) == 1
  {
    if list[0].productId == id {
      AbsentNoOccurrences(list[1..], id);
    } else {
      var x :| x in list && x.productId == id;
      assert x in list[1..];
      SingleOccurrence(list[1..], id);
    }
  }

  lemma {:induction false} AbsentNoOccurrences(list: seq<CartItem>, id: string)
    requires forall x :: x in list ==> x.productId != id
    ensures Occurrences(list, id) == 0 && PriceOf(list, id) == 0 && QtyOf(list, id) == 0 && TotalOf(list, id) == 0
  {
    if list != [] {
      assert forall x :: x in list[1..] ==> x in list;
      AbsentNoOccurrences(list[1..], id);
    }
  }

  lemma {:induction false} DistinctTail(list: seq<CartItem>)
    requires list != [] && DistinctIds(list)
    ensures DistinctIds(list[1..]) && forall x :: x in list[1..] ==> x.productId != list[0].productId
  {
    forall x | x in list[1..] ensures x.productId != list[0].productId {
      var j :| 0 <= j < |list[1..]| && list[1..][j] == x;
      assert list[j + 1] == x;
    }
  }

  /** Adding one unit raises the item count by exactly one, and the total by that item's
      price (its stored price when it was already in the cart). */
  lemma {:induction false} AddToListSums(list: seq<CartItem>, item: NewItem)
    requires DistinctIds(list)
    ensures Count(AddToList(list, item)) == Count(list) + 1
    ensures Total(AddToList(list, item)) == Total(list) + (if HasId(list, item.productId) then PriceOf(list, item.productId) else item.price)
  {
    if HasId(list, item.productId) {
      BumpSums(list, item.productId);
      SingleOccurrence(list, item.productId);
    } else {
      SumsSnoc(list, CartItem(item.productId, item.name, item.price, item.photo, 1));
    }
  }

  lemma {:induction false} SumsSnoc(list: seq<CartItem>, x: CartItem)
    ensures Count(list + [x]) == Count(list) + x.qty
    ensures Total(list + [x]) == Total(list) + x.price * x.qty
  {
    if list == [] {
      assert list + [x] == [x];
    } else {
      assert (list + [x])[1..] == list[1..] + [x];
      SumsSnoc(list[1..], x);
    }
  }

  /** `removeItem`'s filter: every item not carrying `id`, in order. */
  function Remove(list: seq<CartItem>, id: string): (r: seq<CartItem>)
    ensures forall x :: x in r <==> x in list && x.productId != id
    ensures |r| <= |list|
  {
    if list == [] then []
    else (if list[0].productId == id then [] else [list[0]]) + Remove(list[1..], id)
  }

  /** Removing a product takes exactly its units and its value out of the cart. */
  lemma {:induction false} RemoveSums(list: seq<CartItem>, id: string)
    ensures Count(Remove(list, id)) == Count(list) - QtyOf(list, id)
    ensures Total(Remove(list, id)) == Total(list) - TotalOf(list, id)
  {
    if list != [] {
      RemoveSums(list[1..], id);
      if list[0].productId != id {
        assert Remove(list, id) == [list[0]] + Remove(list[1..], id);
        assert ([list[0]] + Remove(list[1..], id))[1..] == Remove(list[1..], id);
      } else {
        assert Remove(list, id) == Remove(list[1..], id);
      }
    }
  }

  /** `updateQty`'s map: the `id` items get `max(1, qty + delta)`. */
  function Adjust(list: seq<CartItem>, id: string, delta: int): (r: seq<CartItem>)
    ensures |r| == |list|
    ensures forall i :: 0 <= i < |r| ==> r[i].productId == list[i].productId
    ensures forall i :: 0 <= i < |r| && list[i].productId != id ==> r[i] == list[i]
    ensures forall i :: 0 <= i < |r| && list[i].productId == id ==>
              r[i] == list[i].(qty := if list[i].qty + delta > 1 then list[i].qty + delta else 1)
  {
    if list == [] then []
    else
      [if list[0].productId == id then list[0].(qty := if list[0].qty + delta > 1 then list[0].qty + delta else 1)
       else list[0]] + Adjust(list[1..], id, delta)
  }

  /** `updateQty`'s filter: the items whose quantity is positive, in order. */
  function PositiveQty(list: seq<CartItem>): (r: seq<CartItem>)
    ensures forall x :: x in r <==> x in list && x.qty > 0
  {
    if list == [] then []
    else (if list[0].qty > 0 then [list[0]] else []) + PositiveQty(list[1..])
  }

  lemma {:induction false} PositiveQtyKeepsAll(list: seq<CartItem>)
    requires forall x :: x in list ==> x.qty > 0
    ensures PositiveQty(list) == list
  {
    if list != [] {
      assert forall x :: x in list[1..] ==> x in list;
      PositiveQtyKeepsAll(list[1..]);
      assert list == [list[0]] + list[1..];
    }
  }

  /** `updateQty`: the `id` items get `max(1, qty + delta)`, then items whose quantity is
      not positive are dropped. */
  function UpdateQty(list: seq<CartItem>, id: string, delta: int): (r: seq<CartItem>)
    ensures forall x :: x in r ==> x.qty > 0
  {
    PositiveQty(Adjust(list, id, delta))
  }

  /** The changed product keeps at least one unit: its new quantity is `max(1, qty + delta)`
      of an entry it had before. */
  lemma UpdateQtyChanged(list: seq<CartItem>, id: string, delta: int)
    ensures forall x :: x in UpdateQty(list, id, delta) && x.productId == id ==>
              exists y :: y in list && y.productId == id && x.qty == (if y.qty + delta > 1 then y.qty + delta else 1)
  {
    var adjusted := Adjust(list, id, delta);
    forall x | x in PositiveQty(adjusted) && x.productId == id
      ensures exists y :: y in list && y.productId == id && x.qty == (if y.qty + delta > 1 then y.qty + delta else 1)
    {
      var i :| 0 <= i < |adjusted| && adjusted[i] == x;
      assert list[i] in list;
    }
  }

  /** Every other item with a positive quantity is kept as it was. */
  lemma UpdateQtyKeepsOthers(list: seq<CartItem>, id: string, delta: int)
    ensures forall x :: x in list && x.productId != id && x.qty > 0 ==> x in UpdateQty(list, id, delta)
  {
    var adjusted := Adjust(list, id, delta);
    forall x | x in list && x.productId != id && x.qty > 0 ensures x in PositiveQty(adjusted) {
      var i :| 0 <= i < |list| && list[i] == x;
      assert adjusted[i] == x;
      assert adjusted[i] in adjusted;
    }
  }

  /** On a cart whose quantities are all positive, nothing is dropped: the result is the
      cart with only that product's quantity moved. */
  lemma UpdateQtyDropsNothing(list: seq<CartItem>, id: string, delta: int)
    requires forall x :: x in list ==> x.qty > 0
    ensures UpdateQty(list, id, delta) == Adjust(list, id, delta)
  {
    var adjusted := Adjust(list, id, delta);
    forall x | x in adjusted ensures x.qty > 0 {
      var i :| 0 <= i < |adjusted| && adjusted[i] == x;
      assert list[i] in list;
    }
    PositiveQtyKeepsAll(adjusted);
  }

  /** The hook's state: the rendered items and what local storage holds. */
  class CartHook {
    var items: seq<CartItem>
    var stored: Option<seq<StoredItem>>

    constructor (stored: Option<seq<StoredItem>>)
      ensures this.stored == stored && items == Load(stored)
    {
      this.stored := stored;
      items := Load(stored);
    }

    /** `persist(next)`: the rendered items and local storage both become `next`. */
    method Persist(next: seq<CartItem>)
      modifies this
      ensures items == next && stored == Some(Save(next))
    {
      items := next;
      stored := Some(Save(next));
    }

    method AddItem(item: NewItem)
      modifies this
      ensures items == AddToList(Load(old(stored)), item) && stored == Some(Save(items))
    {
      Persist(AddToList(Load(stored), item));
    }

    method RemoveItem(productId: string)
      modifies this
      ensures items == Remove(Load(old(stored)), productId) && stored == Some(Save(items))
    {
      Persist(Remove(Load(stored), productId));
    }

    method UpdateItemQty(productId: string, delta: int)
      modifies this
      ensures items == UpdateQty(Load(old(stored)), productId, delta) && stored == Some(Save(items))
    {
      Persist(UpdateQty(Load(stored), productId, delta));
    }

    method Clear()
      modifies this
      ensures items == [] && stored == Some([]) && Count(items) == 0 && Total(items) == 0
    {
      Persist([]);
    }
  }
}
