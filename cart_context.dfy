/** The shopping cart kept by the front end's cart context
    (frontend/src/context/CartContext.jsx): a list of cart lines that add, remove,
    update and clear replace, and two folds over it. */
module CartContext {
  import opened Wrappers

  /** A cart line as the services page builds it. Dimensions are a number or
      `null`; `cartItemId` is absent until the line enters the cart. */
  datatype CartItem = CartItem(
    service: int,
    serviceName: string,
    serviceType: string,
    basePrice: Option<real>,
    description: string,
    quantity: int,
    lengthDimensions: Option<real>,
    widthDimensions: Option<real>,
    heightDimensions: Option<real>,
    needsCustomDesign: bool,
    designFile: Option<string>,
    customerPhone: string,
    additionalNotes: string,
    estimatedUnitPrice: Option<real>,
    cartItemId: Option<real>)

  /** Two lines merge when the service and all three dimensions are strictly equal;
      the description and everything else are ignored. */
  predicate SameLine(a: CartItem, b: CartItem) {
    a.service == b.service && a.lengthDimensions == b.lengthDimensions
    && a.widthDimensions == b.widthDimensions && a.heightDimensions == b.heightDimensions
  }

  /** `findIndex` of the first line that merges with `item`. */
  function FindLine(items: seq<CartItem>, item: CartItem): (k: Option<nat>)
    ensures k.Some? ==> (k.value < |items| && SameLine(items[k.value], item)
      && forall j :: 0 <= j < k.value ==> !SameLine(items[j], item))
    ensures k.None? <==> forall j :: 0 <= j < |items| ==> !SameLine(items[j], item)
  {
    if items == [] then None
    else if SameLine(items[0], item) then Some(0)
    else
      var k := FindLine(items[1..], item);
      if k.Some? then Some(k.value + 1) else None
  }

  /** The cart after `addToCart(item)`, with `freshId` standing for
      `Date.now() + Math.random()`. */
  function Added(items: seq<CartItem>, item: CartItem, freshId: real): seq<CartItem> {
    match FindLine(items, item)
    case Some(k) => items[k := items[k].(quantity := items[k].quantity + item.quantity)]
    case None => items + [item.(cartItemId := Some(freshId))]
  }

  /** The cart after `removeFromCart(id)`: the lines with another id, in order. */
  function Without(items: seq<CartItem>, id: real): seq<CartItem>
    decreases |items|
  {
    if items == [] then []
    else
      var last := items[|items| - 1];
      Without(items[..|items| - 1], id) + (if last.cartItemId != Some(id) then [last] else [])
  }

  /** The `map` in `updateQuantity`: the lines with that id get the new quantity. */
  function WithQuantity(items: seq<CartItem>, id: real, q: int): (r: seq<CartItem>)
    ensures |r| == |items|
    ensures forall i :: 0 <= i < |items| ==>
      r[i] == if items[i].cartItemId == Some(id) then items[i].(quantity := q) else items[i]
  {
    if items == [] then []
    else
      var first := if items[0].cartItemId == Some(id) then items[0].(quantity := q) else items[0];
      [first] + WithQuantity(items[1..], id, q)
  }

  /** The cart after `updateQuantity(id, q)`. */
  function QuantityUpdated(items: seq<CartItem>, id: real, q: int): seq<CartItem> {
    if q <= 0 then Without(items, id) else WithQuantity(items, id, q)
  }

  /** The price `calculateTotal` uses for one line:
      `estimated_unit_price || base_price || 0`. */
  function LineUnitPrice(item: CartItem): real {
    if Truthy(item.estimatedUnitPrice) then item.estimatedUnitPrice.value
    else RealOr(item.basePrice, 0.0)
  }

  /** `calculateTotal`: the left fold of unit price times quantity; no design charge. */
  function Total(items: seq<CartItem>): real
    decreases |items|
  {
    if items == [] then 0.0
    else
      var last := items[|items| - 1];
      Total(items[..|items| - 1]) + LineUnitPrice(last) * last.quantity as real
  }

  /** `getCartItemCount`: the left fold of the quantities. */
  function ItemCount(items: seq<CartItem>): int
    decreases |items|
  {
    if items == [] then 0
    else ItemCount(items[..|items| - 1]) + items[|items| - 1].quantity
  }

  /** Adding merges into the first matching line, leaving every other line as it
      was, or appends the item once with the fresh id; the cart grows by at most one. */
  lemma AddedShape(items: seq<CartItem>, item: CartItem, freshId: real)
    ensures var r := Added(items, item, freshId);
      (|r| == |items| <==> exists j :: 0 <= j < |items| && SameLine(items[j], item))
      && (|r| == |items| || |r| == |items| + 1)
      && (|r| == |items| + 1 ==> r[..|items|] == items && r[|items|] == item.(cartItemId := Some(freshId)))
      && (|r| == |items| ==> exists k :: (0 <= k < |items| && SameLine(items[k], item)
            && r[k] == items[k].(quantity := items[k].quantity + item.quantity)
            && forall j :: 0 <= j < |items| && j != k ==> r[j] == items[j]))
  {
    var k := FindLine(items, item);
    if k.Some? {
      assert SameLine(items[k.value], item);
    }
  }

  /** Totals over a concatenation. */
  lemma {:induction false} FoldsConcat(a: seq<CartItem>, b: seq<CartItem>)
    ensures ItemCount(a + b) == ItemCount(a) + ItemCount(b)
    ensures Total(a + b) == Total(a) + Total(b)
    decreases |b|
  {
    if b == [] {
      assert a + b == a;
    } else {
      var n := |b| - 1;
      assert (a + b)[..|a + b| - 1] == a + b[..n];
      FoldsConcat(a, b[..n]);
    }
  }

  /** Changing one line's quantity shifts the item count by the difference. */
  lemma {:induction false} ItemCountUpdate(items: seq<CartItem>, k: nat, q: int)
    requires k < |items|
    ensures ItemCount(items[k := items[k].(quantity := q)]) == ItemCount(items) - items[k].quantity + q
    decreases |items|
  {
    var n := |items| - 1;
    var r := items[k := items[k].(quantity := q)];
    if k == n {
      assert r[..n] == items[..n];
    } else {
      assert r[..n] == items[..n][k := items[k].(quantity := q)];
      ItemCountUpdate(items[..n], k, q);
    }
  }

  /** Adding an item raises the item count by exactly its quantity. */
  lemma AddRaisesItemCount(items: seq<CartItem>, item: CartItem, freshId: real)
    ensures ItemCount(Added(items, item, freshId)) == ItemCount(items) + item.quantity
  {
    match FindLine(items, item)
    case Some(k) =>
      ItemCountUpdate(items, k, items[k].quantity + item.quantity);
    case None =>
      FoldsConcat(items, [item.(cartItemId := Some(freshId))]);
      assert ItemCount([item.(cartItemId := Some(freshId))]) == item.quantity;
  }

  /** Removing keeps exactly the lines with another id, in their order. */
  lemma {:induction false} WithoutKeepsOthers(items: seq<CartItem>, id: real)
    ensures forall x :: x in Without(items, id) <==> x in items && x.cartItemId != Some(id)
    decreases |items|
  {
    if items != [] {
      var n := |items| - 1;
      WithoutKeepsOthers(items[..n], id);
      assert items == items[..n] + [items[n]];
    }
  }

  /** Removal distributes over concatenation, so relative order is preserved. */
  lemma {:induction false} WithoutConcat(a: seq<CartItem>, b: seq<CartItem>, id: real)
    ensures Without(a + b, id) == Without(a, id) + Without(b, id)
    decreases |b|
  {
    if b == [] {
      assert a + b == a;
    } else {
      var n := |b| - 1;
      assert (a + b)[..|a + b| - 1] == a + b[..n];
      WithoutConcat(a, b[..n], id);
    }
  }

  /** A quantity of zero or less removes every line with that id; a positive one
      keeps the lines and their order and changes only the quantity of the lines
      with that id. */
  lemma UpdateQuantityShape(items: seq<CartItem>, id: real, q: int)
    ensures q <= 0 ==> forall x :: x in QuantityUpdated(items, id, q) ==> x in items && x.cartItemId != Some(id)
    ensures q > 0 ==> |QuantityUpdated(items, id, q)| == |items|
    ensures q > 0 ==> forall i :: 0 <= i < |items| ==>
      var r := QuantityUpdated(items, id, q);
      r[i].cartItemId == items[i].cartItemId
      && (items[i].cartItemId == Some(id) ==> r[i].quantity == q)
      && (items[i].cartItemId != Some(id) ==> r[i] == items[i])
  {
    if q <= 0 {
      WithoutKeepsOthers(items, id);
    }
  }

  /** The cart itself: the state of the cart context. */
  class Cart {
    var cartItems: seq<CartItem>

    /** An empty cart, before anything is loaded from storage. */
    constructor ()
      ensures cartItems == []
    {
      cartItems := [];
    }

    /** `addToCart`: search for a line to merge into; add the quantity there, or
        append the item with a fresh id. */
    method AddToCart(item: CartItem, freshId: real)
      modifies this
      ensures cartItems == Added(old(cartItems), item, freshId)
      ensures ItemCount(cartItems) == ItemCount(old(cartItems)) + item.quantity
    {
      AddRaisesItemCount(cartItems, item, freshId);
      var i := 0;
      while i < |cartItems| && !SameLine(cartItems[i], item)
        invariant 0 <= i <= |cartItems|
        invariant forall j :: 0 <= j < i ==> !SameLine(cartItems[j], item)
      {
        i := i + 1;
      }
      if i < |cartItems| {
        assert FindLine(cartItems, item) == Some(i);
        cartItems := cartItems[i := cartItems[i].(quantity := cartItems[i].quantity + item.quantity)];
      } else {
        cartItems := cartItems + [item.(cartItemId := Some(freshId))];
      }
    }

    /** `removeFromCart`. */
    method RemoveFromCart(id: real)
      modifies this
      ensures cartItems == Without(old(cartItems), id)
    {
      cartItems := Without(cartItems, id);
    }

    /** `updateQuantity`: a quantity of zero or less removes the line. */
    method UpdateQuantity(id: real, q: int)
      modifies this
      ensures cartItems == QuantityUpdated(old(cartItems), id, q)
    {
      if q <= 0 {
        RemoveFromCart(id);
        return;
      }
      cartItems := WithQuantity(cartItems, id, q);
    }

    /** `clearCart`. */
    method ClearCart()
      modifies this
      ensures cartItems == []
    {
      cartItems := [];
    }

    /** `calculateTotal`. */
    function CalculateTotal(): real
      reads this
    {
      Total(cartItems)
    }

    /** `getCartItemCount`. */
    function GetCartItemCount(): int
      reads this
    {
      ItemCount(cartItems)
    }
  }
}
