/** The cart and order-list views of the services API (backend/services/views.py):
    pricing a cart item, totalling a cart, and listing a customer's orders. */
module ServiceViews {
  import opened Wrappers
  import opened Pricing

  /** The active service with that id, as `TypeService.objects.get(id=..., active=True)`. */
  function FindActiveService(services: seq<Service>, id: int): (r: Option<Service>)
    ensures r.Some? ==> r.value in services && r.value.id == id && r.value.active
    ensures r.None? ==> forall s :: s in services ==> !(s.id == id && s.active)
  {
    if services == [] then None
    else if services[0].id == id && services[0].active then Some(services[0])
    else FindActiveService(services[1..], id)
  }

  /** The validated body of an add-to-cart request. */
  datatype CartRequest = CartRequest(
    serviceId: int,
    description: string,
    quantity: nat,
    lengthDimensions: Option<real>,
    widthDimensions: Option<real>,
    heightDimensions: Option<real>,
    needsCustomDesign: bool,
    customDesignPrice: Option<real>)

  /** The unsaved `OrderItem` built only to be priced: the request's dimensions and
      design choice over the model defaults. */
  function TempItem(service: Service, quantity: nat, length: Option<real>, width: Option<real>,
                    height: Option<real>, needsCustomDesign: bool, customDesignPrice: Option<real>): (r: ItemRow)
    ensures r.service == Some(service) && r.quantity == quantity
    ensures r.estimatedUnitPrice == None && r.finalUnitPrice == None
  {
    NewItemRow(Some(service), "").(quantity := quantity, lengthDimensions := length,
      widthDimensions := width, heightDimensions := height,
      needsCustomDesign := needsCustomDesign, customDesignPrice := customDesignPrice)
  }

  /** The `cart_item` of a successful response. */
  datatype CartItemData = CartItemData(
    serviceId: nat,
    serviceName: string,
    serviceType: string,
    description: string,
    quantity: nat,
    lengthDimensions: Option<real>,
    widthDimensions: Option<real>,
    heightDimensions: Option<real>,
    needsCustomDesign: bool,
    customDesignPrice: Option<real>,
    estimatedUnitPrice: real,
    estimatedTotalPrice: real)

  datatype AddItemResponse = BadRequest(errors: string) | NotFound(error: string) | Added(item: CartItemData)

  /** `AddItemToCartView.post`. `validated` is the outcome of the request's
      serializer, whose rules are not part of this model. */
  method AddItemToCart(validated: Result<CartRequest, string>, services: seq<Service>) returns (resp: AddItemResponse)
    ensures validated.Err? ==> resp == BadRequest(validated.error)
    ensures validated.Ok? && FindActiveService(services, validated.value.serviceId).None? ==>
      resp == NotFound("Service not found")
    ensures validated.Ok? && FindActiveService(services, validated.value.serviceId).Some? ==>
      var req := validated.value;
      var service := FindActiveService(services, req.serviceId).value;
      var temp := TempItem(service, req.quantity, req.lengthDimensions, req.widthDimensions,
                           req.heightDimensions, req.needsCustomDesign, req.customDesignPrice);
      resp.Added? && resp.item.serviceId == service.id && resp.item.quantity == req.quantity
      && resp.item.description == req.description
      && resp.item.estimatedUnitPrice == CalculateServicePrice(temp)
      && resp.item.estimatedTotalPrice
         == EstimatedTotalWithDesign(temp.(estimatedUnitPrice := Some(CalculateServicePrice(temp))))
  {
    if validated.Err? {
      return BadRequest(validated.error);
    }
    var req := validated.value;
    var found := FindActiveService(services, req.serviceId);
    if found.None? {
      return NotFound("Service not found");
    }
    var service := found.value;
    var temp := TempItem(service, req.quantity, req.lengthDimensions, req.widthDimensions,
                         req.heightDimensions, req.needsCustomDesign, req.customDesignPrice);
    var estimatedPrice := CalculateServicePrice(temp) * req.quantity as real;
    if temp.needsCustomDesign && Truthy(temp.customDesignPrice) {
      estimatedPrice := estimatedPrice + temp.customDesignPrice.value;
    }
    var data := CartItemData(service.id, service.name, service.serviceType, req.description, req.quantity,
      req.lengthDimensions, req.widthDimensions, req.heightDimensions, temp.needsCustomDesign,
      temp.customDesignPrice, CalculateServicePrice(temp), estimatedPrice);
    resp := Added(data);
  }

  /** The `quantity` key of an entry: absent, an explicit `null`, or a number. */
  datatype QuantityKey = NoQuantity | NullQuantity | Quantity(n: int)

  /** One entry of `cart_items`, as parsed JSON. `serviceId` is `None` for a missing
      or `null` key; any other missing key is `None`. An entry that is not a JSON
      object is `NotAnObject`. */
  datatype CartEntry =
    | CartEntry(
        serviceId: Option<int>,
        quantity: QuantityKey,
        lengthDimensions: Option<real>,
        widthDimensions: Option<real>,
        heightDimensions: Option<real>,
        needsCustomDesign: Option<bool>,
        customDesignPrice: Option<real>)
    | NotAnObject

  /** What one turn of the loop does with an entry: skip it (a lookup error the
      handler catches), raise an uncaught `TypeError`, or add a price and a quantity. */
  datatype Contribution = Skipped | Raises | Adds(price: real, quantity: int)

  /** Whether an object entry names an active service. */
  predicate Found(entry: CartEntry, services: seq<Service>) {
    entry.CartEntry? && entry.serviceId.Some? && FindActiveService(services, entry.serviceId.value).Some?
  }

  /** The contribution of one entry. Indexing a non-object raises `TypeError`; a
      missing `service_id` or one that names no active service is skipped; a `null`
      quantity of a found service makes the multiplication raise `TypeError`; an
      absent quantity is 1. */
  function EntryContribution(entry: CartEntry, services: seq<Service>): (c: Contribution)
    ensures c.Raises? <==> (entry.NotAnObject? || (Found(entry, services) && entry.quantity.NullQuantity?))
    ensures c.Skipped? <==> (entry.CartEntry? && !Found(entry, services))
    ensures c.Adds? ==> c.quantity == (if entry.quantity.Quantity? then entry.quantity.n else 1)
  {
    if entry.NotAnObject? then Raises
    else if entry.serviceId.None? then Skipped
    else
      match FindActiveService(services, entry.serviceId.value)
      case None => Skipped
      case Some(service) =>
        if entry.quantity.NullQuantity? then Raises
        else
          var quantity := if entry.quantity.Quantity? then entry.quantity.n else 1;
          var needs := entry.needsCustomDesign.Some? && entry.needsCustomDesign.value;
          var temp := TempItem(service, 1, entry.lengthDimensions, entry.widthDimensions,
                               entry.heightDimensions, needs, entry.customDesignPrice);
          Adds(CalculateServicePrice(temp) * quantity as real + DesignCharge(temp), quantity)
  }

  /** The request's outcome: the two totals, or an uncaught exception. */
  datatype Totals = Totals(price: real, items: int) | Crashed

  /** The totals over the non-skipped entries, or `Crashed` when an entry raises. */
  function CartTotals(entries: seq<CartEntry>, services: seq<Service>): Totals {
    if entries == [] then Totals(0.0, 0)
    else
      var before := CartTotals(entries[..|entries| - 1], services);
      match EntryContribution(entries[|entries| - 1], services)
      case Raises => Crashed
      case Skipped => before
      case Adds(p, q) => if before.Crashed? then Crashed else Totals(before.price + p, before.items + q)
  }

  /** The `breakdown` of the response. */
  datatype Breakdown = Breakdown(subtotal: real, tax: real, total: real)

  /** The tax breakdown of a total: the subtotal is the total without the 8% tax. */
  function BreakdownOf(total: real): (b: Breakdown)
    ensures b.subtotal + b.tax == b.total == total
    ensures b.subtotal * 1.08 == total
  {
    Breakdown(total / 1.08, total - total / 1.08, total)
  }

  /** The response of `CalculateCartTotalView.post`: 200 with the totals, or the
      server error of an uncaught exception. */
  datatype TotalResponse = TotalOk(totalEstimated: real, totalItems: int, breakdown: Breakdown) | ServerError

  /** `CalculateCartTotalView.post`: add up the price and quantity of every entry,
      skipping entries whose lookup fails and stopping at an uncaught exception. */
  method CalculateCartTotal(entries: seq<CartEntry>, services: seq<Service>) returns (resp: TotalResponse)
    ensures CartTotals(entries, services).Crashed? <==> resp.ServerError?
    ensures resp.TotalOk? ==> Totals(resp.totalEstimated, resp.totalItems) == CartTotals(entries, services)
    ensures resp.TotalOk? ==> resp.breakdown == BreakdownOf(resp.totalEstimated)
  {
    var totalEstimated, totalItems := 0.0, 0;
    var i := 0;
    while i < |entries|
      invariant 0 <= i <= |entries|
      invariant Totals(totalEstimated, totalItems) == CartTotals(entries[..i], services)
    {
      assert entries[..i + 1][..i] == entries[..i];
      var contribution := EntryContribution(entries[i], services);
      if contribution.Raises? {
        CrashedStaysCrashed(entries[..i + 1], entries[i + 1..], services);
        assert entries[..i + 1] + entries[i + 1..] == entries;
        return ServerError;
      }
      if contribution.Skipped? {
        i := i + 1;
        continue;
      }
      totalEstimated := totalEstimated + contribution.price;
      totalItems := totalItems + contribution.quantity;
      i := i + 1;
    }
    assert entries[..i] == entries;
    resp := TotalOk(totalEstimated, totalItems, BreakdownOf(totalEstimated));
  }

  /** Once an entry raises, no later entry brings the request back. */
  lemma {:induction false} CrashedStaysCrashed(a: seq<CartEntry>, b: seq<CartEntry>, services: seq<Service>)
    requires CartTotals(a, services).Crashed?
    ensures CartTotals(a + b, services).Crashed?
  {
    if b == [] {
      assert a + b == a;
    } else {
      assert (a + b)[..|a + b| - 1] == a + b[..|b| - 1];
      CrashedStaysCrashed(a, b[..|b| - 1], services);
    }
  }

  /** The request crashes exactly when some entry raises. */
  lemma {:induction false} CrashedIff(entries: seq<CartEntry>, services: seq<Service>)
    ensures CartTotals(entries, services).Crashed? <==>
      exists i :: 0 <= i < |entries| && EntryContribution(entries[i], services).Raises?
  {
    if entries != [] {
      var n := |entries| - 1;
      CrashedIff(entries[..n], services);
      assert forall i :: 0 <= i < n ==> entries[..n][i] == entries[i];
    }
  }

  /** The totals of two lists of entries add up when neither crashes. */
  lemma {:induction false} CartTotalsConcat(a: seq<CartEntry>, b: seq<CartEntry>, services: seq<Service>)
    ensures CartTotals(a + b, services).Crashed? <==> CartTotals(a, services).Crashed? || CartTotals(b, services).Crashed?
    ensures CartTotals(a + b, services).Totals? ==>
      CartTotals(a + b, services).price == CartTotals(a, services).price + CartTotals(b, services).price
      && CartTotals(a + b, services).items == CartTotals(a, services).items + CartTotals(b, services).items
  {
    if b == [] {
      assert a + b == a;
    } else {
      assert (a + b)[..|a + b| - 1] == a + b[..|b| - 1];
      CartTotalsConcat(a, b[..|b| - 1], services);
    }
  }

  /** A skipped entry adds neither price nor quantity, wherever it sits. */
  lemma SkippedEntryAddsNothing(a: seq<CartEntry>, e: CartEntry, b: seq<CartEntry>, services: seq<Service>)
    requires EntryContribution(e, services).Skipped?
    ensures CartTotals(a + [e] + b, services) == CartTotals(a + b, services)
  {
    assert [e][..0] == [];
    assert CartTotals([e], services) == Totals(0.0, 0);
    CartTotalsConcat(a, [e], services);
    assert CartTotals(a + [e], services) == CartTotals(a, services);
    CartTotalsConcat(a + [e], b, services);
    CartTotalsConcat(a, b, services);
  }

  /** An entry with no quantity key counts once in `total_items`. */
  lemma MissingQuantityCountsOne(e: CartEntry, services: seq<Service>)
    requires EntryContribution(e, services).Adds? && e.quantity.NoQuantity?
    ensures EntryContribution(e, services).quantity == 1
  {
  }

  /** An entry with an explicit `null` quantity for an active service ends the
      whole request in a server error, whatever the other entries hold. */
  lemma NullQuantityCrashes(a: seq<CartEntry>, e: CartEntry, b: seq<CartEntry>, services: seq<Service>)
    requires Found(e, services) && e.quantity.NullQuantity?
    ensures CartTotals(a + [e] + b, services).Crashed?
  {
    assert [e][..0] == [];
    CartTotalsConcat(a, [e], services);
    CartTotalsConcat(a + [e], b, services);
  }

  /** A listed order, as far as the customer list reads it. */
  datatype OrderEntry = OrderEntry(orderNumber: string, customerEmail: string, createdAt: int)

  /** The orders with that customer e-mail, in their stored order. */
  function WithEmail(orders: seq<OrderEntry>, email: string): (r: seq<OrderEntry>)
    ensures forall o :: o in r <==> o in orders && o.customerEmail == email
    ensures |r| <= |orders|
  {
    if orders == [] then []
    else (if orders[0].customerEmail == email then [orders[0]] else []) + WithEmail(orders[1..], email)
  }

  predicate NewestFirst(s: seq<OrderEntry>) {
    forall i, j :: 0 <= i < j < |s| ==> s[i].createdAt >= s[j].createdAt
  }

  /** Inserts an order into a newest-first list. */
  function InsertNewestFirst(o: OrderEntry, s: seq<OrderEntry>): (r: seq<OrderEntry>)
    ensures multiset(r) == multiset(s) + multiset{o}
    ensures |r| == |s| + 1 && (r[0] == o || (s != [] && r[0] == s[0]))
  {
    if s == [] || o.createdAt >= s[0].createdAt then [o] + s
    else
      assert s == [s[0]] + s[1..];
      [s[0]] + InsertNewestFirst(o, s[1..])
  }

  /** Inserting into a newest-first list keeps it newest first. */
  lemma {:induction false} InsertKeepsNewestFirst(o: OrderEntry, s: seq<OrderEntry>)
    requires NewestFirst(s)
    ensures NewestFirst(InsertNewestFirst(o, s))
  {
    if s == [] || o.createdAt >= s[0].createdAt {
      PrependKeepsNewestFirst(o, s);
    } else {
      var tail := s[1..];
      TailNewestFirst(s);
      InsertKeepsNewestFirst(o, tail);
      PrependKeepsNewestFirst(s[0], InsertNewestFirst(o, tail));
    }
  }

  /** The tail of a newest-first list is newest first. */
  lemma TailNewestFirst(s: seq<OrderEntry>)
    requires NewestFirst(s) && s != []
    ensures NewestFirst(s[1..])
  {
    forall i, j | 0 <= i < j < |s| - 1
      ensures s[1..][i].createdAt >= s[1..][j].createdAt
    {
      assert s[1..][i] == s[i + 1] && s[1..][j] == s[j + 1];
    }
  }

  /** Putting an order in front of a newest-first list that holds nothing newer
      keeps it newest first. */
  lemma PrependKeepsNewestFirst(x: OrderEntry, rest: seq<OrderEntry>)
    requires NewestFirst(rest) && (rest == [] || rest[0].createdAt <= x.createdAt)
    ensures NewestFirst([x] + rest)
  {
    var r := [x] + rest;
    forall i, j | 0 <= i < j < |r|
      ensures r[i].createdAt >= r[j].createdAt
    {
      assert r[j] == rest[j - 1];
      if i > 0 {
        assert r[i] == rest[i - 1];
      } else if j > 1 {
        assert rest[0].createdAt >= rest[j - 1].createdAt;
      }
    }
  }

  /** `order_by('-created_at')`. Orders created at the same instant may come in any
      order from the database; this model fixes one. */
  function SortNewestFirst(s: seq<OrderEntry>): (r: seq<OrderEntry>)
    ensures NewestFirst(r) && multiset(r) == multiset(s)
  {
    if s == [] then []
    else
      assert s == [s[0]] + s[1..];
      var sorted := SortNewestFirst(s[1..]);
      InsertKeepsNewestFirst(s[0], sorted);
      InsertNewestFirst(s[0], sorted)
  }

  /** `OrderListByCustomerView.get_queryset`: no orders without an `email` parameter;
      otherwise the orders with that e-mail, newest first. */
  function OrderListByCustomer(orders: seq<OrderEntry>, email: Option<string>): (r: seq<OrderEntry>)
    ensures !TruthyStr(email) ==> r == []
    ensures TruthyStr(email) ==> NewestFirst(r) && multiset(r) == multiset(WithEmail(orders, email.value))
  {
    if TruthyStr(email) then SortNewestFirst(WithEmail(orders, email.value)) else []
  }

  /** The customer list holds exactly the orders placed with that e-mail. */
  lemma CustomerListMembership(orders: seq<OrderEntry>, email: string, o: OrderEntry)
    requires email != ""
    ensures o in OrderListByCustomer(orders, Some(email)) <==> o in orders && o.customerEmail == email
  {
    var r := OrderListByCustomer(orders, Some(email));
    assert o in r <==> o in multiset(r);
    assert o in WithEmail(orders, email) <==> o in multiset(WithEmail(orders, email));
  }
}
