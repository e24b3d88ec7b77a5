/** The stateful part of the services models (backend/services/models.py): an
    order with its stored row and its items, and the item save that prices an item
    and pushes new totals to its order. */
module ServiceModels {
  import opened Wrappers
  import opened Pricing
  import Strings
  import Signals

  /** The first `n` characters of `s` (Python `s[:n]`). */
  function Prefix(s: string, n: nat): (r: string)
    ensures |r| == if |s| < n then |s| else n
    ensures r <= s
  {
    if |s| < n then s else s[..n]
  }

  /** The order number `Order.save` derives from a uuid: its first eight characters
      in upper case. */
  function OrderNumberFrom(uuid: string): (r: string)
    ensures |r| == if |uuid| < 8 then |uuid| else 8
    ensures forall i :: 0 <= i < |r| ==> r[i] == Strings.UpperChar(uuid[i])
    ensures forall i :: 0 <= i < |r| ==> !('a' <= r[i] <= 'z')
  {
    Strings.Upper(Prefix(uuid, 8))
  }

  /** The columns of the stored order row that any code here reads back. */
  datatype OrderRow = OrderRow(
    orderNumber: string,
    state: string,
    estimadedPrice: Option<real>,
    finalPrice: Option<real>)

  /** The sum of the items' estimated totals with design (`get_estimated_total_price`). */
  function SumEstimated(items: seq<ItemRow>): real {
    if items == [] then 0.0
    else SumEstimated(items[..|items| - 1]) + EstimatedTotalWithDesign(items[|items| - 1])
  }

  /** The sum of the items' final totals with design (`get_final_total_price`). */
  function SumFinal(items: seq<ItemRow>): real {
    if items == [] then 0.0
    else SumFinal(items[..|items| - 1]) + FinalTotalWithDesign(items[|items| - 1])
  }

  /** The totals of two item lists add up. */
  lemma {:induction false} SumsOfConcat(a: seq<ItemRow>, b: seq<ItemRow>)
    ensures SumEstimated(a + b) == SumEstimated(a) + SumEstimated(b)
    ensures SumFinal(a + b) == SumFinal(a) + SumFinal(b)
  {
    if b != [] {
      assert (a + b)[..|a + b| - 1] == a + b[..|b| - 1];
      SumsOfConcat(a, b[..|b| - 1]);
    } else {
      assert a + b == a;
    }
  }

  /** Replacing one item changes the order totals by the difference of its totals. */
  lemma {:induction false} SumsOfUpdate(items: seq<ItemRow>, k: nat, row: ItemRow)
    requires k < |items|
    ensures SumEstimated(items[k := row]) == SumEstimated(items)
      - EstimatedTotalWithDesign(items[k]) + EstimatedTotalWithDesign(row)
    ensures SumFinal(items[k := row]) == SumFinal(items)
      - FinalTotalWithDesign(items[k]) + FinalTotalWithDesign(row)
  {
    assert items == items[..k] + [items[k]] + items[k + 1..];
    assert items[k := row] == items[..k] + [row] + items[k + 1..];
    SumsOfConcat(items[..k] + [items[k]], items[k + 1..]);
    SumsOfConcat(items[..k] + [row], items[k + 1..]);
    SumsOfConcat(items[..k], [items[k]]);
    SumsOfConcat(items[..k], [row]);
    assert [items[k]][..0] == [];
    assert [row][..0] == [];
  }

  /** Items with non-negative prices give non-negative order totals. */
  lemma {:induction false} SumsNonNegative(items: seq<ItemRow>)
    requires forall i :: 0 <= i < |items| ==> EstimatedTotalWithDesign(items[i]) >= 0.0
    requires forall i :: 0 <= i < |items| ==> FinalTotalWithDesign(items[i]) >= 0.0
    ensures SumEstimated(items) >= 0.0 && SumFinal(items) >= 0.0
  {
    if items != [] {
      SumsNonNegative(items[..|items| - 1]);
    }
  }

  /** An order. The fields are the in-memory instance; `stored` is its row in the
      database (`None` until the first save), which the pre-save signal reads back
      and `items` are the stored item rows (`self.items.all()`). `estimatedPrice`
      is the attribute `OrderItem.save` assigns: it is not a column. */
  /** The columns only the customer's request writes: the contact details, the
      notes and the creation time. No save or admin action changes them. */
  twostate predicate CustomerColumnsKept(o: Order)
    reads o
  {
    o.customerName == old(o.customerName) && o.customerEmail == old(o.customerEmail)
    && o.customerPhone == old(o.customerPhone) && o.additionalNotes == old(o.additionalNotes)
    && o.createdAt == old(o.createdAt)
  }

  /** The order-number rule of `Order.save`: an empty number becomes the one derived
      from `uuid`, any other number stays. */
  twostate predicate NumberAssigned(o: Order, uuid: string)
    reads o
  {
    o.orderNumber == if old(o.orderNumber) == "" then OrderNumberFrom(uuid) else old(o.orderNumber)
  }

  class Order {
    var orderNumber: string
    var customerName: string
    var customerEmail: string
    var customerPhone: string
    var additionalNotes: string
    var state: string
    var createdAt: int
    var estimadedPrice: Option<real>
    var finalPrice: Option<real>
    var estimatedPrice: Option<real>
    var remembered: Signals.Remembered
    var stored: Option<OrderRow>
    var items: seq<ItemRow>

    /** `Order(...)` before its first save: state 'pending', no prices, no number. */
    constructor (customerName: string, customerEmail: string, customerPhone: string,
                 additionalNotes: string, createdAt: int)
      ensures this.customerName == customerName && this.customerEmail == customerEmail
      ensures this.customerPhone == customerPhone && this.additionalNotes == additionalNotes
      ensures this.createdAt == createdAt
      ensures orderNumber == "" && state == "pending"
      ensures estimadedPrice == None && finalPrice == None && estimatedPrice == None
      ensures stored == None && items == []
    {
      this.customerName := customerName;
      this.customerEmail := customerEmail;
      this.customerPhone := customerPhone;
      this.additionalNotes := additionalNotes;
      this.createdAt := createdAt;
      orderNumber := "";
      state := "pending";
      estimadedPrice := None;
      finalPrice := None;
      estimatedPrice := None;
      remembered := Signals.Remembered(None, None);
      stored := None;
      items := [];
    }

    /** The row the pre-save signal reads back. */
    function StoredSignalRow(): (r: Option<Signals.StoredOrder>)
      reads this
      ensures r.Some? <==> stored.Some?
    {
      match stored
      case Some(row) => Some(Signals.StoredOrder(row.state, row.finalPrice))
      case None => None
    }

    /** The signal pair around every save: remember the stored values, then choose
        the e-mail from them and the instance. */
    method RunSignals(created: bool) returns (email: Signals.EmailKind)
      modifies this`remembered
      ensures remembered == Signals.TrackOrderChanges(!created, StoredSignalRow())
      ensures email == Signals.HandleOrderUpdate(created, remembered, state, finalPrice)
    {
      remembered := Signals.TrackOrderChanges(!created, StoredSignalRow());
      email := Signals.HandleOrderUpdate(created, remembered, state, finalPrice);
    }

    /** `Order.save()`: an empty order number becomes the upper-cased first eight
        characters of the given uuid, then every column is written. */
    method Save(uuid: string) returns (email: Signals.EmailKind)
      modifies this`orderNumber, this`remembered, this`stored
      ensures orderNumber == if old(orderNumber) == "" then OrderNumberFrom(uuid) else old(orderNumber)
      ensures stored == Some(OrderRow(orderNumber, state, estimadedPrice, finalPrice))
      ensures remembered == Signals.TrackOrderChanges(old(stored).Some?, old(StoredSignalRow()))
      ensures email == Signals.HandleOrderUpdate(old(stored).None?, remembered, state, finalPrice)
      ensures state == old(state) && CustomerColumnsKept(this)
    {
      if orderNumber == "" {
        orderNumber := OrderNumberFrom(uuid);
      }
      var created := stored.None?;
      var before := StoredSignalRow();
      remembered := Signals.TrackOrderChanges(!created, before);
      stored := Some(OrderRow(orderNumber, state, estimadedPrice, finalPrice));
      email := Signals.HandleOrderUpdate(created, remembered, state, finalPrice);
    }

    /** `Order.save(update_fields=['estimaded_price', 'final_price'])`: only those two
        columns of the stored row are written; a number generated here stays in
        memory only. */
    method SavePriceFields(uuid: string) returns (email: Signals.EmailKind)
      requires stored.Some?
      modifies this`orderNumber, this`remembered, this`stored
      ensures orderNumber == if old(orderNumber) == "" then OrderNumberFrom(uuid) else old(orderNumber)
      ensures stored == Some(old(stored).value.(estimadedPrice := estimadedPrice, finalPrice := finalPrice))
      ensures remembered == Signals.TrackOrderChanges(true, old(StoredSignalRow()))
      ensures email == Signals.HandleOrderUpdate(false, remembered, state, finalPrice)
      ensures state == old(state) && CustomerColumnsKept(this)
    {
      if orderNumber == "" {
        orderNumber := OrderNumberFrom(uuid);
      }
      var before := StoredSignalRow();
      remembered := Signals.TrackOrderChanges(true, before);
      stored := Some(stored.value.(estimadedPrice := estimadedPrice, finalPrice := finalPrice));
      email := Signals.HandleOrderUpdate(false, remembered, state, finalPrice);
    }

    /** `get_estimated_total_price`: the items' estimated totals with design, added
        one by one. */
    method GetEstimatedTotalPrice() returns (total: real)
      ensures total == SumEstimated(items)
    {
      total := 0.0;
      var i := 0;
      while i < |items|
        invariant 0 <= i <= |items|
        invariant total == SumEstimated(items[..i])
      {
        assert items[..i + 1][..i] == items[..i];
        total := total + EstimatedTotalWithDesign(items[i]);
        i := i + 1;
      }
      assert items[..i] == items;
    }

    /** Stores an item's row: appended when it has no place yet, written over its
        place otherwise; `k` is the place it ends up in. */
    method PutItem(position: Option<nat>, row: ItemRow) returns (k: nat)
      requires position.Some? ==> position.value < |items|
      modifies this`items
      ensures k < |items|
      ensures position.None? ==> k == |old(items)| && items == old(items) + [row]
      ensures position.Some? ==> k == position.value && items == old(items)[k := row]
    {
      if position.None? {
        k := |items|;
        items := items + [row];
      } else {
        k := position.value;
        items := items[k := row];
      }
    }

    /** The order's part of `OrderItem.save`: store the row, assign the totals and
        save the two price columns. */
    method StoreItem(position: Option<nat>, row: ItemRow, uuid: string) returns (k: nat, email: Signals.EmailKind)
      requires position.Some? ==> position.value < |items|
      requires stored.Some?
      modifies this`items, this`estimatedPrice, this`finalPrice, this`orderNumber, this`remembered, this`stored
      ensures k < |items|
      ensures position.None? ==> k == |old(items)| && items == old(items) + [row]
      ensures position.Some? ==> k == position.value && items == old(items)[k := row]
      ensures estimatedPrice == Some(SumEstimated(items)) && finalPrice == Some(SumFinal(items))
      ensures NumberAssigned(this, uuid)
      ensures state == old(state) && CustomerColumnsKept(this)
      ensures stored == Some(old(stored).value.(estimadedPrice := estimadedPrice, finalPrice := finalPrice))
      ensures email == Signals.HandleOrderUpdate(false, Signals.TrackOrderChanges(true, old(StoredSignalRow())),
        state, finalPrice)
    {
      k := PutItem(position, row);
      Retotal();
      email := SavePriceFields(uuid);
    }

    /** The totals `OrderItem.save` assigns: the estimated and the final sums with
        design over the items. */
    method Retotal()
      modifies this`estimatedPrice, this`finalPrice
      ensures estimatedPrice == Some(SumEstimated(items)) && finalPrice == Some(SumFinal(items))
    {
      var est := GetEstimatedTotalPrice();
      var fin := GetFinalTotalPrice();
      estimatedPrice := Some(est);
      finalPrice := Some(fin);
    }

    /** `get_final_total_price`: the items' final totals with design. */
    method GetFinalTotalPrice() returns (total: real)
      ensures total == SumFinal(items)
    {
      total := 0.0;
      var i := 0;
      while i < |items|
        invariant 0 <= i <= |items|
        invariant total == SumFinal(items[..i])
      {
        assert items[..i + 1][..i] == items[..i];
        total := total + FinalTotalWithDesign(items[i]);
        i := i + 1;
      }
      assert items[..i] == items;
    }
  }

  /** The trigger columns of `OrderItem.save`: a non-zero value in one of them makes
      an update recompute the final unit price. Unknown types have none. */
  predicate HasCalcFields(item: ItemRow)
    requires item.service.Some?
  {
    var t := item.service.value.serviceType;
    if t == "plasma" then
      TruthyInt(item.plasmaDesignProgrammingTime) || TruthyInt(item.plasmaCuttingTime)
      || Truthy(item.plasmaMaterialCost)
    else if IsLaserType(t) then
      TruthyInt(item.laserDesignProgrammingTime) || TruthyInt(item.laserCuttingTime)
      || Truthy(item.laserMaterialCost)
    else if IsPrintingType(t) then
      TruthyInt(item.printingDesignProgrammingTime) || TruthyInt(item.printingTime)
      || Truthy(item.printingMaterialUsed)
    else false
  }

  /** The prices `OrderItem.save` writes before the row is stored. `adding` is
      Django's `_state.adding`: true for a row not yet in the database. */
  function PricedRow(item: ItemRow, adding: bool): ItemRow {
    if item.service.None? then item
    else
      var price := CalculateServicePrice(item);
      var withEstimate := if Truthy(item.estimatedUnitPrice) then item
                          else item.(estimatedUnitPrice := Some(price));
      if !adding && HasCalcFields(item) then withEstimate.(finalUnitPrice := Some(price))
      else withEstimate
  }

  /** The service price does not read the stored unit prices. */
  lemma PriceIgnoresUnitPrices(item: ItemRow, est: Option<real>, fin: Option<real>)
    ensures CalculateServicePrice(item.(estimatedUnitPrice := est, finalUnitPrice := fin))
         == CalculateServicePrice(item)
  {
    var other := item.(estimatedUnitPrice := est, finalUnitPrice := fin);
    assert PlasmaInputs(other) == PlasmaInputs(item);
    assert LaserInputs(other) == LaserInputs(item);
    assert PrintingInputs(other) == PrintingInputs(item);
  }

  /** A set estimate is never overwritten; an unset one becomes the calculated price. */
  lemma EstimateWrittenOnce(item: ItemRow, adding: bool)
    ensures Truthy(item.estimatedUnitPrice) ==>
      PricedRow(item, adding).estimatedUnitPrice == item.estimatedUnitPrice
    ensures !Truthy(item.estimatedUnitPrice) && item.service.Some? ==>
      PricedRow(item, adding).estimatedUnitPrice == Some(CalculateServicePrice(item))
  {
  }

  /** Creating an item never touches its final unit price. */
  lemma CreationKeepsFinalPrice(item: ItemRow)
    ensures PricedRow(item, true).finalUnitPrice == item.finalUnitPrice
  {
  }

  /** On update the final unit price becomes the calculated price when a trigger
      column of the item's family is set, and is left alone otherwise. */
  lemma UpdateRecomputesFinalIff(item: ItemRow)
    requires item.service.Some?
    ensures HasCalcFields(item) ==> PricedRow(item, false).finalUnitPrice == Some(CalculateServicePrice(item))
    ensures !HasCalcFields(item) ==> PricedRow(item, false).finalUnitPrice == item.finalUnitPrice
  {
  }

  /** A service type outside the five base types never triggers a recomputation. */
  lemma UnknownTypeNeverTriggers(item: ItemRow)
    requires item.service.Some? && item.service.value.serviceType !in BaseTypes
    ensures !HasCalcFields(item)
    ensures PricedRow(item, false).finalUnitPrice == item.finalUnitPrice
  {
  }

  /** Items created with the column defaults always carry a trigger value (the
      default design minutes), so every later save of a base-service item
      recomputes its final unit price. */
  lemma DefaultItemsAlwaysTrigger(service: Service, description: string)
    requires service.serviceType in BaseTypes
    ensures HasCalcFields(NewItemRow(Some(service), description))
  {
  }

  /** Pricing writes only the two unit prices. */
  lemma PricingTouchesOnlyUnitPrices(item: ItemRow, adding: bool)
    ensures PricedRow(item, adding).(estimatedUnitPrice := item.estimatedUnitPrice,
                                     finalUnitPrice := item.finalUnitPrice) == item
  {
    if item.service.Some? {
      var price := CalculateServicePrice(item);
      var withEstimate := if Truthy(item.estimatedUnitPrice) then item
                          else item.(estimatedUnitPrice := Some(price));
      assert withEstimate.(estimatedUnitPrice := item.estimatedUnitPrice) == item;
    }
  }

  /** Saving an item a second time writes the same prices again. */
  lemma PricingIdempotent(item: ItemRow, adding: bool)
    ensures PricedRow(PricedRow(item, adding), adding) == PricedRow(item, adding)
  {
    if item.service.Some? {
      var once := PricedRow(item, adding);
      var price := CalculateServicePrice(item);
      assert once == item.(estimatedUnitPrice := once.estimatedUnitPrice, finalUnitPrice := once.finalUnitPrice);
      PriceIgnoresUnitPrices(item, once.estimatedUnitPrice, once.finalUnitPrice);
      assert CalculateServicePrice(once) == price;
      assert HasCalcFields(once) == HasCalcFields(item);
      assert Truthy(once.estimatedUnitPrice) ==>
        (once.estimatedUnitPrice == item.estimatedUnitPrice || once.estimatedUnitPrice == Some(price));
    }
  }

  /** An order item: its columns, its order (the foreign key is required, so it is
      never null) and its place among the order's stored items once saved. */
  class OrderItem {
    var row: ItemRow
    const order: Order
    var position: Option<nat>

    /** `OrderItem(order=..., ...)` before its first save. */
    constructor (order: Order, row: ItemRow)
      ensures this.order == order && this.row == row && position == None
    {
      this.order := order;
      this.row := row;
      position := None;
    }

    predicate Valid()
      reads this, order
    {
      position.Some? ==> position.value < |order.items|
    }

    /** `OrderItem.save()`: price the row, store it among the order's items, then
        assign the order's totals and save its two price columns. The estimate is
        assigned to the attribute `estimated_price`, which is not the column
        `estimaded_price` that is saved, so the stored estimate does not change;
        the final price is the sum of the items' final totals with design. */
    method Save(uuid: string) returns (email: Signals.EmailKind)
      requires Valid() && order.stored.Some?
      modifies this, order`items, order`estimatedPrice, order`finalPrice
      modifies order`orderNumber, order`remembered, order`stored
      ensures Valid() && position.Some?
      ensures row == PricedRow(old(row), old(position).None?)
      ensures old(position).None? ==> order.items == old(order.items) + [row]
      ensures old(position).Some? ==>
        (position == old(position) && order.items == old(order.items)[old(position).value := row])
      ensures order.estimatedPrice == Some(SumEstimated(order.items))
      ensures order.finalPrice == Some(SumFinal(order.items))
      ensures order.estimadedPrice == old(order.estimadedPrice)
      ensures order.state == old(order.state) && CustomerColumnsKept(order)
      ensures order.orderNumber == if old(order.orderNumber) == "" then OrderNumberFrom(uuid) else old(order.orderNumber)
      ensures order.stored == Some(old(order.stored).value.(
        estimadedPrice := old(order.estimadedPrice), finalPrice := order.finalPrice))
      ensures email == Signals.HandleOrderUpdate(false,
        Signals.TrackOrderChanges(true, old(order.StoredSignalRow())), order.state, order.finalPrice)
    {
      row := PricedRow(row, position.None?);
      var k;
      k, email := order.StoreItem(position, row, uuid);
      position := Some(k);
    }
  }

  /** After an item save the order's final price is its previous final total
      adjusted by the change in this one item's final total. */
  lemma ItemSaveShiftsFinalTotal(items: seq<ItemRow>, k: nat, row: ItemRow, adding: bool)
    requires k < |items|
    ensures SumFinal(items[k := PricedRow(row, adding)])
         == SumFinal(items) - FinalTotalWithDesign(items[k]) + FinalTotalWithDesign(PricedRow(row, adding))
  {
    SumsOfUpdate(items, k, PricedRow(row, adding));
  }
}
