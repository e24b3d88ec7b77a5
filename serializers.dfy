/** The order and contact serializers (backend/services/serializers.py): field
    validators, the order totals they report, and the nested order creation. */
module OrderSerializers {
  import opened Wrappers
  import opened Pricing
  import opened ServiceModels
  import Strings

  /** `ContactFormSerializer.validate_message`: the stripped text, which must have at
      least 10 characters. */
  function ValidateMessage(value: string): (r: Result<string, string>)
    ensures r.Ok? <==> |Strings.Strip(value)| >= 10
    ensures r.Ok? ==> r.value == Strings.Strip(value)
    ensures r.Err? ==> r.error == "Message must be at least 10 characters long."
  {
    if |Strings.Strip(value)| < 10 then Err("Message must be at least 10 characters long.")
    else Ok(Strings.Strip(value))
  }

  /** `ContactFormSerializer.validate_name`: the stripped text, with at least 2
      characters. */
  function ValidateName(value: string): (r: Result<string, string>)
    ensures r.Ok? <==> |Strings.Strip(value)| >= 2
    ensures r.Ok? ==> r.value == Strings.Strip(value)
    ensures r.Err? ==> r.error == "Name must be at least 2 characters long."
  {
    if |Strings.Strip(value)| < 2 then Err("Name must be at least 2 characters long.")
    else Ok(Strings.Strip(value))
  }

  /** A validated message has no surrounding whitespace, so validating it again
      accepts it unchanged. */
  lemma ValidatedMessageIsStable(value: string)
    requires ValidateMessage(value).Ok?
    ensures ValidateMessage(ValidateMessage(value).value) == ValidateMessage(value)
  {
    var t := Strings.Strip(value);
    Strings.StripIdempotent(value);
    assert Strings.Strip(t) == t;
  }

  /** A validated name is stable in the same way. */
  lemma ValidatedNameIsStable(value: string)
    requires ValidateName(value).Ok?
    ensures ValidateName(ValidateName(value).value) == ValidateName(value)
  {
    var t := Strings.Strip(value);
    Strings.StripIdempotent(value);
    assert Strings.Strip(t) == t;
  }

  /** A leading information separator is whitespace to Python's `strip()`, so nine
      characters after it are too short a message. */
  lemma SeparatorDoesNotCount()
    ensures ValidateMessage("\U{001C}123456789").Err?
  {
    var v := "\U{001C}123456789";
    assert Strings.IsPyWhitespace(v[0]);
    assert |Strings.StripStart(v)| <= |v[1..]| by {
      assert Strings.StripStart(v) == Strings.StripStart(v[1..]);
    }
  }

  /** One entry of `items` as `OrderItemCreateSerializer` accepts it: no pricing
      column is among its fields. */
  datatype ItemDatum = ItemDatum(
    service: Service,
    description: string,
    quantity: nat,
    lengthDimensions: Option<real>,
    widthDimensions: Option<real>,
    heightDimensions: Option<real>,
    needsCustomDesign: bool,
    hasDesignFile: bool)

  /** The order fields of `OrderCreateSerializer`; `None` is an absent key. */
  datatype OrderData = OrderData(
    customerName: Option<string>,
    customerEmail: Option<string>,
    customerPhone: Option<string>,
    additionalNotes: string,
    items: seq<ItemDatum>)

  /** `validate_items`: at least one item. */
  function ValidateItems(items: seq<ItemDatum>): (r: Result<seq<ItemDatum>, string>)
    ensures r.Ok? <==> |items| > 0
    ensures r.Ok? ==> r.value == items
  {
    if |items| == 0 then Err("At least one item is required.") else Ok(items)
  }

  /** A field error of `validate`. */
  datatype FieldError = FieldError(field: string, message: string)

  /** `OrderCreateSerializer.validate`: name, e-mail and phone must be present and
      non-empty, checked in that order. */
  function Validate(data: OrderData): (r: Result<OrderData, FieldError>)
    ensures r.Ok? <==> TruthyStr(data.customerName) && TruthyStr(data.customerEmail) && TruthyStr(data.customerPhone)
    ensures r.Ok? ==> r.value == data
  {
    if !TruthyStr(data.customerName) then Err(FieldError("customer_name", "Customer name is required"))
    else if !TruthyStr(data.customerEmail) then Err(FieldError("customer_email", "Customer email is required"))
    else if !TruthyStr(data.customerPhone) then Err(FieldError("customer_phone", "Customer phone is required"))
    else Ok(data)
  }

  /** The reported field is the first missing one. */
  lemma ValidateReportsFirstMissing(data: OrderData)
    ensures !TruthyStr(data.customerName) ==> Validate(data).Err? && Validate(data).error.field == "customer_name"
    ensures TruthyStr(data.customerName) && !TruthyStr(data.customerEmail) ==>
      Validate(data).Err? && Validate(data).error.field == "customer_email"
    ensures TruthyStr(data.customerName) && TruthyStr(data.customerEmail) && !TruthyStr(data.customerPhone) ==>
      Validate(data).Err? && Validate(data).error.field == "customer_phone"
  {
  }

  /** `get_total_items`: the number of items. */
  function GetTotalItems(items: seq<ItemRow>): (n: nat)
    ensures n == |items|
  {
    |items|
  }

  /** `sum(item.get_estimated_total_with_design() for item in ...)`, added from the
      first item on. */
  function GetEstimatedTotal(items: seq<ItemRow>): real {
    if items == [] then 0.0 else EstimatedTotalWithDesign(items[0]) + GetEstimatedTotal(items[1..])
  }

  /** `sum(item.get_final_total_with_design() for item in ...)`. */
  function GetFinalTotal(items: seq<ItemRow>): real {
    if items == [] then 0.0 else FinalTotalWithDesign(items[0]) + GetFinalTotal(items[1..])
  }

  /** The serializer's totals are the order's own totals. */
  lemma {:induction false} SerializerTotalsMatchOrder(items: seq<ItemRow>)
    ensures GetEstimatedTotal(items) == SumEstimated(items)
    ensures GetFinalTotal(items) == SumFinal(items)
  {
    if items != [] {
      SerializerTotalsMatchOrder(items[1..]);
      assert items == [items[0]] + items[1..];
      SumsOfConcat([items[0]], items[1..]);
      assert [items[0]][..0] == [];
    }
  }

  /** The row `OrderItem.objects.create(order=order, **item_data)` starts from: the
      datum's fields over the column defaults. */
  function ItemFromDatum(d: ItemDatum): (r: ItemRow)
    ensures r.service == Some(d.service) && r.quantity == d.quantity
    ensures r.estimatedUnitPrice == None && r.finalUnitPrice == None && r.customDesignPrice == None
  {
    NewItemRow(Some(d.service), d.description).(quantity := d.quantity,
      lengthDimensions := d.lengthDimensions, widthDimensions := d.widthDimensions,
      heightDimensions := d.heightDimensions, needsCustomDesign := d.needsCustomDesign,
      hasDesignFile := d.hasDesignFile)
  }

  /** A created item comes out of its first save with the calculated estimate and
      no final price. */
  lemma CreatedItemPrices(d: ItemDatum)
    ensures PricedRow(ItemFromDatum(d), true).estimatedUnitPrice == Some(CalculateServicePrice(ItemFromDatum(d)))
    ensures PricedRow(ItemFromDatum(d), true).finalUnitPrice == None
    ensures FinalTotalWithDesign(PricedRow(ItemFromDatum(d), true)) == 0.0
  {
  }

  /** Items without a final unit price or a design price have a final total of 0. */
  lemma {:induction false} UnpricedItemsTotalZero(items: seq<ItemRow>)
    requires forall i :: 0 <= i < |items| ==> items[i].finalUnitPrice == None && items[i].customDesignPrice == None
    ensures SumFinal(items) == 0.0
  {
    if items != [] {
      UnpricedItemsTotalZero(items[..|items| - 1]);
    }
  }

  /** The error `create` ends with: the order has no such method. */
  const CreateError := "AttributeError: 'Order' object has no attribute 'calculate_estimated_price'"

  /** The item loop of `create`: `OrderItem.objects.create(order=order, **item_data)`
      for each datum, each through `OrderItem.save`; `uuids[i]` is used by item i's save. */
  method CreateItems(order: Order, items: seq<ItemDatum>, uuids: seq<string>)
    requires order.stored.Some? && order.items == [] && order.orderNumber != ""
    requires |uuids| == |items|
    modifies order
    ensures order.stored.Some?
    ensures order.orderNumber == old(order.orderNumber) && order.state == old(order.state)
    ensures order.estimadedPrice == old(order.estimadedPrice)
    ensures |order.items| == |items|
    ensures forall i :: 0 <= i < |items| ==> order.items[i] == PricedRow(ItemFromDatum(items[i]), true)
    ensures |items| > 0 ==> order.finalPrice == Some(SumFinal(order.items))
  {
    var i := 0;
    while i < |items|
      invariant 0 <= i <= |items|
      invariant order.stored.Some? && order.orderNumber == old(order.orderNumber)
      invariant order.state == old(order.state) && order.estimadedPrice == old(order.estimadedPrice)
      invariant |order.items| == i
      invariant forall j :: 0 <= j < i ==> order.items[j] == PricedRow(ItemFromDatum(items[j]), true)
      invariant i > 0 ==> order.finalPrice == Some(SumFinal(order.items))
    {
      var item := new OrderItem(order, ItemFromDatum(items[i]));
      var _ := item.Save(uuids[i]);
      i := i + 1;
    }
  }

  /** The order created from `data` has the final price 0 once its items are stored:
      no created item has a final unit price or a design price. */
  lemma {:induction false} CreatedOrderFinalTotalZero(items: seq<ItemDatum>, rows: seq<ItemRow>)
    requires |rows| == |items|
    requires forall i :: 0 <= i < |items| ==> rows[i] == PricedRow(ItemFromDatum(items[i]), true)
    ensures SumFinal(rows) == 0.0
  {
    if rows != [] {
      var n := |rows| - 1;
      CreatedItemPrices(items[n]);
      CreatedOrderFinalTotalZero(items[..n], rows[..n]);
    }
  }

  /** `OrderCreateSerializer.create`: create the order, then its items; the final
      call to the undefined `order.calculate_estimated_price()` raises after the
      order and its items are stored, so the estimate column is never written.
      `uuids[0]` numbers the order and `uuids[i + 1]` is used by item i's save. */
  method Create(data: OrderData, createdAt: int, uuids: seq<string>)
    returns (order: Order, outcome: Result<Order, string>)
    requires |uuids| == |data.items| + 1 && |uuids[0]| >= 8
    ensures fresh(order)
    ensures order.stored.Some? && order.orderNumber == OrderNumberFrom(uuids[0])
    ensures order.state == "pending" && order.estimadedPrice == None
    ensures |order.items| == |data.items|
    ensures forall i :: 0 <= i < |data.items| ==> order.items[i] == PricedRow(ItemFromDatum(data.items[i]), true)
    ensures |data.items| > 0 ==> order.finalPrice == Some(0.0)
    ensures outcome == Err(CreateError)
  {
    var name := if data.customerName.Some? then data.customerName.value else "";
    var email := if data.customerEmail.Some? then data.customerEmail.value else "";
    var phone := if data.customerPhone.Some? then data.customerPhone.value else "";
    order := new Order(name, email, phone, data.additionalNotes, createdAt);
    var _ := order.Save(uuids[0]);
    CreateItems(order, data.items, uuids[1..]);
    if |data.items| > 0 {
      CreatedOrderFinalTotalZero(data.items, order.items);
    }
    outcome := Err(CreateError);
  }
}
