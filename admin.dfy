/** The admin panel's logic (backend/services/admin.py): the read-only field list,
    the single-configuration rule, the bulk state actions, the price displays, the
    item save that recomputes the order totals, and the seeding of the five base
    services. */
module ServiceAdmin {
  import opened Wrappers
  import opened Pricing
  import opened ServiceModels
  import Signals

  /** `TypeServiceAdmin.get_readonly_fields`; `obj` is `None` on the add form. */
  function GetReadonlyFields(obj: Option<Service>): (fields: seq<string>)
    ensures |fields| >= 2 && fields[0] == "order_display" && "is_base_service" in fields
    ensures ("type" in fields) <==> obj.Some? && obj.value.isBaseService
    ensures forall f :: f in fields ==> f in ["order_display", "type", "is_base_service"]
    ensures |fields| == if obj.Some? && obj.value.isBaseService then 3 else 2
  {
    var readonly := ["order_display"];
    if obj.Some? && obj.value.isBaseService then readonly + ["type", "is_base_service"]
    else readonly + ["is_base_service"]
  }

  /** `CompanyConfigurationAdmin.has_add_permission`: adding is allowed only while
      no configuration exists. */
  function HasAddPermission(configurations: nat): (allowed: bool)
    ensures allowed <==> configurations == 0
  {
    !(configurations > 0)
  }

  /** The orders of the selection are distinct objects, as a queryset yields them. */
  predicate Distinct(orders: seq<Order>) {
    forall i, j :: 0 <= i < j < |orders| ==> orders[i] != orders[j]
  }

  /** What a bulk state action leaves as it was: the customer columns, the items
      and every price. */
  twostate predicate Kept(o: Order)
    reads o
  {
    CustomerColumnsKept(o) && o.items == old(o.items) && o.estimadedPrice == old(o.estimadedPrice)
    && o.finalPrice == old(o.finalPrice) && o.estimatedPrice == old(o.estimatedPrice)
  }

  /** One order of a bulk state action, marked with `target` and saved: it has
      the target state and the row written with it, its e-mail is the decision
      on the values stored before, and nothing else of it changed but the number
      rule. */
  twostate predicate Marked(o: Order, target: string, uuid: string, email: Signals.EmailKind)
    reads o
  {
    o.state == target && Kept(o) && NumberAssigned(o, uuid)
    && o.stored == Some(OrderRow(o.orderNumber, target, o.estimadedPrice, o.finalPrice))
    && email == Signals.HandleOrderUpdate(old(o.stored).None?,
         Signals.TrackOrderChanges(old(o.stored).Some?, old(o.StoredSignalRow())), target, old(o.finalPrice))
  }

  /** The body of the bulk action's loop: mark one order and save it. */
  method MarkOne(o: Order, target: string, uuid: string) returns (email: Signals.EmailKind)
    modifies o
    ensures Marked(o, target, uuid, email)
  {
    o.state := target;
    email := o.Save(uuid);
  }

  /** `mark_as_estimated` / `mark_as_completed`: every selected order gets the target
      state and is saved, whatever its previous state; each save runs the e-mail
      decision with the values stored before it. */
  method MarkAs(orders: seq<Order>, target: string, uuids: seq<string>) returns (emails: seq<Signals.EmailKind>)
    requires Distinct(orders) && |uuids| == |orders|
    modifies set o | o in orders
    ensures |emails| == |orders|
    ensures forall i :: 0 <= i < |orders| ==> Marked(orders[i], target, uuids[i], emails[i])
  {
    emails := [];
    var i := 0;
    while i < |orders|
      invariant 0 <= i <= |orders| && |emails| == i
      invariant forall j :: 0 <= j < i ==> Marked(orders[j], target, uuids[j], emails[j])
      invariant forall j :: i <= j < |orders| ==> unchanged(orders[j])
    {
      var e := MarkOne(orders[i], target, uuids[i]);
      emails := emails + [e];
      i := i + 1;
    }
  }

  method MarkAsEstimated(orders: seq<Order>, uuids: seq<string>) returns (emails: seq<Signals.EmailKind>)
    requires Distinct(orders) && |uuids| == |orders|
    modifies set o | o in orders
    ensures |emails| == |orders|
    ensures forall i :: 0 <= i < |orders| ==> Marked(orders[i], "estimated", uuids[i], emails[i])
    ensures forall i :: 0 <= i < |orders| ==> emails[i] != Signals.CompletionEmail
  {
    emails := MarkAs(orders, "estimated", uuids);
  }

  method MarkAsCompleted(orders: seq<Order>, uuids: seq<string>) returns (emails: seq<Signals.EmailKind>)
    requires Distinct(orders) && |uuids| == |orders|
    modifies set o | o in orders
    ensures |emails| == |orders|
    ensures forall i :: 0 <= i < |orders| ==> Marked(orders[i], "completed", uuids[i], emails[i])
    ensures forall i :: 0 <= i < |orders| ==>
      old(orders[i].stored).Some? && old(orders[i].stored).value.state != "completed"
      && !(Truthy(old(orders[i].finalPrice)) && !Truthy(old(orders[i].stored).value.finalPrice))
      ==> emails[i] == Signals.CompletionEmail
  {
    emails := MarkAs(orders, "completed", uuids);
  }

  /** `total_price_display`: the final unit price times the quantity plus the design
      charge once; `None` reads "Not calculated". */
  function TotalPriceDisplay(item: ItemRow): (shown: Option<real>)
    ensures shown.Some? <==> Truthy(item.finalUnitPrice) && item.quantity != 0
  {
    if Truthy(item.finalUnitPrice) && item.quantity != 0 then
      var totalService := item.finalUnitPrice.value * item.quantity as real;
      var totalFinal := if item.needsCustomDesign && Truthy(item.customDesignPrice)
                        then totalService + item.customDesignPrice.value else totalService;
      Some(totalFinal)
    else None
  }

  /** Whenever the total is displayed it is the item's final total with design. */
  lemma TotalPriceDisplayMatchesModel(item: ItemRow)
    requires TotalPriceDisplay(item).Some?
    ensures TotalPriceDisplay(item).value == FinalTotalWithDesign(item)
  {
  }

  /** What `estimated_total_display` shows: the total and whether it is based on the
      final price because no estimate is set. */
  datatype EstimateShown = EstimateShown(total: real, basedOnFinal: bool)

  /** `estimated_total_display`: the estimated unit price, falling back to the final
      unit price, times the quantity, plus the design charge once. */
  function EstimatedTotalDisplay(item: ItemRow): (shown: Option<EstimateShown>)
    ensures shown.Some? <==> item.quantity != 0 && (Truthy(item.estimatedUnitPrice) || Truthy(item.finalUnitPrice))
    ensures shown.Some? ==> (shown.value.basedOnFinal <==> !Truthy(item.estimatedUnitPrice))
  {
    if item.quantity != 0 then
      var unit := if Truthy(item.estimatedUnitPrice) then item.estimatedUnitPrice else item.finalUnitPrice;
      if Truthy(unit) then
        var totalService := unit.value * item.quantity as real;
        var total := if item.needsCustomDesign && Truthy(item.customDesignPrice)
                     then totalService + item.customDesignPrice.value else totalService;
        Some(EstimateShown(total, !Truthy(item.estimatedUnitPrice)))
      else None
    else None
  }

  /** The displayed estimate is the model's estimated total, or its final total when
      the display falls back on the final price. */
  lemma EstimatedTotalDisplayMatchesModel(item: ItemRow)
    requires EstimatedTotalDisplay(item).Some?
    ensures var shown := EstimatedTotalDisplay(item).value;
      shown.total == (if shown.basedOnFinal then FinalTotalWithDesign(item) else EstimatedTotalWithDesign(item))
  {
  }

  /** What `price_comparison_display` shows. */
  datatype Comparison = NoComparison | SameAsEstimate | Higher(difference: real, percentage: real)
                      | Lower(amount: real, percentage: real)

  function Abs(x: real): real {
    if x < 0.0 then -x else x
  }

  /** `price_comparison_display`: compares the totals with design when both are
      positive; differences under 0.01 read as the same. */
  function PriceComparison(item: ItemRow): (c: Comparison)
    ensures c.NoComparison? <==> !(EstimatedTotalWithDesign(item) > 0.0 && FinalTotalWithDesign(item) > 0.0)
  {
    var est := EstimatedTotalWithDesign(item);
    var fin := FinalTotalWithDesign(item);
    if est > 0.0 && fin > 0.0 then
      var difference := fin - est;
      var percentage := (difference / est) * 100.0;
      if Abs(difference) < 0.01 then SameAsEstimate
      else if difference > 0.0 then Higher(difference, percentage)
      else Lower(Abs(difference), percentage)
    else NoComparison
  }

  /** The comparison agrees with `get_price_difference`: higher when the difference
      is at least 0.01, lower when it is at most -0.01; a higher price shows the
      difference and a lower one its magnitude, and the signed percentage is the
      difference relative to the estimate. */
  lemma PriceComparisonMatchesDifference(item: ItemRow)
    ensures PriceComparison(item).Higher? <==> PriceDifference(item) >= 0.01
    ensures PriceComparison(item).Lower? <==> PriceDifference(item) <= -0.01
    ensures PriceComparison(item).Higher? ==> PriceComparison(item).difference == PriceDifference(item)
    ensures PriceComparison(item).Lower? ==> PriceComparison(item).amount == -PriceDifference(item)
    ensures PriceComparison(item).Higher? || PriceComparison(item).Lower? ==>
      PriceComparison(item).percentage * EstimatedTotalWithDesign(item) == PriceDifference(item) * 100.0
  {
  }

  /** The order estimate `save_model` writes: estimated unit price times quantity
      over the items with a set estimate, without design charges. */
  function AdminEstimatedTotal(items: seq<ItemRow>): real {
    if items == [] then 0.0
    else
      var last := items[|items| - 1];
      AdminEstimatedTotal(items[..|items| - 1]) + UnitTotal(last.estimatedUnitPrice, last.quantity)
  }

  /** The order final total `save_model` computes, without design charges. */
  function AdminFinalTotal(items: seq<ItemRow>): real {
    if items == [] then 0.0
    else
      var last := items[|items| - 1];
      AdminFinalTotal(items[..|items| - 1]) + UnitTotal(last.finalUnitPrice, last.quantity)
  }

  /** The design charges of a list of items. */
  function DesignCharges(items: seq<ItemRow>): real {
    if items == [] then 0.0 else DesignCharges(items[..|items| - 1]) + DesignCharge(items[|items| - 1])
  }

  /** The admin totals are the model's order totals without the design charges. */
  lemma {:induction false} AdminTotalsOmitDesign(items: seq<ItemRow>)
    ensures SumEstimated(items) == AdminEstimatedTotal(items) + DesignCharges(items)
    ensures SumFinal(items) == AdminFinalTotal(items) + DesignCharges(items)
  {
    if items != [] {
      AdminTotalsOmitDesign(items[..|items| - 1]);
    }
  }

  /** The accumulation loop of `save_model` over the order's stored items. */
  method AdminOrderTotals(items: seq<ItemRow>) returns (totalEstimated: real, totalFinal: real)
    ensures totalEstimated == AdminEstimatedTotal(items)
    ensures totalFinal == AdminFinalTotal(items)
  {
    totalEstimated, totalFinal := 0.0, 0.0;
    var i := 0;
    while i < |items|
      invariant 0 <= i <= |items|
      invariant totalEstimated == AdminEstimatedTotal(items[..i])
      invariant totalFinal == AdminFinalTotal(items[..i])
    {
      var item := items[i];
      assert items[..i + 1][..i] == items[..i];
      if Truthy(item.estimatedUnitPrice) {
        totalEstimated := totalEstimated + item.estimatedUnitPrice.value * item.quantity as real;
      }
      if Truthy(item.finalUnitPrice) {
        totalFinal := totalFinal + item.finalUnitPrice.value * item.quantity as real;
      }
      i := i + 1;
    }
    assert items[..i] == items;
  }

  /** The prices `save_model` sets before saving: with a service, the final unit
      price is always the calculated price, and the estimate is kept on a change
      that has one, and is the calculated price otherwise. */
  function AdminPricedRow(item: ItemRow, change: bool): ItemRow {
    if item.service.Some? then
      var original := if change && Truthy(item.estimatedUnitPrice) then item.estimatedUnitPrice
                      else Some(CalculateServicePrice(item));
      item.(finalUnitPrice := Some(CalculateServicePrice(item)), estimatedUnitPrice := original)
    else item
  }

  /** The row an admin save stores: the final unit price is the calculated price, the
      estimate is kept on a change that has one, and the calculated price otherwise. */
  lemma AdminSaveStoredPrices(item: ItemRow, change: bool)
    requires item.service.Some?
    ensures PricedRow(AdminPricedRow(item, change), !change).finalUnitPrice == Some(CalculateServicePrice(item))
    ensures change && Truthy(item.estimatedUnitPrice) ==>
      PricedRow(AdminPricedRow(item, change), !change).estimatedUnitPrice == item.estimatedUnitPrice
    ensures !(change && Truthy(item.estimatedUnitPrice)) ==>
      PricedRow(AdminPricedRow(item, change), !change).estimatedUnitPrice == Some(CalculateServicePrice(item))
  {
    var set1 := AdminPricedRow(item, change);
    PriceIgnoresUnitPrices(item, set1.estimatedUnitPrice, set1.finalUnitPrice);
    assert set1 == item.(estimatedUnitPrice := set1.estimatedUnitPrice, finalUnitPrice := set1.finalUnitPrice);
  }

  /** The order's part of `save_model`: total the stored items without design
      charges, write the estimate, overwrite the final price only with a positive
      total, and save the order. */
  method SaveAdminTotals(order: Order, uuid: string) returns (email: Signals.EmailKind)
    requires order.stored.Some?
    modifies order`estimadedPrice, order`finalPrice, order`orderNumber, order`remembered, order`stored
    ensures order.estimadedPrice == Some(AdminEstimatedTotal(order.items))
    ensures order.finalPrice ==
      if AdminFinalTotal(order.items) > 0.0 then Some(AdminFinalTotal(order.items)) else old(order.finalPrice)
    ensures NumberAssigned(order, uuid)
    ensures order.state == old(order.state) && CustomerColumnsKept(order)
    ensures order.stored == Some(OrderRow(order.orderNumber, order.state, order.estimadedPrice, order.finalPrice))
    ensures order.remembered == Signals.TrackOrderChanges(true, old(order.StoredSignalRow()))
    ensures email == Signals.HandleOrderUpdate(false, order.remembered, order.state, order.finalPrice)
  {
    var totalEstimated, totalFinal := AdminOrderTotals(order.items);
    order.estimadedPrice := Some(totalEstimated);
    if totalFinal > 0.0 {
      order.finalPrice := Some(totalFinal);
    }
    email := order.Save(uuid);
  }

  /** `OrderItemAdmin.save_model`: set the item's prices, save it (which runs
      `OrderItem.save`), then total the order's items without design charges, write
      the estimate, overwrite the final price only with a positive total, and save
      the order. `change` is Django's flag for an item that already exists. */
  method SaveModel(item: OrderItem, uuid: string) returns (emails: seq<Signals.EmailKind>)
    requires item.Valid() && item.order.stored.Some?
    modifies item, item.order
    ensures item.Valid() && item.position.Some?
    ensures item.row == PricedRow(AdminPricedRow(old(item.row), old(item.position).Some?), old(item.position).None?)
    ensures old(item.position).None? ==> item.order.items == old(item.order.items) + [item.row]
    ensures old(item.position).Some? ==>
      item.order.items == old(item.order.items)[old(item.position).value := item.row]
    ensures item.order.estimadedPrice == Some(AdminEstimatedTotal(item.order.items))
    ensures item.order.finalPrice ==
      if AdminFinalTotal(item.order.items) > 0.0 then Some(AdminFinalTotal(item.order.items))
      else Some(SumFinal(item.order.items))
    ensures item.order.stored.Some? && item.order.stored.value.estimadedPrice == item.order.estimadedPrice
    ensures item.order.stored.value.finalPrice == item.order.finalPrice
    ensures item.order.estimatedPrice == Some(SumEstimated(item.order.items))
    ensures item.order.state == old(item.order.state) && CustomerColumnsKept(item.order)
    ensures NumberAssigned(item.order, uuid)
    ensures item.order.stored == Some(OrderRow(item.order.orderNumber, item.order.state,
      item.order.estimadedPrice, item.order.finalPrice))
    ensures |emails| == 2
    ensures emails[0] == Signals.HandleOrderUpdate(false,
      Signals.TrackOrderChanges(true, old(item.order.StoredSignalRow())), item.order.state,
      Some(SumFinal(item.order.items)))
    ensures item.order.remembered == Signals.TrackOrderChanges(true,
      Some(Signals.StoredOrder(old(item.order.stored).value.state, Some(SumFinal(item.order.items)))))
    ensures emails[1] == Signals.HandleOrderUpdate(false, item.order.remembered, item.order.state,
      item.order.finalPrice)
  {
    var change := item.position.Some?;
    item.row := AdminPricedRow(item.row, change);
    var first := item.Save(uuid);
    var second := SaveAdminTotals(item.order, uuid);
    emails := [first, second];
  }

  /** The `TypeService` table, as far as `create_base_services` uses it. */
  class ServiceCatalog {
    var services: seq<Service>
    var nextId: nat

    constructor (services: seq<Service>, nextId: nat)
      ensures this.services == services && this.nextId == nextId
    {
      this.services := services;
      this.nextId := nextId;
    }

    /** `TypeService.objects.get_or_create(type=..., defaults=...)`: returns the
        service of that type, or stores the defaults (through `TypeService.save`)
        with the next id. */
    method GetOrCreate(serviceType: string, defaults: Service) returns (s: Service, created: bool)
      modifies this
      ensures services == GetOrCreateSpec(old(services), serviceType, defaults, old(nextId))
      ensures created <==> !HasType(old(services), serviceType)
      ensures created ==> nextId == old(nextId) + 1 && s == services[|services| - 1]
      ensures !created ==> nextId == old(nextId) && s in services && s.serviceType == serviceType
    {
      var i := 0;
      while i < |services|
        invariant 0 <= i <= |services|
        invariant forall j :: 0 <= j < i ==> services[j].serviceType != serviceType
      {
        if services[i].serviceType == serviceType {
          return services[i], false;
        }
        i := i + 1;
      }
      s := SaveTypeService(defaults.(id := nextId));
      services := services + [s];
      nextId := nextId + 1;
      created := true;
    }

    /** `create_base_services`: get or create each of the five base services. */
    method CreateBaseServices()
      modifies this
      ensures services == SeedAll(old(services), BaseServiceData(), old(nextId))
    {
      var data := BaseServiceData();
      var i := 0;
      while i < |data|
        invariant 0 <= i <= |data|
        invariant SeedAll(old(services), data, old(nextId)) == SeedAll(services, data[i..], nextId)
      {
        var _, _ := GetOrCreate(data[i].serviceType, data[i]);
        assert data[i..][1..] == data[i + 1..];
        i := i + 1;
      }
    }
  }

  predicate HasType(services: seq<Service>, serviceType: string) {
    exists s :: s in services && s.serviceType == serviceType
  }

  /** The catalog after one `get_or_create`. */
  function GetOrCreateSpec(services: seq<Service>, serviceType: string, defaults: Service, id: nat): seq<Service> {
    if HasType(services, serviceType) then services else services + [SaveTypeService(defaults.(id := id))]
  }

  /** The catalog after `get_or_create` of each entry of `data` in turn. */
  function SeedAll(services: seq<Service>, data: seq<Service>, id: nat): seq<Service>
    decreases |data|
  {
    if data == [] then services
    else
      var created := !HasType(services, data[0].serviceType);
      SeedAll(GetOrCreateSpec(services, data[0].serviceType, data[0], id), data[1..], if created then id + 1 else id)
  }

  /** The five entries of `base_services_data`. */
  function BaseServiceData(): (data: seq<Service>)
    ensures |data| == 5
    ensures forall i :: 0 <= i < 5 ==>
      (data[i].serviceType == BaseTypes[i] && data[i].isBaseService && data[i].orderDisplay == i + 1)
  {
    [ Service(0, "plasma", "Plasma Cutting", "Precision metal cutting with plasma technology", None, true, true, 1),
      Service(0, "laser_engraving", "Laser Engraving", "Detailed engraving on wood and other materials", None, true, true, 2),
      Service(0, "laser_cutting", "Laser Cutting", "Precise cutting of wood and thin materials", None, true, true, 3),
      Service(0, "3D_printing", "3D Printing", "Additive manufacturing with filament technology", None, true, true, 4),
      Service(0, "resin_printing", "Resin Printing", "High-detail 3D printing with resin technology", None, true, true, 5) ]
  }

  /** Seeding keeps every existing service, in order, and only appends. */
  lemma {:induction false} SeedAllExtends(services: seq<Service>, data: seq<Service>, id: nat)
    ensures services <= SeedAll(services, data, id)
    decreases |data|
  {
    if data != [] {
      var next := GetOrCreateSpec(services, data[0].serviceType, data[0], id);
      SeedAllExtends(next, data[1..], if !HasType(services, data[0].serviceType) then id + 1 else id);
    }
  }

  /** Every entry of the data names a type, so `TypeService.save` keeps it. */
  predicate TypesNamed(data: seq<Service>) {
    forall k :: 0 <= k < |data| ==> data[k].serviceType != ""
  }

  /** After seeding, every type of the data is present. */
  lemma {:induction false} SeedAllCovers(services: seq<Service>, data: seq<Service>, id: nat, k: nat)
    requires k < |data| && TypesNamed(data)
    ensures HasType(SeedAll(services, data, id), data[k].serviceType)
    decreases |data|
  {
    var next := GetOrCreateSpec(services, data[0].serviceType, data[0], id);
    var nextId := if !HasType(services, data[0].serviceType) then id + 1 else id;
    assert HasType(next, data[0].serviceType) by {
      if !HasType(services, data[0].serviceType) {
        assert next[|next| - 1] == data[0].(id := id);
        assert next[|next| - 1] in next;
      }
    }
    if k == 0 {
      SeedAllExtends(next, data[1..], nextId);
      var s :| s in next && s.serviceType == data[0].serviceType;
      assert s in SeedAll(services, data, id);
    } else {
      SeedAllCovers(next, data[1..], nextId, k - 1);
    }
  }

  /** A catalog that already has every type of the data is left unchanged. */
  lemma {:induction false} SeedAllNoop(services: seq<Service>, data: seq<Service>, id: nat)
    requires forall k :: 0 <= k < |data| ==> HasType(services, data[k].serviceType)
    ensures SeedAll(services, data, id) == services
    decreases |data|
  {
    if data != [] {
      assert HasType(services, data[0].serviceType);
      SeedAllNoop(services, data[1..], id);
    }
  }

  /** Seeding the same data twice leaves the catalog as seeding it once. */
  lemma SeedTwice(services: seq<Service>, data: seq<Service>, id: nat, id2: nat)
    requires TypesNamed(data)
    ensures SeedAll(SeedAll(services, data, id), data, id2) == SeedAll(services, data, id)
  {
    var once := SeedAll(services, data, id);
    forall k | 0 <= k < |data| ensures HasType(once, data[k].serviceType) {
      SeedAllCovers(services, data, id, k);
    }
    SeedAllNoop(once, data, id2);
  }

  /** Running `create_base_services` twice leaves the catalog as one run does. */
  lemma CreateBaseServicesIdempotent(services: seq<Service>, id: nat, id2: nat)
    ensures SeedAll(SeedAll(services, BaseServiceData(), id), BaseServiceData(), id2)
         == SeedAll(services, BaseServiceData(), id)
  {
    var d := BaseServiceData();
    assert TypesNamed(d) by {
      forall k | 0 <= k < |d| ensures d[k].serviceType != "" {
        assert d[k].serviceType == BaseTypes[k];
      }
    }
    SeedTwice(services, d, id, id2);
  }

  /** The data entries stamped with consecutive ids from `id`. */
  function Stamped(data: seq<Service>, id: nat): (r: seq<Service>)
    ensures |r| == |data|
  {
    if data == [] then [] else [data[0].(id := id)] + Stamped(data[1..], id + 1)
  }

  lemma {:induction false} StampedAt(data: seq<Service>, id: nat, i: nat)
    requires i < |data|
    ensures Stamped(data, id)[i] == data[i].(id := id + i)
  {
    if i > 0 {
      StampedAt(data[1..], id + 1, i - 1);
    }
  }

  lemma HasTypeAppend(services: seq<Service>, s: Service, t: string)
    ensures HasType(services + [s], t) <==> HasType(services, t) || s.serviceType == t
  {
    if HasType(services + [s], t) {
      var x :| x in services + [s] && x.serviceType == t;
      if x != s { assert x in services; }
    }
    if s.serviceType == t { assert s in services + [s]; }
    if HasType(services, t) {
      var x :| x in services && x.serviceType == t;
      assert x in services + [s];
    }
  }

  /** Seeding types that are all absent and pairwise different appends each entry
      once, with consecutive ids. */
  lemma {:induction false} SeedFresh(services: seq<Service>, data: seq<Service>, id: nat)
    requires TypesNamed(data)
    requires forall k :: 0 <= k < |data| ==> !HasType(services, data[k].serviceType)
    requires forall j, k :: 0 <= j < k < |data| ==> data[j].serviceType != data[k].serviceType
    ensures SeedAll(services, data, id) == services + Stamped(data, id)
    decreases |data|
  {
    if data == [] {
      assert services + [] == services;
    } else {
      var next := services + [data[0].(id := id)];
      assert !HasType(services, data[0].serviceType);
      assert SaveTypeService(data[0].(id := id)) == data[0].(id := id);
      assert GetOrCreateSpec(services, data[0].serviceType, data[0], id) == next;
      assert SeedAll(services, data, id) == SeedAll(next, data[1..], id + 1);
      forall k | 0 <= k < |data[1..]| ensures !HasType(next, data[1..][k].serviceType) {
        assert data[1..][k] == data[k + 1];
        HasTypeAppend(services, data[0].(id := id), data[k + 1].serviceType);
      }
      forall j, k | 0 <= j < k < |data[1..]| ensures data[1..][j].serviceType != data[1..][k].serviceType {
        assert data[1..][j] == data[j + 1] && data[1..][k] == data[k + 1];
      }
      assert TypesNamed(data[1..]) by {
        forall k | 0 <= k < |data[1..]| ensures data[1..][k].serviceType != "" {
          assert data[1..][k] == data[k + 1];
        }
      }
      SeedFresh(next, data[1..], id + 1);
      assert Stamped(data, id) == [data[0].(id := id)] + Stamped(data[1..], id + 1);
      assert next + Stamped(data[1..], id + 1) == services + Stamped(data, id);
    }
  }

  /** Seeding an empty catalog stores exactly the five base services, with order
      displays 1 to 5 and consecutive ids. */
  lemma SeedEmptyCatalog(id: nat)
    ensures var seeded := SeedAll([], BaseServiceData(), id);
      |seeded| == 5 && forall i :: 0 <= i < 5 ==> seeded[i] == BaseServiceData()[i].(id := id + i)
  {
    var d := BaseServiceData();
    assert forall j, k :: 0 <= j < k < 5 ==> BaseTypes[j] != BaseTypes[k];
    SeedFresh([], d, id);
    assert [] + Stamped(d, id) == Stamped(d, id);
    forall i | 0 <= i < 5 ensures Stamped(d, id)[i] == d[i].(id := id + i) {
      StampedAt(d, id, i);
    }
  }
}
