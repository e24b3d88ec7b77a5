/** The pure part of the front end's API layer (frontend/src/services/api.js): the
    error-message choice, the service filters, the client-side validators and the
    local cart and order statistics. The HTTP calls are not part of this model. */
module Api {
  import opened Wrappers
  import Strings

  /** `x?.trim()` is truthy: present and not only whitespace. */
  predicate Filled(x: Option<string>) {
    x.Some? && Strings.Trim(x.value) != ""
  }

  // ----- handleError -----

  /** The `data` of an error response, with the three text fields it may carry. */
  datatype ResponseBody = ResponseBody(error: Option<string>, message: Option<string>, detail: Option<string>)

  /** A rejected request: the response body, if there was a response, and the
      error's own message. */
  datatype RequestFailure = RequestFailure(data: Option<ResponseBody>, message: Option<string>)

  /** The message of the error that `handleError(error, defaultMessage)` throws. */
  function HandleError(e: RequestFailure, defaultMessage: string): (r: string)
    ensures e.data.Some? && TruthyStr(e.data.value.error) ==> r == e.data.value.error.value
    ensures r == defaultMessage || r in Candidates(e)
    ensures r != "" <== defaultMessage != ""
  {
    if e.data.Some? && TruthyStr(e.data.value.error) then e.data.value.error.value
    else if e.data.Some? && TruthyStr(e.data.value.message) then e.data.value.message.value
    else if e.data.Some? && TruthyStr(e.data.value.detail) then e.data.value.detail.value
    else if TruthyStr(e.message) then e.message.value
    else defaultMessage
  }

  /** The texts `handleError` may report, in the order it prefers them. */
  function Candidates(e: RequestFailure): seq<string> {
    var body := if e.data.Some? then e.data.value else ResponseBody(None, None, None);
    (if TruthyStr(body.error) then [body.error.value] else [])
    + (if TruthyStr(body.message) then [body.message.value] else [])
    + (if TruthyStr(body.detail) then [body.detail.value] else [])
    + (if TruthyStr(e.message) then [e.message.value] else [])
  }

  /** `handleError` reports the most preferred text the failure carries, and the
      default exactly when it carries none. */
  lemma HandleErrorPrefersFirst(e: RequestFailure, defaultMessage: string)
    ensures Candidates(e) == [] ==> HandleError(e, defaultMessage) == defaultMessage
    ensures Candidates(e) != [] ==> HandleError(e, defaultMessage) == Candidates(e)[0]
  {
  }

  // ----- ServicesAPI filters -----

  /** The fields of a service the filters read. */
  datatype ServiceInfo = ServiceInfo(id: int, serviceType: string, active: bool)

  /** `getActiveServices`: `services.filter(service => service.active)`. */
  function ActiveServices(services: seq<ServiceInfo>): (r: seq<ServiceInfo>)
    ensures |r| <= |services|
    ensures forall x :: x in r <==> x in services && x.active
  {
    if services == [] then []
    else (if services[0].active then [services[0]] else []) + ActiveServices(services[1..])
  }

  /** `getServicesByType`: `services.filter(service => service.type === serviceType)`. */
  function ServicesByType(services: seq<ServiceInfo>, serviceType: string): (r: seq<ServiceInfo>)
    ensures |r| <= |services|
    ensures forall x :: x in r <==> x in services && x.serviceType == serviceType
  {
    if services == [] then []
    else
      var first := if services[0].serviceType == serviceType then [services[0]] else [];
      first + ServicesByType(services[1..], serviceType)
  }

  /** Filtering for active services twice is filtering once. */
  lemma {:induction false} ActiveServicesIdempotent(services: seq<ServiceInfo>)
    ensures ActiveServices(ActiveServices(services)) == ActiveServices(services)
    decreases |services|
  {
    if services != [] {
      ActiveServicesIdempotent(services[1..]);
      ActiveServicesConcat((if services[0].active then [services[0]] else []), ActiveServices(services[1..]));
    }
  }

  lemma {:induction false} ActiveServicesConcat(a: seq<ServiceInfo>, b: seq<ServiceInfo>)
    ensures ActiveServices(a + b) == ActiveServices(a) + ActiveServices(b)
    decreases |a|
  {
    if a != [] {
      assert (a + b)[1..] == a[1..] + b;
      ActiveServicesConcat(a[1..], b);
    } else {
      assert a + b == b;
    }
  }

  // ----- error lists -----

  /** The messages of the failed checks, in the order the checks run: the `errors`
      array the validators push into. */
  function Messages(checks: seq<(bool, string)>): seq<string>
    decreases |checks|
  {
    if checks == [] then []
    else
      var last := checks[|checks| - 1];
      Messages(checks[..|checks| - 1]) + (if last.0 then [last.1] else [])
  }

  /** No check fails. */
  predicate AllPass(checks: seq<(bool, string)>) {
    forall i :: 0 <= i < |checks| ==> !checks[i].0
  }

  lemma AllPassEight(cs: seq<(bool, string)>)
    requires |cs| == 8
    ensures AllPass(cs) <==> !cs[0].0 && !cs[1].0 && !cs[2].0 && !cs[3].0 && !cs[4].0 && !cs[5].0 && !cs[6].0 && !cs[7].0
  {
  }

  lemma AllPassFive(cs: seq<(bool, string)>)
    requires |cs| == 5
    ensures AllPass(cs) <==> !cs[0].0 && !cs[1].0 && !cs[2].0 && !cs[3].0 && !cs[4].0
  {
  }

  lemma AllPassThree(cs: seq<(bool, string)>)
    requires |cs| == 3
    ensures AllPass(cs) <==> !cs[0].0 && !cs[1].0 && !cs[2].0
  {
  }

  /** No message is pushed exactly when no check fails. */
  lemma {:induction false} MessagesEmptyIff(checks: seq<(bool, string)>)
    ensures Messages(checks) == [] <==> AllPass(checks)
    decreases |checks|
  {
    if checks != [] {
      MessagesEmptyIff(checks[..|checks| - 1]);
    }
  }

  /** A message is reported exactly when a check carrying it fails. */
  lemma {:induction false} MessagesMember(checks: seq<(bool, string)>, m: string)
    ensures m in Messages(checks) <==> exists i :: 0 <= i < |checks| && checks[i].0 && checks[i].1 == m
    decreases |checks|
  {
    if checks != [] {
      var n := |checks| - 1;
      MessagesMember(checks[..n], m);
      if m in Messages(checks[..n]) {
        var i :| 0 <= i < n && checks[..n][i].0 && checks[..n][i].1 == m;
        assert checks[i] == checks[..n][i];
      }
      if exists i :: 0 <= i < |checks| && checks[i].0 && checks[i].1 == m {
        var i :| 0 <= i < |checks| && checks[i].0 && checks[i].1 == m;
        if i < n {
          assert checks[..n][i] == checks[i];
        }
      }
    }
  }

  /** A validator's outcome: `true`, or an error whose message joins the list. */
  function Verdict(errors: seq<string>): (r: Result<bool, string>)
    ensures r.Ok? <==> errors == []
    ensures r.Err? ==> r.error == Strings.Join(errors, ", ")
  {
    if |errors| > 0 then Err(Strings.Join(errors, ", ")) else Ok(true)
  }

  // ----- ContactAPI.validateContactForm -----

  datatype ContactForm = ContactForm(name: Option<string>, email: Option<string>,
    subject: Option<string>, message: Option<string>)

  /** The checks of `validateContactForm`, each with its message, in source order;
      the e-mail pattern is checked last. */
  function ContactChecks(f: ContactForm): seq<(bool, string)> {
    [ (!Filled(f.name), "Name is required"),
      (TruthyStr(f.name) && |f.name.value| > 100, "Name cannot exceed 100 characters"),
      (!Filled(f.email), "Email is required"),
      (!Filled(f.subject), "Subject is required"),
      (TruthyStr(f.subject) && |f.subject.value| > 200, "Subject cannot exceed 200 characters"),
      (!Filled(f.message), "Message is required"),
      (TruthyStr(f.message) && |Strings.Trim(f.message.value)| < 10, "Message must be at least 10 characters long"),
      (TruthyStr(f.email) && !Strings.IsEmailShape(f.email.value), "Invalid email format") ]
  }

  function ValidateContactForm(f: ContactForm): Result<bool, string> {
    Verdict(Messages(ContactChecks(f)))
  }

  /** The contact form passes exactly when the name is given and at most 100
      characters long, the e-mail is given and matches the pattern, the subject is
      given and at most 200 characters long, and the trimmed message has at least
      10 characters. */
  lemma ContactFormAcceptedIff(f: ContactForm)
    ensures ValidateContactForm(f).Ok? <==>
      Filled(f.name) && |f.name.value| <= 100
      && Filled(f.email) && Strings.MatchesEmailRegex(f.email.value)
      && Filled(f.subject) && |f.subject.value| <= 200
      && f.message.Some? && |Strings.Trim(f.message.value)| >= 10
  {
    ContactChecksPassIff(f);
    if f.email.Some? {
      Strings.EmailShapeIffRegex(f.email.value);
    }
  }

  lemma ContactChecksPassIff(f: ContactForm)
    ensures Messages(ContactChecks(f)) == [] <==>
      Filled(f.name) && |f.name.value| <= 100
      && Filled(f.email) && Strings.IsEmailShape(f.email.value)
      && Filled(f.subject) && |f.subject.value| <= 200
      && f.message.Some? && |Strings.Trim(f.message.value)| >= 10
  {
    var cs := ContactChecks(f);
    MessagesEmptyIff(cs);
    AllPassEight(cs);
    FilledIsTruthy(f.name);
    FilledIsTruthy(f.email);
    FilledIsTruthy(f.subject);
    FilledIsTruthy(f.message);
    assert (!cs[0].0 && !cs[1].0) <==> Filled(f.name) && |f.name.value| <= 100;
    assert (!cs[3].0 && !cs[4].0) <==> Filled(f.subject) && |f.subject.value| <= 200;
    assert (!cs[5].0 && !cs[6].0) <==> f.message.Some? && |Strings.Trim(f.message.value)| >= 10;
    assert (!cs[2].0 && !cs[7].0) <==> Filled(f.email) && Strings.IsEmailShape(f.email.value);
  }

  /** Text that is not blank once trimmed is not empty. */
  lemma FilledIsTruthy(x: Option<string>)
    ensures Filled(x) ==> TruthyStr(x)
  {
  }

  /** A malformed e-mail is always the last error reported. */
  lemma ContactEmailErrorLast(f: ContactForm)
    requires TruthyStr(f.email) && !Strings.IsEmailShape(f.email.value)
    ensures var errors := Messages(ContactChecks(f));
      errors != [] && errors[|errors| - 1] == "Invalid email format"
  {
  }

  // ----- CartAPI -----

  /** The fields of an item that `validateCartItem` reads. */
  datatype CartItemData = CartItemData(serviceId: Option<int>, quantity: Option<int>,
    description: Option<string>, needsCustomDesign: bool, customDesignPrice: Option<real>)

  /** The checks of `validateCartItem`, in source order. */
  function CartItemChecks(d: CartItemData): seq<(bool, string)> {
    [ (!TruthyInt(d.serviceId), "Service is required"),
      (!TruthyInt(d.quantity) || d.quantity.value <= 0, "Quantity must be greater than 0"),
      (d.quantity.Some? && d.quantity.value > 100, "Quantity cannot exceed 100"),
      (!Filled(d.description), "Description is required"),
      (d.needsCustomDesign && !Truthy(d.customDesignPrice), "Custom design price is required when design is needed") ]
  }

  function ValidateCartItem(d: CartItemData): Result<bool, string> {
    Verdict(Messages(CartItemChecks(d)))
  }

  /** A cart item passes exactly when it names a service, has a quantity from 1 to
      100 and a description, and carries a design price when it needs a design. */
  lemma CartItemAcceptedIff(d: CartItemData)
    ensures ValidateCartItem(d).Ok? <==>
      TruthyInt(d.serviceId) && d.quantity.Some? && 1 <= d.quantity.value <= 100
      && Filled(d.description) && (d.needsCustomDesign ==> Truthy(d.customDesignPrice))
  {
    var cs := CartItemChecks(d);
    MessagesEmptyIff(cs);
    AllPassFive(cs);
  }

  /** `addItemToCart`: the item itself when it validates, otherwise the joined
      validation errors. */
  function AddItemToCart(d: CartItemData): (r: Result<CartItemData, string>)
    ensures r.Ok? <==> ValidateCartItem(d).Ok?
    ensures r.Ok? ==> r.value == d
    ensures r.Err? ==> r.error == ValidateCartItem(d).error
  {
    var v := ValidateCartItem(d);
    if v.Err? then Err(v.error) else Ok(d)
  }

  /** The fields of a cart line that `calculateCartTotal` reads. */
  datatype PricedLine = PricedLine(estimatedPrice: Option<real>, quantity: Option<int>,
    needsCustomDesign: bool, customDesignPrice: Option<real>)

  /** `(item.estimated_price || 0) * (item.quantity || 1)`. */
  function LineSubtotal(item: PricedLine): real {
    RealOr(item.estimatedPrice, 0.0) * IntOr(item.quantity, 1)
  }

  /** The design price a line adds, once whatever its quantity. */
  function LineDesign(item: PricedLine): real {
    if item.needsCustomDesign && Truthy(item.customDesignPrice) then item.customDesignPrice.value else 0.0
  }

  function Subtotal(items: seq<PricedLine>): real
    decreases |items|
  {
    if items == [] then 0.0 else Subtotal(items[..|items| - 1]) + LineSubtotal(items[|items| - 1])
  }

  function DesignTotal(items: seq<PricedLine>): real
    decreases |items|
  {
    if items == [] then 0.0 else DesignTotal(items[..|items| - 1]) + LineDesign(items[|items| - 1])
  }

  datatype CartSummary = CartSummary(subtotal: real, designTotal: real, total: real, itemsCount: nat)

  /** `calculateCartTotal`: one pass over the lines accumulating the subtotal and
      the design total. */
  method CalculateCartTotal(items: seq<PricedLine>) returns (s: CartSummary)
    ensures s.subtotal == Subtotal(items) && s.designTotal == DesignTotal(items)
    ensures s.total == s.subtotal + s.designTotal && s.itemsCount == |items|
  {
    var subtotal := 0.0;
    var designTotal := 0.0;
    for i := 0 to |items|
      invariant subtotal == Subtotal(items[..i])
      invariant designTotal == DesignTotal(items[..i])
    {
      assert items[..i + 1][..i] == items[..i];
      var item := items[i];
      subtotal := subtotal + RealOr(item.estimatedPrice, 0.0) * IntOr(item.quantity, 1);
      if item.needsCustomDesign && Truthy(item.customDesignPrice) {
        designTotal := designTotal + item.customDesignPrice.value;
      }
    }
    assert items[..|items|] == items;
    s := CartSummary(subtotal, designTotal, subtotal + designTotal, |items|);
  }

  /** Both sums split over a concatenation of carts. */
  lemma {:induction false} CartSumsConcat(a: seq<PricedLine>, b: seq<PricedLine>)
    ensures Subtotal(a + b) == Subtotal(a) + Subtotal(b)
    ensures DesignTotal(a + b) == DesignTotal(a) + DesignTotal(b)
    decreases |b|
  {
    if b == [] {
      assert a + b == a;
    } else {
      var n := |b| - 1;
      assert (a + b)[..|a + b| - 1] == a + b[..n];
      CartSumsConcat(a, b[..n]);
    }
  }

  /** Prices and quantities that are not negative give a cart total that is not
      negative. */
  lemma {:induction false} CartTotalsNonNegative(items: seq<PricedLine>)
    requires forall i :: 0 <= i < |items| ==> (RealOr(items[i].estimatedPrice, 0.0) >= 0.0
      && IntOr(items[i].quantity, 1) >= 0.0 && RealOr(items[i].customDesignPrice, 0.0) >= 0.0)
    ensures Subtotal(items) >= 0.0 && DesignTotal(items) >= 0.0
    decreases |items|
  {
    if items != [] {
      var n := |items| - 1;
      CartTotalsNonNegative(items[..n]);
      var last := items[n];
      assert RealOr(last.estimatedPrice, 0.0) * IntOr(last.quantity, 1) >= 0.0;
    }
  }

  // ----- OrdersAPI -----

  /** The fields of an order payload that `validateOrderData` reads; the items
      array only through its length. */
  datatype OrderDataInput = OrderDataInput(customerPhone: Option<string>, itemCount: Option<nat>)

  /** The checks of `validateOrderData`, in source order. */
  function OrderDataChecks(d: OrderDataInput): seq<(bool, string)> {
    [ (!Filled(d.customerPhone), "Customer phone is required"),
      (d.itemCount.None? || d.itemCount.value == 0, "Order must have at least one item"),
      (d.itemCount.Some? && d.itemCount.value > 50, "Order cannot have more than 50 items") ]
  }

  function ValidateOrderData(d: OrderDataInput): Result<bool, string> {
    Verdict(Messages(OrderDataChecks(d)))
  }

  /** An order payload passes exactly when the trimmed phone is not empty and it has
      from 1 to 50 items. */
  lemma OrderDataAcceptedIff(d: OrderDataInput)
    ensures ValidateOrderData(d).Ok? <==> Filled(d.customerPhone) && d.itemCount.Some? && 1 <= d.itemCount.value <= 50
  {
    var cs := OrderDataChecks(d);
    MessagesEmptyIff(cs);
    AllPassThree(cs);
  }

  /** The status text of an order as the order list returns it. */
  datatype OrderSummary = OrderSummary(status: Option<string>)

  datatype OrderStats = OrderStats(total: nat, pending: nat, estimated: nat, confirmed: nat,
    inProgress: nat, completed: nat, canceled: nat)

  /** `orders.filter(o => o.status === s).length`. */
  function CountStatus(orders: seq<OrderSummary>, s: string): (n: nat)
    ensures n <= |orders|
    decreases |orders|
  {
    if orders == [] then 0
    else CountStatus(orders[..|orders| - 1], s) + (if orders[|orders| - 1].status == Some(s) then 1 else 0)
  }

  /** The count is zero exactly when no order has the status, and is the whole list
      exactly when every order has it. */
  lemma {:induction false} CountStatusIff(orders: seq<OrderSummary>, s: string)
    ensures CountStatus(orders, s) == 0 <==> forall i :: 0 <= i < |orders| ==> orders[i].status != Some(s)
    ensures CountStatus(orders, s) == |orders| <==> forall i :: 0 <= i < |orders| ==> orders[i].status == Some(s)
    decreases |orders|
  {
    if orders != [] {
      var n := |orders| - 1;
      var front := orders[..n];
      CountStatusIff(front, s);
      assert forall i :: 0 <= i < n ==> front[i] == orders[i];
    }
  }

  const StatisticsStatuses: seq<string> := ["pendiente", "cotizado", "confirmado", "en_proceso", "completado", "cancelado"]

  /** `getOrderStatistics`: a failed order list passes its error through; otherwise
      the counts of the Spanish status names. */
  function GetOrderStatistics(result: Result<seq<OrderSummary>, string>): (r: Result<OrderStats, string>)
    ensures result.Err? ==> r == Err(result.error)
    ensures r.Ok? ==> r.value.total == |result.value|
  {
    match result
    case Err(e) => Err(e)
    case Ok(orders) =>
      Ok(OrderStats(|orders|, CountStatus(orders, "pendiente"), CountStatus(orders, "cotizado"),
        CountStatus(orders, "confirmado"), CountStatus(orders, "en_proceso"),
        CountStatus(orders, "completado"), CountStatus(orders, "cancelado")))
  }

  function StatsSum(t: OrderStats): nat {
    t.pending + t.estimated + t.confirmed + t.inProgress + t.completed + t.canceled
  }

  /** The statistics of the order list `orders`. */
  function StatsOf(orders: seq<OrderSummary>): OrderStats {
    GetOrderStatistics(Ok(orders)).value
  }

  predicate Counted(o: OrderSummary) {
    o.status.Some? && o.status.value in StatisticsStatuses
  }

  /** One more order raises the six counts together by one if its status is one of
      the six names, and leaves them otherwise. */
  lemma StatsSumStep(orders: seq<OrderSummary>)
    requires orders != []
    ensures StatsSum(StatsOf(orders)) ==
      StatsSum(StatsOf(orders[..|orders| - 1])) + (if Counted(orders[|orders| - 1]) then 1 else 0)
  {
  }

  /** Every order is counted at most once, and exactly once when its status is one of
      the six Spanish names. */
  lemma {:induction false} StatusCountsPartition(orders: seq<OrderSummary>)
    ensures StatsSum(StatsOf(orders)) <= |orders|
    ensures StatsSum(StatsOf(orders)) == |orders| <==> forall i :: 0 <= i < |orders| ==> Counted(orders[i])
    decreases |orders|
  {
    if orders != [] {
      var n := |orders| - 1;
      var front := orders[..n];
      StatusCountsPartition(front);
      StatsSumStep(orders);
      assert forall i :: 0 <= i < n ==> front[i] == orders[i];
    }
  }

  /** The English status names that the back end uses are not counted at all. */
  lemma {:induction false} EnglishStatusesUncounted(orders: seq<OrderSummary>)
    requires forall i :: 0 <= i < |orders| ==> (orders[i].status.Some?
      && orders[i].status.value in ["pending", "estimated", "confirmed", "in_progress", "completed", "canceled"])
    ensures StatsSum(StatsOf(orders)) == 0
    decreases |orders|
  {
    if orders != [] {
      var n := |orders| - 1;
      EnglishStatusesUncounted(orders[..n]);
    }
  }
}
