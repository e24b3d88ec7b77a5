/** The checkout step of the cart page (frontend/src/pages/Cart.jsx): the checks
    before an order is submitted, the multipart payload built from the cart, the
    rule for clearing the cart afterwards, and the displayed line price. */
module CartPage {
  import opened Wrappers
  import Strings
  import Js
  import opened CartContext

  /** The stored user the page reads. */
  datatype UserInfo = UserInfo(firstName: Option<string>, lastName: Option<string>,
    username: string, email: string)

  /** One cart line as it is sent in the `items` JSON. */
  datatype SerializedItem = SerializedItem(
    service: int,
    description: string,
    quantity: int,
    lengthDimensions: Option<real>,
    widthDimensions: Option<real>,
    heightDimensions: Option<real>,
    needsCustomDesign: bool,
    hasDesignFile: bool)

  /** A value appended to the form data. */
  datatype Part = Text(text: string) | FilePart(fileName: string) | ItemsJson(items: seq<SerializedItem>)

  /** What `handleSubmitForReview` does: warn and stop, or post the form data. */
  datatype SubmitDecision = NeedLogin | NeedPhone | EmptyCart | Post(entries: seq<(string, Part)>)

  /** `customer_name`: "first last" when both are set, otherwise the username. */
  function CustomerName(u: UserInfo): (r: string)
    ensures TruthyStr(u.firstName) && TruthyStr(u.lastName) ==> r == u.firstName.value + " " + u.lastName.value
    ensures !(TruthyStr(u.firstName) && TruthyStr(u.lastName)) ==> r == u.username
  {
    if TruthyStr(u.firstName) && TruthyStr(u.lastName) then u.firstName.value + " " + u.lastName.value
    else u.username
  }

  /** `x ? parseFloat(x) : null` on a dimension that is already a number. */
  function Dimension(x: Option<real>): (r: Option<real>)
    ensures r.Some? <==> Truthy(x)
    ensures r.Some? ==> r == x
  {
    if Truthy(x) then x else None
  }

  /** The `map` callback's value for one cart line. */
  function Serialize(item: CartItem): (r: SerializedItem)
    ensures r.quantity != 0 && (item.quantity != 0 ==> r.quantity == item.quantity)
    ensures r.description == Strings.Trim(item.description)
    ensures r.hasDesignFile <==> item.designFile.Some?
  {
    SerializedItem(item.service, Strings.Trim(item.description),
      if item.quantity != 0 then item.quantity else 1,
      Dimension(item.lengthDimensions), Dimension(item.widthDimensions), Dimension(item.heightDimensions),
      item.needsCustomDesign, item.designFile.Some?)
  }

  /** The `items.map(...)` of serialised cart lines. */
  function SerializeAll(items: seq<CartItem>): (r: seq<SerializedItem>)
    ensures |r| == |items|
    ensures forall i :: 0 <= i < |items| ==> r[i] == Serialize(items[i])
  {
    Js.ArrayMap(Serialize, items)
  }

  /** The key under which line `i`'s design file is sent. */
  function FileKey(i: nat): string {
    "item_" + Js.IntText(i) + "_design_file"
  }

  /** The file entries for the lines `items[..n]`, in order. */
  function FileEntries(items: seq<CartItem>, n: nat): seq<(string, Part)>
    requires n <= |items|
    decreases n
  {
    if n == 0 then []
    else
      var line := items[n - 1];
      FileEntries(items, n - 1) + (if line.designFile.Some? then [(FileKey(n - 1), FilePart(line.designFile.value))] else [])
  }

  /** The four customer fields, appended first. */
  function CustomerEntries(u: UserInfo, phone: string, notes: string): seq<(string, Part)> {
    [("customer_name", Text(CustomerName(u))), ("customer_email", Text(u.email)),
     ("customer_phone", Text(Strings.Trim(phone))), ("additional_notes", Text(notes))]
  }

  /** The form-data building of `handleSubmitForReview`: the customer fields, then
      a file per line that has one while the lines are serialised, then the JSON of
      all lines. */
  method BuildFormData(u: UserInfo, phone: string, notes: string, items: seq<CartItem>)
    returns (entries: seq<(string, Part)>)
    ensures entries == CustomerEntries(u, phone, notes) + FileEntries(items, |items|)
      + [("items", ItemsJson(SerializeAll(items)))]
  {
    var files: seq<(string, Part)> := [];
    var itemsForJson: seq<SerializedItem> := [];
    var index := 0;
    while index < |items|
      invariant 0 <= index <= |items|
      invariant files == FileEntries(items, index)
      invariant itemsForJson == SerializeAll(items[..index])
    {
      var item := items[index];
      SerializeStep(items, index);
      FileStep(items, index);
      if item.designFile.Some? {
        files := files + [(FileKey(index), FilePart(item.designFile.value))];
      }
      itemsForJson := itemsForJson + [Serialize(item)];
      index := index + 1;
    }
    assert items[..index] == items;
    entries := CustomerEntries(u, phone, notes) + files + [("items", ItemsJson(itemsForJson))];
  }

  /** One turn of the loop in `BuildFormData`: the serialised line `i`. */
  lemma SerializeStep(items: seq<CartItem>, i: nat)
    requires i < |items|
    ensures SerializeAll(items[..i + 1]) == SerializeAll(items[..i]) + [Serialize(items[i])]
  {
    Js.ArrayMapStep(Serialize, items, i);
  }

  /** One turn of the loop in `BuildFormData`: the file entry of line `i`. */
  lemma FileStep(items: seq<CartItem>, i: nat)
    requires i < |items|
    ensures FileEntries(items, i + 1) == FileEntries(items, i)
      + (if items[i].designFile.Some? then [(FileKey(i), FilePart(items[i].designFile.value))] else [])
  {
  }

  /** The checks of `handleSubmitForReview`, in order: a user, a phone that is not
      blank, a cart that is not empty. */
  method HandleSubmitForReview(user: Option<UserInfo>, phone: string, notes: string, items: seq<CartItem>)
    returns (d: SubmitDecision)
    ensures user.None? <==> d == NeedLogin
    ensures d == NeedPhone <==> user.Some? && Strings.Trim(phone) == ""
    ensures d == EmptyCart <==> user.Some? && Strings.Trim(phone) != "" && items == []
    ensures d.Post? ==> (d.entries == CustomerEntries(user.value, phone, notes)
      + FileEntries(items, |items|) + [("items", ItemsJson(SerializeAll(items)))])
  {
    if user.None? {
      return NeedLogin;
    }
    if Strings.Trim(phone) == "" {
      return NeedPhone;
    }
    if |items| == 0 {
      return EmptyCart;
    }
    var entries := BuildFormData(user.value, phone, notes, items);
    d := Post(entries);
  }

  /** Every line with a design file has its entry, and every file entry belongs to
      such a line. */
  lemma {:induction false} FileEntriesOfLines(items: seq<CartItem>, n: nat)
    requires n <= |items|
    ensures forall i :: 0 <= i < n && items[i].designFile.Some? ==>
      (FileKey(i), FilePart(items[i].designFile.value)) in FileEntries(items, n)
    ensures forall e :: e in FileEntries(items, n) ==>
      exists i :: 0 <= i < n && items[i].designFile.Some? && e == (FileKey(i), FilePart(items[i].designFile.value))
    decreases n
  {
    if n > 0 {
      FileEntriesOfLines(items, n - 1);
    }
  }

  /** The reply to the order request: `None` when the request failed. */
  datatype SubmitReply = SubmitReply(success: bool)

  /** The cart after the reply: cleared only when the reply reports success. */
  function CartAfterSubmit(items: seq<CartItem>, reply: Option<SubmitReply>): (r: seq<CartItem>)
    ensures r == [] <==> (reply.Some? && reply.value.success) || items == []
    ensures r != [] ==> r == items
  {
    if reply.Some? && reply.value.success then [] else items
  }

  /** The price shown on a cart line: `estimated_unit_price * quantity`, where a
      missing price counts as zero. */
  function LinePrice(item: CartItem): (r: real)
    ensures !Truthy(item.estimatedUnitPrice) ==> r == 0.0
    ensures item.estimatedUnitPrice.Some? ==> r == item.estimatedUnitPrice.value * item.quantity as real
  {
    RealOr(item.estimatedUnitPrice, 0.0) * item.quantity as real
  }

  /** The line prices shown add up to the cart total whenever every line has an
      estimated price. */
  lemma {:induction false} LinePricesSumToTotal(items: seq<CartItem>)
    requires forall i :: 0 <= i < |items| ==> Truthy(items[i].estimatedUnitPrice)
    ensures Total(items) == LinePriceSum(items)
    decreases |items|
  {
    if items != [] {
      LinePricesSumToTotal(items[..|items| - 1]);
    }
  }

  function LinePriceSum(items: seq<CartItem>): real
    decreases |items|
  {
    if items == [] then 0.0 else LinePriceSum(items[..|items| - 1]) + LinePrice(items[|items| - 1])
  }
}
