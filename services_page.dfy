/** The order modal of the services page (frontend/src/pages/Services.jsx): its
    reset on opening, the item form's input handler, and the checks and the cart
    line built by "add to cart". Number parsing is passed in as functions. */
module ServicesPage {
  import opened Wrappers
  import Js
  import CartContext

  /** A value held in the item form: text from an input, the initial number, a
      checkbox flag, or a file input's first file (`undefined` when none). */
  datatype FormValue = FText(s: string) | FNum(n: int) | FFlag(b: bool) | FFile(file: Option<string>)

  /** The item form, keyed by input name. */
  type ItemForm = map<string, FormValue>

  /** The order form; its `items` array is reset but never read here. */
  datatype OrderForm = OrderForm(customerPhone: string, additionalNotes: string, items: seq<CartContext.CartItem>)

  /** A service as listed on the page. */
  datatype ServiceListing = ServiceListing(id: int, name: string, serviceType: string, basePrice: Option<real>)

  /** The modal's state. */
  datatype ModalState = ModalState(selectedService: Option<ServiceListing>, showModal: bool,
    itemForm: ItemForm, orderForm: OrderForm)

  const DefaultItemForm: ItemForm := map[
    "description" := FText(""), "quantity" := FNum(1), "length_dimensions" := FText(""),
    "width_dimensions" := FText(""), "height_dimensions" := FText(""),
    "needs_custom_design" := FFlag(false), "design_file" := FFile(None)]

  const DefaultOrderForm := OrderForm("", "", [])

  /** `handleOpenModal(service)`: select the service, show the modal and reset both
      forms. */
  function OpenModal(st: ModalState, service: ServiceListing): (r: ModalState)
    ensures r.selectedService == Some(service) && r.showModal
    ensures r.itemForm.Keys == {"description", "quantity", "length_dimensions", "width_dimensions",
      "height_dimensions", "needs_custom_design", "design_file"}
    ensures "quantity" in r.itemForm && r.itemForm["quantity"] == FNum(1)
    ensures "design_file" in r.itemForm && r.itemForm["design_file"] == FFile(None)
    ensures forall k :: k in r.itemForm && k != "quantity" ==> !FormTruthy(r.itemForm, k)
    ensures r.orderForm == OrderForm("", "", [])
  {
    ModalState(Some(service), true, DefaultItemForm, DefaultOrderForm)
  }

  /** Opening the modal forgets everything typed before. */
  lemma OpenModalForgets(a: ModalState, b: ModalState, service: ServiceListing)
    ensures OpenModal(a, service) == OpenModal(b, service)
  {
  }

  /** An input's change event. */
  datatype InputEvent = InputEvent(name: string, value: string, inputType: string, checked: bool, files: seq<string>)

  /** `handleItemInputChange`: a file input stores its first file, a checkbox its
      flag, every other input its text. */
  function ItemInputChange(form: ItemForm, e: InputEvent): (r: ItemForm)
    ensures r.Keys == form.Keys + {e.name}
    ensures forall k :: k in form && k != e.name ==> r[k] == form[k]
    ensures e.inputType == "file" ==> r[e.name] == FFile(if |e.files| > 0 then Some(e.files[0]) else None)
    ensures e.inputType == "checkbox" ==> r[e.name] == FFlag(e.checked)
    ensures e.inputType != "file" && e.inputType != "checkbox" ==> r[e.name] == FText(e.value)
  {
    if e.inputType == "file" then form[e.name := FFile(if |e.files| > 0 then Some(e.files[0]) else None)]
    else form[e.name := if e.inputType == "checkbox" then FFlag(e.checked) else FText(e.value)]
  }

  /** JavaScript truthiness of a form value; a missing key is `undefined`. */
  predicate FormTruthy(form: ItemForm, key: string) {
    key in form &&
    match form[key]
    case FText(s) => s != ""
    case FNum(n) => n != 0
    case FFlag(b) => b
    case FFile(f) => f.Some?
  }

  /** `String(value)`, the text number parsing sees. */
  function FormText(v: FormValue): string {
    match v
    case FText(s) => s
    case FNum(n) => Js.IntText(n)
    case FFlag(b) => if b then "true" else "false"
    case FFile(f) => if f.Some? then "[object File]" else "undefined"
  }

  /** `parseInt(form.quantity)`; an integer is parsed back to itself. */
  function QuantityOf(form: ItemForm, parseInt: string -> int): int {
    if "quantity" !in form then parseInt("undefined")
    else match form["quantity"]
      case FNum(n) => n
      case v => parseInt(FormText(v))
  }

  /** `form.key ? parseFloat(form.key) : null`. */
  function DimensionOf(form: ItemForm, key: string, parseFloat: string -> real): (r: Option<real>)
    ensures r.None? <==> !FormTruthy(form, key)
  {
    if FormTruthy(form, key) then Some(parseFloat(FormText(form[key]))) else None
  }

  /** `itemForm.design_file`: the chosen file, if any. */
  function DesignFileOf(form: ItemForm): Option<string> {
    if "design_file" in form && form["design_file"].FFile? then form["design_file"].file else None
  }

  /** What "add to cart" does: warn and stop, or add this line to the cart. */
  datatype AddToCartOutcome = NotSignedIn | NeedPhone | NeedDescription | AddLine(item: CartContext.CartItem)

  /** `handleAddToCart` for the selected service: signed in, then a phone, then a
      description, the first failure stopping it; otherwise the cart line. */
  function HandleAddToCart(signedIn: bool, service: ServiceListing, itemForm: ItemForm, orderForm: OrderForm,
                           parseInt: string -> int, parseFloat: string -> real): (r: AddToCartOutcome)
    ensures !signedIn <==> r == NotSignedIn
    ensures r == NeedPhone <==> signedIn && orderForm.customerPhone == ""
    ensures r == NeedDescription <==> signedIn && orderForm.customerPhone != "" && !FormTruthy(itemForm, "description")
    ensures r.AddLine? ==> (r.item.service == service.id && r.item.basePrice == service.basePrice
      && r.item.estimatedUnitPrice == Some(RealOr(service.basePrice, 0.0))
      && r.item.quantity == QuantityOf(itemForm, parseInt)
      && r.item.lengthDimensions == DimensionOf(itemForm, "length_dimensions", parseFloat)
      && r.item.widthDimensions == DimensionOf(itemForm, "width_dimensions", parseFloat)
      && r.item.heightDimensions == DimensionOf(itemForm, "height_dimensions", parseFloat)
      && r.item.customerPhone == orderForm.customerPhone && r.item.cartItemId.None?)
    ensures r.AddLine? ==> r.item.serviceName == service.name && r.item.serviceType == service.serviceType
    ensures r.AddLine? ==> r.item.description == FormText(itemForm["description"])
    ensures r.AddLine? ==> r.item.needsCustomDesign == FormTruthy(itemForm, "needs_custom_design")
    ensures r.AddLine? ==> r.item.designFile == DesignFileOf(itemForm)
    ensures r.AddLine? ==> r.item.additionalNotes == orderForm.additionalNotes
  {
    if !signedIn then NotSignedIn
    else if orderForm.customerPhone == "" then NeedPhone
    else if !FormTruthy(itemForm, "description") then NeedDescription
    else
      var file := DesignFileOf(itemForm);
      AddLine(CartContext.CartItem(
        service.id, service.name, service.serviceType, service.basePrice,
        FormText(itemForm["description"]),
        QuantityOf(itemForm, parseInt),
        DimensionOf(itemForm, "length_dimensions", parseFloat),
        DimensionOf(itemForm, "width_dimensions", parseFloat),
        DimensionOf(itemForm, "height_dimensions", parseFloat),
        FormTruthy(itemForm, "needs_custom_design"),
        file,
        orderForm.customerPhone, orderForm.additionalNotes,
        Some(RealOr(service.basePrice, 0.0)),
        None))
  }

  /** Right after the modal opens, "add to cart" asks for the phone (when signed in),
      and once a phone and a description are typed in, it adds one line of quantity 1
      with no dimensions and no file. */
  lemma FreshFormAddsOneUnit(st: ModalState, service: ServiceListing, phone: string, description: string,
                            parseInt: string -> int, parseFloat: string -> real)
    requires phone != "" && description != ""
    ensures var shown := OpenModal(st, service);
      HandleAddToCart(true, service, shown.itemForm, shown.orderForm, parseInt, parseFloat) == NeedPhone
    ensures var shown := OpenModal(st, service);
      var typed := ItemInputChange(shown.itemForm, InputEvent("description", description, "textarea", false, []));
      var r := HandleAddToCart(true, service, typed, shown.orderForm.(customerPhone := phone), parseInt, parseFloat);
      r.AddLine? && r.item.quantity == 1 && r.item.description == description
      && r.item.lengthDimensions.None? && r.item.widthDimensions.None? && r.item.heightDimensions.None?
      && r.item.designFile.None? && !r.item.needsCustomDesign
  {
    var shown := OpenModal(st, service);
    var typed := ItemInputChange(shown.itemForm, InputEvent("description", description, "textarea", false, []));
    assert typed["quantity"] == FNum(1);
    assert typed["design_file"] == FFile(None);
    assert typed["length_dimensions"] == FText("") && typed["width_dimensions"] == FText("");
    assert typed["height_dimensions"] == FText("") && typed["needs_custom_design"] == FFlag(false);
  }
}
