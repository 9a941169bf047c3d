/** The checkout page: the customer's details, the choice between home
    delivery and pick-up, and the totals; a valid submission is stored under
    `checkoutData` for the payment page. */
module Checkout {
  import opened Common
  import opened Store
  import opened Orders

  /** The shipping charge for home delivery. */
  const DeliveryFee: real := 5.0

  /** The browser storage key the payment page reads. */
  const CheckoutKey: string := "checkoutData"

  datatype FormField = FullName | Phone | Dni | Email | Address | City | PostalCode | Notes

  const EmptyForm: CustomerInfo := CustomerInfo("", "", "", "", "", "", "", "")

  function Get(form: CustomerInfo, field: FormField): string {
    match field
    case FullName => form.fullName
    case Phone => form.phone
    case Dni => form.dni
    case Email => form.email
    case Address => form.address
    case City => form.city
    case PostalCode => form.postalCode
    case Notes => form.notes
  }

  /** `{...formData, [name]: value}`: the named field takes the value and
      every other field keeps its own. */
  function Set(form: CustomerInfo, field: FormField, value: string): (r: CustomerInfo)
    ensures Get(r, field) == value
    ensures forall g :: g != field ==> Get(r, g) == Get(form, g)
  {
    match field
    case FullName => form.(fullName := value)
    case Phone => form.(phone := value)
    case Dni => form.(dni := value)
    case Email => form.(email := value)
    case Address => form.(address := value)
    case City => form.(city := value)
    case PostalCode => form.(postalCode := value)
    case Notes => form.(notes := value)
  }

  /** Shipping: the delivery fee for home delivery, nothing for pick-up. */
  function ShippingCost(d: DeliveryType): (r: real)
    ensures r == DeliveryFee <==> d == Delivery
    ensures r == 0.0 <==> d == Pickup
  {
    match d
    case Delivery => DeliveryFee
    case Pickup => 0.0
  }

  /** The cart's total plus shipping. */
  function Total(cartTotal: real, d: DeliveryType): (r: real)
    ensures d == Pickup ==> r == cartTotal
    ensures d == Delivery ==> r == cartTotal + DeliveryFee
  {
    cartTotal + ShippingCost(d)
  }

  datatype CheckoutError = MissingRequired | MissingAddress

  /** A required field is left blank: name, phone or DNI. */
  predicate MissingRequiredField(form: CustomerInfo) {
    form.fullName == "" || form.phone == "" || form.dni == ""
  }

  /** The checks of `handleSubmit`, in order. */
  function Validate(form: CustomerInfo, d: DeliveryType): (r: Option<CheckoutError>)
    ensures r == Some(MissingRequired) <==> MissingRequiredField(form)
    ensures r == Some(MissingAddress)
        <==> !MissingRequiredField(form) && d == Delivery && (form.address == "" || form.city == "")
    ensures r == None
        <==> !MissingRequiredField(form) && (d == Pickup || (form.address != "" && form.city != ""))
  {
    if MissingRequiredField(form) then Some(MissingRequired)
    else if d.Delivery? && (form.address == "" || form.city == "") then Some(MissingAddress)
    else None
  }

  /** What is stored for the payment page: the form, the delivery type and
      the total. */
  datatype CheckoutRecord = CheckoutRecord(form: CustomerInfo, deliveryType: DeliveryType, total: real)

  /** The browser's key-value storage, as far as these pages use it. */
  class Storage {
    var slots: map<string, CheckoutRecord>

    constructor ()
      ensures slots == map[]
    {
      slots := map[];
    }

    method SetItem(key: string, value: CheckoutRecord)
      modifies this
      ensures slots == old(slots)[key := value]
    {
      slots := slots[key := value];
    }

    method RemoveItem(key: string)
      modifies this
      ensures slots == old(slots) - {key}
    {
      slots := slots - {key};
    }
  }

  /** The guard on rendering: an empty cart sends the customer back to
      the cart page. */
  function CheckoutEntry(items: seq<LineItem>): (r: Gate)
    ensures r.Redirect? <==> items == []
    ensures r.Redirect? ==> r.to == CartView
  {
    if items == [] then Redirect(CartView) else Open
  }

  /** The browser's constraint validation of the `type="email"` input:
      a filled-in address that `validEmail` rejects blocks the submit event,
      so `handleSubmit` never runs. An empty address is not checked. */
  predicate EmailRejected(form: CustomerInfo, validEmail: string -> bool) {
    form.email != "" && !validEmail(form.email)
  }

  datatype SubmitOutcome = Blocked | Invalid(error: CheckoutError) | Proceed(route: Route)

  class CheckoutView {
    var deliveryType: DeliveryType
    var form: CustomerInfo

    constructor ()
      ensures deliveryType == Delivery && form == EmptyForm
    {
      deliveryType := Delivery;
      form := EmptyForm;
    }

    /** `handleInputChange` on the input or text area named `field`. */
    method InputChange(field: FormField, value: string)
      modifies this
      ensures form == Set(old(form), field, value)
      ensures deliveryType == old(deliveryType)
    {
      form := Set(form, field, value);
    }

    /** The radio group. */
    method SetDeliveryType(d: DeliveryType)
      modifies this
      ensures deliveryType == d && form == old(form)
    {
      deliveryType := d;
    }

    /** Submitting the form: the browser first refuses an e-mail address
        that `validEmail` rejects, and nothing happens; otherwise
        `handleSubmit` runs, an invalid form is reported and nothing is
        stored, and a valid one is stored with the current delivery type and
        total while the page moves on to payment. */
    method Submit(storage: Storage, cartTotal: real, validEmail: string -> bool) returns (r: SubmitOutcome)
      modifies storage
      ensures EmailRejected(form, validEmail) ==> r == Blocked && storage.slots == old(storage.slots)
      ensures !EmailRejected(form, validEmail) && Validate(form, deliveryType).Some? ==>
                r == Invalid(Validate(form, deliveryType).value) && storage.slots == old(storage.slots)
      ensures !EmailRejected(form, validEmail) && Validate(form, deliveryType).None? ==>
                && r == Proceed(PaymentView)
                && storage.slots == old(storage.slots)[CheckoutKey := CheckoutRecord(form, deliveryType, Total(cartTotal, deliveryType))]
    {
      if EmailRejected(form, validEmail) {
        return Blocked;
      }
      var error := Validate(form, deliveryType);
      if error.Some? {
        return Invalid(error.value);
      }
      storage.SetItem(CheckoutKey, CheckoutRecord(form, deliveryType, Total(cartTotal, deliveryType)));
      r := Proceed(PaymentView);
    }
  }

  /** Pick-up asks for no address: with the required fields filled in, a
      pick-up form is always accepted, whatever the address fields hold. */
  lemma PickupNeedsNoAddress(form: CustomerInfo, address: string, city: string)
    requires !MissingRequiredField(form)
    ensures Validate(form.(address := address, city := city), Pickup) == None
  {
  }

  /** Every form the checkout accepts for delivery also passes for
      pick-up, and not the other way round. */
  lemma DeliveryStricterThanPickup(form: CustomerInfo)
    ensures Validate(form, Delivery) == None ==> Validate(form, Pickup) == None
    ensures Validate(EmptyForm.(fullName := "A", phone := "1", dni := "2"), Pickup) == None
    ensures Validate(EmptyForm.(fullName := "A", phone := "1", dni := "2"), Delivery) == Some(MissingAddress)
  {
  }

  /** The handler's own checks leave the e-mail alone: a pick-up form with
      the required fields and a malformed address passes `Validate`, and
      only the browser's check keeps it from being stored. */
  lemma BrowserCatchesEmail(validEmail: string -> bool)
    requires !validEmail("ana")
    ensures var form := EmptyForm.(fullName := "Ana", phone := "1", dni := "2", email := "ana");
            Validate(form, Pickup) == None && EmailRejected(form, validEmail)
  {
  }

  /** Editing a field and reading it back gives the value typed, and the
      edit can be undone by writing the old value back. */
  lemma SetThenRestore(form: CustomerInfo, field: FormField, value: string)
    ensures Set(Set(form, field, value), field, Get(form, field)) == form
  {
  }
}
