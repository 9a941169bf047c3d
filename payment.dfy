/** The payment page: card details typed through formatters that group the
    card number by four digits and put a slash into the expiry date, and a
    submission that turns the cart and the stored checkout record into an
    order, empties the cart and forgets the record. */
module Payment {
  import opened Text
  import opened Common
  import opened Store
  import opened Orders
  import opened Checkout

  /** The longest card number, spaces included, the form accepts. */
  const MaxCardNumber: nat := 19
  const MaxExpiry: nat := 5
  const MaxCvv: nat := 3

  datatype CardField = CardNumber | CardName | ExpiryDate | Cvv

  datatype CardData = CardData(cardNumber: string, cardName: string, expiryDate: string, cvv: string)

  const EmptyCard: CardData := CardData("", "", "", "")

  // ---------------------------------------------------------------------
  // Card number

  /** `s.replace(/(\d{4})/g, "$1 ")`: scanning from the left, every run of
      four digits not already consumed is followed by a space. */
  function GroupDigits(s: string): (r: string)
    ensures |r| >= |s|
    decreases |s|
  {
    if s == [] then []
    else if |s| >= 4 && AllDigits(s[..4]) then s[..4] + " " + GroupDigits(s[4..])
    else [s[0]] + GroupDigits(s[1..])
  }

  /** The card number as the form shows it: never with white space at
      either end, and empty exactly when nothing but white space was typed. */
  function FormatCardNumber(v: string): (r: string)
    ensures r == [] || (!IsWhitespace(r[0]) && !IsWhitespace(r[|r| - 1]))
    ensures r == [] <==> StripWhitespace(v) == []
  {
    var d := StripWhitespace(v);
    assert d != [] ==> GroupDigits(d)[0] == d[0];
    Trim(GroupDigits(d))
  }

  /** Reference layout of a digit string: blocks of four separated by
      single spaces, the last block possibly shorter. */
  function Grouped(d: string): (r: string)
    decreases |d|
  {
    if |d| <= 4 then d else d[..4] + " " + Grouped(d[4..])
  }

  /** Characters of the layout: every fifth is a space, the others are the
      digits in order. */
  lemma {:induction false} GroupedLayout(d: string)
    requires AllDigits(d)
    ensures |Grouped(d)| == if d == [] then 0 else |d| + (|d| - 1) / 4
    ensures forall i :: 0 <= i < |Grouped(d)| ==>
              Grouped(d)[i] == if i % 5 == 4 then ' ' else d[i - i / 5]
    decreases |d|
  {
    if |d| > 4 {
      var t := d[4..];
      GroupedLayout(t);
      var r := Grouped(d);
      assert r == d[..4] + " " + Grouped(t);
      forall i | 0 <= i < |r|
        ensures r[i] == if i % 5 == 4 then ' ' else d[i - i / 5]
      {
        if i >= 5 {
          assert r[i] == Grouped(t)[i - 5];
          assert (i - 5) % 5 == i % 5 && (i - 5) / 5 == i / 5 - 1;
        }
      }
    }
  }

  /** A digit string is laid out with no white space at either end. */
  lemma GroupedEnds(d: string)
    requires AllDigits(d)
    ensures Grouped(d) == [] || (!IsWhitespace(Grouped(d)[0]) && !IsWhitespace(Grouped(d)[|Grouped(d)| - 1]))
  {
    GroupedLayout(d);
    var r := Grouped(d);
    if r != [] {
      var q, m := (|d| - 1) / 4, (|d| - 1) % 4;
      assert |r| - 1 == 5 * q + m;
      DivModFive(q, m);
      assert r[|r| - 1] == d[|d| - 1];
    }
  }

  lemma DivModFive(q: int, m: int)
    requires 0 <= m < 5
    ensures (5 * q + m) % 5 == m && (5 * q + m) / 5 == q
  {
  }

  /** On digits alone, the regular-expression replacement is the layout
      plus one trailing space when the last block is full. */
  lemma {:induction false} GroupDigitsOfDigits(d: string)
    requires AllDigits(d)
    ensures GroupDigits(d) == Grouped(d) + (if d != [] && |d| % 4 == 0 then " " else "")
    decreases |d|
  {
    if |d| < 4 {
      ShortRun(d);
    } else {
      assert AllDigits(d[..4]);
      GroupDigitsOfDigits(d[4..]);
      if |d| == 4 {
        assert d[4..] == [] && d[..4] == d;
      }
    }
  }

  /** Fewer than four characters hold no run of four digits. */
  lemma {:induction false} ShortRun(s: string)
    requires |s| < 4
    ensures GroupDigits(s) == s
    decreases |s|
  {
    if s != [] {
      ShortRun(s[1..]);
    }
  }

  /** Grouping only inserts spaces. */
  lemma {:induction false} GroupDigitsKeepsContent(s: string)
    ensures StripWhitespace(GroupDigits(s)) == StripWhitespace(s)
    decreases |s|
  {
    if s == [] {
    } else if |s| >= 4 && AllDigits(s[..4]) {
      GroupDigitsKeepsContent(s[4..]);
      KeepAround(s[..4], ' ', GroupDigits(s[4..]), NotWhitespace);
      StripSplit(s, 4);
    } else {
      GroupDigitsKeepsContent(s[1..]);
      StripSplit(s, 1);
      KeepAppend([s[0]], GroupDigits(s[1..]), NotWhitespace);
      assert [s[0]] == s[..1];
    }
  }

  /** Formatting keeps every character that is not white space, in order. */
  lemma CardNumberKeepsContent(v: string)
    ensures StripWhitespace(FormatCardNumber(v)) == StripWhitespace(v)
  {
    var d := StripWhitespace(v);
    TrimKeepsContent(GroupDigits(d));
    GroupDigitsKeepsContent(d);
  }

  /** Formatting an already formatted number changes nothing, so re-running
      the formatter on every keystroke is stable. */
  lemma CardNumberIdempotent(v: string)
    ensures FormatCardNumber(FormatCardNumber(v)) == FormatCardNumber(v)
  {
    CardNumberKeepsContent(v);
  }

  /** For a card number of digits (white space aside), the form shows
      exactly the reference layout. */
  lemma CardNumberOfDigits(v: string)
    requires AllDigits(StripWhitespace(v))
    ensures FormatCardNumber(v) == Grouped(StripWhitespace(v))
  {
    var d := StripWhitespace(v);
    GroupDigitsOfDigits(d);
    GroupedEnds(d);
    var w := if d != [] && |d| % 4 == 0 then " " else "";
    assert AllWhitespace(w);
    TrimDropsTrailing(Grouped(d), w);
  }

  /** With digits only, the length cap of nineteen admits exactly the
      numbers of at most sixteen digits. */
  lemma CardNumberCap(v: string)
    requires AllDigits(StripWhitespace(v))
    ensures |FormatCardNumber(v)| <= MaxCardNumber <==> |StripWhitespace(v)| <= 16
  {
    CardNumberOfDigits(v);
    GroupedLayout(StripWhitespace(v));
  }

  // ---------------------------------------------------------------------
  // Expiry date

  /** The expiry date as the form shows it: the digits typed, with a slash
      after the first two once there are two, and at most four digits. */
  function FormatExpiry(v: string): (r: string)
    ensures |r| <= MaxExpiry
    ensures var d := KeepDigits(v);
            KeepDigits(r) == d[..if |d| < 4 then |d| else 4]
    ensures var d := KeepDigits(v);
            |d| >= 2 ==> |r| == 1 + (if |d| < 4 then |d| else 4) && r[2] == '/' && r[..2] == d[..2]
    ensures var d := KeepDigits(v);
            |d| < 2 ==> r == d
  {
    var d := KeepDigits(v);
    if |d| >= 2 then
      var r := d[..2] + "/" + d[2..if |d| < 4 then |d| else 4];
      assert KeepDigits(r) == d[..if |d| < 4 then |d| else 4] by {
        KeepAppend(d[..2] + "/", d[2..if |d| < 4 then |d| else 4], IsDigit);
        KeepAppend(d[..2], "/", IsDigit);
        assert d[..if |d| < 4 then |d| else 4] == d[..2] + d[2..if |d| < 4 then |d| else 4];
      }
      r
    else d
  }

  /** Formatting a formatted expiry date changes nothing. */
  lemma ExpiryIdempotent(v: string)
    ensures FormatExpiry(FormatExpiry(v)) == FormatExpiry(v)
  {
    var d := KeepDigits(v);
    var r := FormatExpiry(v);
    assert KeepDigits(r) == d[..if |d| < 4 then |d| else 4];
  }

  /** Deleting the slash of `MM/` gives back `MM/`: with two digits the
      slash is always put back. */
  lemma ExpirySlashReturns(mm: string)
    requires |mm| == 2 && AllDigits(mm)
    ensures FormatExpiry(mm) == mm + "/"
  {
    assert mm[2..2] == [];
  }

  // ---------------------------------------------------------------------
  // Input handling

  /** The value `handleInputChange` stores for a field, or `None` when the
      change is dropped. */
  function Formatted(field: CardField, v: string): (r: Option<string>)
    ensures field == CardName ==> r == Some(v)
    ensures field == Cvv ==> (r.None? <==> |v| > MaxCvv) && (r.Some? ==> r.value == v)
    ensures field == CardNumber ==>
              (r.None? <==> |FormatCardNumber(v)| > MaxCardNumber) && (r.Some? ==> r.value == FormatCardNumber(v))
    ensures field == ExpiryDate ==> r == Some(FormatExpiry(v))
  {
    match field
    case CardNumber =>
      var f := FormatCardNumber(v);
      if |f| > MaxCardNumber then None else Some(f)
    case ExpiryDate =>
      var f := FormatExpiry(v);
      if |f| > MaxExpiry then None else Some(f)
    case Cvv => if |v| > MaxCvv then None else Some(v)
    case CardName => Some(v)
  }

  /** The value a field holds. */
  function CardValue(c: CardData, field: CardField): string {
    match field
    case CardNumber => c.cardNumber
    case CardName => c.cardName
    case ExpiryDate => c.expiryDate
    case Cvv => c.cvv
  }

  /** `{...cardData, [name]: value}`: the named field takes the value and
      every other field keeps its own. */
  function SetCard(c: CardData, field: CardField, v: string): (r: CardData)
    ensures CardValue(r, field) == v
    ensures forall g :: g != field ==> CardValue(r, g) == CardValue(c, g)
  {
    match field
    case CardNumber => c.(cardNumber := v)
    case CardName => c.(cardName := v)
    case ExpiryDate => c.(expiryDate := v)
    case Cvv => c.(cvv := v)
  }

  /** Some card field is blank, and the payment cannot go ahead. */
  predicate Incomplete(c: CardData)
    ensures Incomplete(c) <==> exists field :: CardValue(c, field) == ""
  {
    assert CardValue(c, CardNumber) == c.cardNumber && CardValue(c, CardName) == c.cardName
        && CardValue(c, ExpiryDate) == c.expiryDate && CardValue(c, Cvv) == c.cvv;
    c.cardNumber == "" || c.cardName == "" || c.expiryDate == "" || c.cvv == ""
  }

  /** The guard on rendering: without a stored checkout record, or with an
      empty cart, the page renders nothing and goes to the cart. */
  function PaymentEntry(slots: map<string, CheckoutRecord>, items: seq<LineItem>): (r: Gate)
    ensures r.Redirect? <==> CheckoutKey !in slots || items == []
    ensures r.Redirect? ==> r.to == CartView
  {
    if CheckoutKey !in slots || items == [] then Redirect(CartView) else Open
  }

  /** The order data `handleSubmit` hands to `addOrder`: the cart's items,
      the stored customer details and totals, shipping charged for home
      delivery only, status processing, delivery due seven days on. */
  function OrderFor(items: seq<LineItem>, checkout: CheckoutRecord, cartTotal: real, today: int): (o: OrderData)
    ensures o.items == items && o.customer == checkout.form && o.deliveryType == checkout.deliveryType
    ensures o.subtotal == cartTotal && o.total == checkout.total
    ensures o.shippingCost == ShippingCost(checkout.deliveryType)
    ensures o.status == Processing && o.estimatedDeliveryDay == today + 7
  {
    OrderData(items, checkout.form, checkout.deliveryType, cartTotal,
              if checkout.deliveryType == Delivery then 5.0 else 0.0,
              checkout.total, Processing, today + 7)
  }

  datatype PaymentOutcome = Rejected | Paid(orderId: string, route: Route)

  class PaymentView {
    var card: CardData

    /** The length caps every stored value keeps. */
    ghost predicate Valid()
      reads this
    {
      |card.cardNumber| <= MaxCardNumber && |card.expiryDate| <= MaxExpiry && |card.cvv| <= MaxCvv
    }

    constructor ()
      ensures card == EmptyCard && Valid()
    {
      card := EmptyCard;
    }

    /** `handleInputChange`: the formatted value replaces the field's, or
        the keystroke is dropped. */
    method InputChange(field: CardField, value: string)
      requires Valid()
      modifies this
      ensures Valid()
      ensures Formatted(field, value).None? ==> card == old(card)
      ensures Formatted(field, value).Some? ==> card == SetCard(old(card), field, Formatted(field, value).value)
    {
      var f := Formatted(field, value);
      if f.Some? {
        card := SetCard(card, field, f.value);
      }
    }

    /** `handleSubmit`: with a blank card field nothing happens; otherwise
        the order is built from the cart and the checkout record in storage
        and added at time `now` (milliseconds) on calendar day `today`, the
        cart is emptied, the checkout record removed, and the page heads for
        the order's confirmation page. The handler only exists once the page
        has rendered, that is, once the entry guard has let it through. */
    method Submit(cart: Cart, orders: OrderStore, storage: Storage,
                  cartTotal: real, now: nat, today: int, draws: Draws) returns (r: PaymentOutcome)
      requires PaymentEntry(storage.slots, cart.items) == Open
      modifies cart, orders, storage
      ensures Incomplete(card) <==> r == Rejected
      ensures r == Rejected ==>
                cart.items == old(cart.items) && orders.orders == old(orders.orders)
                && storage.slots == old(storage.slots)
      ensures r.Paid? ==>
                && orders.orders == [NewOrder(OrderFor(old(cart.items), old(storage.slots)[CheckoutKey], cartTotal, today),
                                              now, draws)]
                                    + old(orders.orders)
                && r.orderId == orders.orders[0].id && r.route == OrderView(r.orderId)
                && orders.GetOrderById(r.orderId) == Some(orders.orders[0])
                && cart.items == [] && storage.slots == old(storage.slots) - {CheckoutKey}
                && PaymentEntry(storage.slots, cart.items) == Redirect(CartView)
    {
      if Incomplete(card) {
        return Rejected;
      }
      var checkout := storage.slots[CheckoutKey];
      var items := cart.items;
      var id := orders.AddOrder(OrderFor(items, checkout, cartTotal, today), now, draws);
      cart.Clear();
      storage.RemoveItem(CheckoutKey);
      r := Paid(id, OrderView(id));
    }
  }

  // ---------------------------------------------------------------------
  // Across the two pages

  /** When the cart total has not changed between checkout and payment, the
      order's total is its subtotal plus its shipping, though the two pages
      compute shipping separately. */
  lemma TotalsAgree(form: CustomerInfo, d: DeliveryType, items: seq<LineItem>, cartTotal: real, today: int)
    ensures var o := OrderFor(items, CheckoutRecord(form, d, Total(cartTotal, d)), cartTotal, today);
            o.total == o.subtotal + o.shippingCost
  {
  }

  /** A record stored by a successful checkout submission opens the payment
      page as long as the cart is not empty. */
  lemma CheckoutOpensPayment(slots: map<string, CheckoutRecord>, rec: CheckoutRecord, items: seq<LineItem>)
    requires items != []
    ensures PaymentEntry(slots[CheckoutKey := rec], items) == Open
  {
  }
}
