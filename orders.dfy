/** The orders context: an in-memory list of placed orders, newest first.
    Adding an order gives it an id taken from the clock and a human-facing
    order number made of three random letters and four random digits;
    looking an order up returns the first one with the given id. The clock
    and the random draws are parameters. */
module Orders {
  import opened Text
  import opened Common
  import opened Store

  datatype DeliveryType = Delivery | Pickup

  datatype Status = Processing | InPreparation | Ready | Delivered

  /** The customer's details as the checkout form collects them; an empty
      string is a field left blank. */
  datatype CustomerInfo = CustomerInfo(
    fullName: string,
    phone: string,
    dni: string,
    email: string,
    address: string,
    city: string,
    postalCode: string,
    notes: string)

  /** What the caller of `addOrder` supplies. The estimated delivery date
      is a calendar day number. */
  datatype OrderData = OrderData(
    items: seq<LineItem>,
    customer: CustomerInfo,
    deliveryType: DeliveryType,
    subtotal: real,
    shippingCost: real,
    total: real,
    status: Status,
    estimatedDeliveryDay: int)

  /** A placed order; `createdAt` is in milliseconds since the epoch. */
  datatype Order = Order(id: string, orderNumber: string, data: OrderData, createdAt: int)

  /** One value of `Math.random()`. */
  type Draw = r: real | 0.0 <= r < 1.0 witness 0.0

  /** The four draws an order number takes, in the order they are drawn. */
  datatype Draws = Draws(first: Draw, second: Draw, third: Draw, number: Draw)

  const Letters: string := "ABCDEFGHIJKLMNOPQRSTUVWXYZ"

  /** `Math.floor(d * n)`: an index below `n`. */
  function RandomIndex(d: Draw, n: nat): (r: nat)
    requires n > 0
    ensures r < n
    ensures r as real <= d * n as real < r as real + 1.0
  {
    var x := d * n as real;
    assert 0.0 <= x < n as real by { ScaleBelow(d, n as real); }
    x.Floor
  }

  lemma ScaleBelow(d: real, n: real)
    requires 0.0 <= d < 1.0 && n > 0.0
    ensures 0.0 <= d * n < n
  {
  }

  /** `generateOrderNumber`: `#`, three letters, then the number drawn
      below 10000 padded to four digits with leading zeros. */
  function OrderNumber(draws: Draws): (r: string)
    ensures |r| == 8 && r[0] == '#'
    ensures r[1] == Letters[RandomIndex(draws.first, 26)]
    ensures r[2] == Letters[RandomIndex(draws.second, 26)]
    ensures r[3] == Letters[RandomIndex(draws.third, 26)]
    ensures AllDigits(r[4..]) && DigitsValue(r[4..]) == RandomIndex(draws.number, 10000)
  {
    var n := RandomIndex(draws.number, 10000);
    var digits := DecimalString(n);
    assert |digits| <= 4 by {
      assert Pow10(4) == 10000;
      DecimalLength(n, 4);
    }
    var padded := PadStart(digits, 4, '0');
    assert DigitsValue(padded) == n by {
      ZeroPaddedValue(digits, 4);
      DecimalRoundTrip(n);
    }
    var letters := [Letters[RandomIndex(draws.first, 26)], Letters[RandomIndex(draws.second, 26)],
                    Letters[RandomIndex(draws.third, 26)]];
    var r := "#" + letters + padded;
    assert r[4..] == padded;
    r
  }

  /** The letters are the alphabet in order, so each letter of an order
      number names its draw's index. */
  lemma LettersAreAlphabet()
    ensures |Letters| == 26
    ensures forall i :: 0 <= i < 26 ==> Letters[i] as int == 'A' as int + i
  {
  }

  /** The order number gives back the indices it was made from. */
  lemma OrderNumberDecodes(draws: Draws)
    ensures var r := OrderNumber(draws);
            && r[1] as int - 'A' as int == RandomIndex(draws.first, 26)
            && r[2] as int - 'A' as int == RandomIndex(draws.second, 26)
            && r[3] as int - 'A' as int == RandomIndex(draws.third, 26)
            && DigitsValue(r[4..]) == RandomIndex(draws.number, 10000)
  {
    LettersAreAlphabet();
  }

  /** The order `addOrder` builds at time `now` (milliseconds). */
  function NewOrder(data: OrderData, now: nat, draws: Draws): (o: Order)
    ensures AllDigits(o.id) && DigitsValue(o.id) == now
    ensures o.data == data && o.createdAt == now
    ensures o.orderNumber == OrderNumber(draws)
  {
    DecimalRoundTrip(now);
    Order(DecimalString(now), OrderNumber(draws), data, now)
  }

  function HasId(id: string): Order -> bool {
    (o: Order) => o.id == id
  }

  /** `orders.find(order => order.id === id)` */
  function FindById(orders: seq<Order>, id: string): (r: Option<Order>)
    ensures r.Some? ==> r.value.id == id && exists i :: FirstMatch(orders, HasId(id), i) && orders[i] == r.value
    ensures r.None? <==> forall i :: 0 <= i < |orders| ==> orders[i].id != id
  {
    Find(orders, HasId(id))
  }

  class OrderStore {
    /** Newest first. */
    var orders: seq<Order>

    constructor ()
      ensures orders == []
    {
      orders := [];
    }

    /** `addOrder`: the new order goes in front of the older ones; its id is
        returned. */
    method AddOrder(data: OrderData, now: nat, draws: Draws) returns (id: string)
      modifies this
      ensures orders == [NewOrder(data, now, draws)] + old(orders)
      ensures id == orders[0].id && AllDigits(id) && DigitsValue(id) == now
      ensures GetOrderById(id) == Some(orders[0])
    {
      var order := NewOrder(data, now, draws);
      orders := [order] + orders;
      id := order.id;
      FindAfterPrepend(order, old(orders));
    }

    /** `getOrderById` */
    function GetOrderById(id: string): (r: Option<Order>)
      reads this
      ensures r.Some? ==> r.value.id == id && r.value in orders
      ensures r.None? <==> forall i :: 0 <= i < |orders| ==> orders[i].id != id
    {
      FindById(orders, id)
    }
  }

  /** A lookup right after an order is added finds that order, even when an
      older order carries the same id. */
  lemma FindAfterPrepend(o: Order, orders: seq<Order>)
    ensures FindById([o] + orders, o.id) == Some(o)
  {
    assert FirstMatch([o] + orders, HasId(o.id), 0);
  }

  /** Adding an order leaves every lookup by another id as it was. */
  lemma FindOtherAfterPrepend(o: Order, orders: seq<Order>, id: string)
    requires id != o.id
    ensures FindById([o] + orders, id) == FindById(orders, id)
  {
    var s := [o] + orders;
    assert s[1..] == orders;
    FindIndexSkip(s, HasId(id));
  }

  /** When the head of a sequence does not match, the search goes on in
      the tail. */
  lemma FindIndexSkip<T>(s: seq<T>, p: T -> bool)
    requires s != [] && !p(s[0])
    ensures Find(s, p) == Find(s[1..], p)
  {
  }
}
