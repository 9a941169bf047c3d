/** The cart as the pages use it. The cart's own bookkeeping (ids,
    quantities, totals) lives outside this model; here the cart is the list
    of line items the pages add and clear. */
module Store {
  import opened Common

  /** The line item the customisation page hands to the cart. */
  datatype LineItem = LineItem(
    productId: string,
    productName: string,
    image: Image,
    format: string,
    paperType: string,
    projectName: string,
    price: real)

  class Cart {
    var items: seq<LineItem>

    constructor ()
      ensures items == []
    {
      items := [];
    }

    method Add(item: LineItem)
      modifies this
      ensures items == old(items) + [item]
    {
      items := items + [item];
    }

    method Clear()
      modifies this
      ensures items == []
    {
      items := [];
    }
  }
}
