/**
 * The browser's local key-value store, reduced to the two keys the widget
 * uses: `cart` (the list of line items) and `orders` (the order log). A key
 * that is absent reads as the empty sequence.
 */
module BrowserStore {
  import opened LineItems

  /** The customer fields of an order, as entered on the checkout form. */
  datatype Customer = Customer(name: string, phone: string, address: string)

  /**
   * A submitted order: a time-derived id, the customer, a snapshot of the
   * cart's entries, the total as displayed, and the creation date as text.
   */
  datatype Order = Order(id: nat, customer: Customer, items: seq<LineItem>, total: string, date: string)

  class Store {
    var cart: seq<LineItem>
    var orders: seq<Order>

    constructor (cart: seq<LineItem>, orders: seq<Order>)
      ensures this.cart == cart && this.orders == orders
    {
      this.cart := cart;
      this.orders := orders;
    }
  }
}
