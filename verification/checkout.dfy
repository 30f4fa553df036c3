/**
 * The checkout page: the price summary it shows for the stored cart, the
 * validation of the order form, and the submission that appends an order
 * to the order log and clears the cart.
 */
module Checkout {
  import opened LineItems
  import opened BrowserStore
  import opened JsText
  import opened PhoneMask

  datatype Option<T> = None | Some(value: T)

  /** Subtotals from this amount on are delivered free. */
  const FreeDeliveryThreshold: int := 1500

  /** The flat delivery fee below the threshold. */
  const DeliveryFee: int := 200

  /** The delivery charge for a subtotal. */
  function Delivery(subtotal: int): (d: int)
    ensures d == 0 || d == DeliveryFee
    ensures d == 0 <==> subtotal >= FreeDeliveryThreshold
  {
    if subtotal >= FreeDeliveryThreshold then 0 else DeliveryFee
  }

  /** The three figures of the order summary. */
  datatype Summary = Summary(subtotal: int, delivery: int, total: int)

  /**
   * The summary for a stored cart, or `None` when the cart is empty and the
   * page sends the visitor back to the storefront instead of showing one.
   */
  function LoadSummary(items: seq<LineItem>): (r: Option<Summary>)
    ensures r.None? <==> items == []
    ensures r.Some? ==> r.value.subtotal == Sum(items, Amount)
    ensures r.Some? ==> r.value.total == r.value.subtotal + r.value.delivery
    ensures r.Some? ==> (r.value.delivery == 0 <==> r.value.subtotal >= FreeDeliveryThreshold)
    ensures r.Some? ==> r.value.delivery == 0 || r.value.delivery == DeliveryFee
    ensures r.Some? ==> r.value.subtotal <= r.value.total <= r.value.subtotal + DeliveryFee
  {
    if |items| == 0 then None
    else
      var subtotal := Total(items);
      var delivery := Delivery(subtotal);
      Some(Summary(subtotal, delivery, subtotal + delivery))
  }

  /** A one-entry cart whose subtotal is the given amount. */
  function CartOf(amount: int): seq<LineItem>
  {
    [LineItem("1", "Margherita", "30", amount, 1)]
  }

  /** Just below the threshold the fee is charged; at and above it delivery is free. */
  lemma SummaryExamples()
    ensures LoadSummary(CartOf(1499)) == Some(Summary(1499, 200, 1699))
    ensures LoadSummary(CartOf(1500)) == Some(Summary(1500, 0, 1500))
    ensures LoadSummary(CartOf(3000)) == Some(Summary(3000, 0, 3000))
  {
    assert Sum(CartOf(1499), Amount) == 1499;
    assert Sum(CartOf(1500), Amount) == 1500;
    assert Sum(CartOf(3000), Amount) == 3000;
  }

  /** Why a submission was turned down. */
  datatype Rejection = EmptyCart | MissingField | InvalidPhone

  /** The outcome of one submission attempt. */
  datatype Verdict = Accept(customer: Customer) | Reject(reason: Rejection)

  /**
   * The checks of the submit handler, in its order: the stored cart must not
   * be empty; the trimmed name, phone and address must not be empty; the
   * trimmed phone must match the pattern. On acceptance the customer carries
   * the trimmed fields.
   */
  function Validate(items: seq<LineItem>, name: string, phone: string, address: string): (v: Verdict)
    ensures v.Accept? <==>
      items != [] && Trim(name) != [] && Trim(phone) != [] && Trim(address) != [] && IsPhone(Trim(phone))
    ensures v.Accept? ==> v.customer == Customer(Trim(name), Trim(phone), Trim(address))
    ensures v == Reject(EmptyCart) <==> items == []
    ensures v == Reject(MissingField) <==>
      items != [] && (Trim(name) == [] || Trim(phone) == [] || Trim(address) == [])
    ensures v.Accept? ==> IsPhone(v.customer.phone) && Trim(v.customer.phone) == v.customer.phone
  {
    if |items| == 0 then Reject(EmptyCart)
    else
      var n, p, a := Trim(name), Trim(phone), Trim(address);
      if n == [] || p == [] || a == [] then Reject(MissingField)
      else if !IsPhone(p) then Reject(InvalidPhone)
      else
        TrimIdempotent(phone);
        Accept(Customer(n, p, a))
  }

  /**
   * A name and an address that are not blank, and a phone field holding any
   * input with at least 11 digits once the mask has rewritten it, pass
   * validation for a non-empty cart; fewer than 11 digits fail it.
   */
  lemma MaskedPhoneAccepted(items: seq<LineItem>, name: string, raw: string, address: string)
    requires items != [] && Trim(name) != [] && Trim(address) != []
    ensures Validate(items, name, MaskAsWritten(raw), address).Accept? <==> |Digits(raw)| >= 11
  {
    var m := MaskAsWritten(raw);
    MaskIsPhone(raw);
    if |Digits(raw)| >= 11 {
      assert IsPhone(m);
      TrimKeeps(m);
      assert Trim(m) == m;
    } else {
      FormatsAgree(Digits(raw));
      assert |Trim(m)| <= |m| <= 17;
      assert !IsPhone(Trim(m));
    }
  }

  /**
   * The submit handler. A rejected attempt changes neither the cart nor the
   * order log. An accepted one appends exactly one order, carrying the
   * stored cart's entries and the trimmed customer fields, after the orders
   * already logged, and removes the cart. The order id, the date text and
   * the displayed total come from the page.
   */
  method SubmitOrder(store: Store, name: string, phone: string, address: string,
                     id: nat, totalDisplay: string, date: string) returns (v: Verdict)
    modifies store
    ensures v == Validate(old(store.cart), name, phone, address)
    ensures v.Reject? ==> store.cart == old(store.cart) && store.orders == old(store.orders)
    ensures v.Accept? ==> store.cart == []
    ensures v.Accept? ==>
      store.orders == old(store.orders) + [Order(id, v.customer, old(store.cart), totalDisplay, date)]
  {
    var items := store.cart;
    v := Validate(items, name, phone, address);
    if v.Reject? {
      return;
    }
    var order := Order(id, v.customer, items, totalDisplay, date);
    var orders := store.orders;
    orders := orders + [order];
    store.orders := orders;
    store.cart := [];
  }
}
