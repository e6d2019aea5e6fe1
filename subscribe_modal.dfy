/** The subscribe modal: what it lists (a message, or one entry per product
    with one button per price), which buttons are disabled, and the guarded
    checkout request a button starts. */
module SubscribeModal {
  import opened Common

  /** The fields of a price the modal reads (its amount only feeds the
      formatted label). */
  datatype Price = Price(id: string, interval: string)

  /** An active product with its prices; `prices` may be missing. */
  datatype Product = Product(id: string, prices: Option<seq<Price>>)

  /** One rendered entry of the product list. */
  datatype Entry = NoPrices(productId: string) | SubscribeButton(price: Price, disabled: bool)

  datatype Content = NoProducts | Listing(entries: seq<Entry>) | AlreadySubscribed

  /** `product.prices?.length` is truthy. */
  predicate HasPrices(p: Product) {
    p.prices.Some? && |p.prices.value| > 0
  }

  // Reference definitions: what the listing should show, product by product.

  /** Every price of every product, in list order. */
  function AllPrices(products: seq<Product>): seq<Price> {
    if products == [] then []
    else (if HasPrices(products[0]) then products[0].prices.value else []) + AllPrices(products[1..])
  }

  /** The ids of the products that have no prices, in list order. */
  function PricelessIds(products: seq<Product>): seq<string> {
    if products == [] then []
    else (if HasPrices(products[0]) then [] else [products[0].id]) + PricelessIds(products[1..])
  }

  // Projections of a rendered listing.

  /** The prices of the buttons among `entries`, in order. */
  function ButtonPrices(entries: seq<Entry>): seq<Price> {
    if entries == [] then []
    else (if entries[0].SubscribeButton? then [entries[0].price] else []) + ButtonPrices(entries[1..])
  }

  /** The product ids of the "No prices available" entries, in order. */
  function NoPriceIds(entries: seq<Entry>): seq<string> {
    if entries == [] then []
    else (if entries[0].NoPrices? then [entries[0].productId] else []) + NoPriceIds(entries[1..])
  }

  /** The `map` over one product's prices: one button each, in order, with
      its `disabled` flag. */
  function Buttons(prices: seq<Price>, isLoading: bool, priceIdLoading: Option<string>): (r: seq<Entry>)
    ensures |r| == |prices|
    ensures forall i :: 0 <= i < |r| ==>
      r[i].SubscribeButton? && r[i].price == prices[i] &&
      (r[i].disabled <==> isLoading || priceIdLoading == Some(prices[i].id))
  {
    if prices == [] then []
    else [SubscribeButton(prices[0], isLoading || priceIdLoading == Some(prices[0].id))]
         + Buttons(prices[1..], isLoading, priceIdLoading)
  }

  /** The `map` over the products: a "No prices available" entry for a
      product without prices, otherwise its buttons. */
  function Entries(products: seq<Product>, isLoading: bool, priceIdLoading: Option<string>): (r: seq<Entry>)
    ensures ButtonPrices(r) == AllPrices(products)
    ensures NoPriceIds(r) == PricelessIds(products)
    ensures forall i :: 0 <= i < |r| && r[i].SubscribeButton? ==>
      (r[i].disabled <==> isLoading || priceIdLoading == Some(r[i].price.id))
  {
    if products == [] then []
    else
      var p := products[0];
      var rest := Entries(products[1..], isLoading, priceIdLoading);
      if HasPrices(p) then
        var first := Buttons(p.prices.value, isLoading, priceIdLoading);
        ButtonsProjection(first, p.prices.value);
        ProjectionsAppend(first, rest);
        first + rest
      else
        var first := [NoPrices(p.id)];
        ProjectionsAppend(first, rest);
        first + rest
  }

  /** A run of buttons projects to its prices and to no priceless ids. */
  lemma {:induction false} ButtonsProjection(entries: seq<Entry>, prices: seq<Price>)
    requires |entries| == |prices|
    requires forall i :: 0 <= i < |entries| ==> entries[i].SubscribeButton? && entries[i].price == prices[i]
    ensures ButtonPrices(entries) == prices && NoPriceIds(entries) == []
  {
    if entries != [] {
      ButtonsProjection(entries[1..], prices[1..]);
    }
  }

  /** Both projections distribute over concatenation. */
  lemma {:induction false} ProjectionsAppend(a: seq<Entry>, b: seq<Entry>)
    ensures ButtonPrices(a + b) == ButtonPrices(a) + ButtonPrices(b)
    ensures NoPriceIds(a + b) == NoPriceIds(a) + NoPriceIds(b)
  {
    if a == [] {
      assert a + b == b;
    } else {
      assert (a + b)[0] == a[0];
      assert (a + b)[1..] == a[1..] + b;
      ProjectionsAppend(a[1..], b);
    }
  }

  /** The reassigned `content`: "No products available." unless there are
      products; "Already subscribed." overrides both. */
  function SelectContent(products: seq<Product>, subscription: Option<Subscription>,
                         isLoading: bool, priceIdLoading: Option<string>): (c: Content)
    ensures subscription.Some? ==> c == AlreadySubscribed
    ensures subscription.None? && products == [] ==> c == NoProducts
    ensures subscription.None? && products != [] ==>
      c.Listing? && ButtonPrices(c.entries) == AllPrices(products) &&
      NoPriceIds(c.entries) == PricelessIds(products)
    // the listing is the one `Entries` renders, `disabled` flags included
    ensures subscription.None? && products != [] ==> c == Listing(Entries(products, isLoading, priceIdLoading))
  {
    var content := if |products| > 0 then Listing(Entries(products, isLoading, priceIdLoading)) else NoProducts;
    if subscription.Some? then AlreadySubscribed else content
  }

  /** The two guards of `handleCheckout`: the error it reports, if any. */
  function CheckoutGuard(user: Option<User>, subscription: Option<Subscription>): (r: Option<string>)
    ensures user.None? ==> r == Some("Must be logged in")
    ensures user.Some? && subscription.Some? ==> r == Some("Already subscribed")
    ensures r.None? <==> user.Some? && subscription.None?
  {
    if user.None? then Some("Must be logged in")
    else if subscription.Some? then Some("Already subscribed")
    else None
  }

  /** The outcome of the checkout-session request: a session id (and whether
      the payment client loaded), or a thrown error. */
  datatype CheckoutResponse = SessionCreated(sessionId: string, stripeLoaded: bool) | CheckoutThrew(message: string)

  class Component {
    var isOpen: bool
    var priceIdLoading: Option<string>
    /** Every value passed to `setPriceIdLoading`, in order. */
    ghost var priceIdLoadingTrace: seq<Option<string>>
    var toasts: seq<Toast>
    /** The prices posted to the checkout-session endpoint, in order. */
    var checkoutRequests: seq<Price>
    /** The session ids handed to the hosted-checkout redirect, in order. */
    var checkoutRedirects: seq<string>

    constructor (isOpen: bool)
      ensures this.isOpen == isOpen && priceIdLoading.None? && priceIdLoadingTrace == []
      ensures toasts == [] && checkoutRequests == [] && checkoutRedirects == []
    {
      this.isOpen := isOpen;
      priceIdLoading := None;
      priceIdLoadingTrace := [];
      toasts := [];
      checkoutRequests := [];
      checkoutRedirects := [];
    }

    /** `onChange`: closing the dialog closes the modal store. */
    method OnChange(open: bool)
      modifies this
      ensures isOpen == (old(isOpen) && open)
      ensures priceIdLoading == old(priceIdLoading) && toasts == old(toasts)
      ensures checkoutRequests == old(checkoutRequests) && checkoutRedirects == old(checkoutRedirects)
      ensures priceIdLoadingTrace == old(priceIdLoadingTrace)
    {
      if !open {
        isOpen := false;
      }
    }

    /** `handleCheckout`: marks the price as loading, stops with a toast if a
        guard fails, otherwise requests a session and redirects to it; the
        loading mark is cleared on every path. */
    method HandleCheckout(price: Price, user: Option<User>, subscription: Option<Subscription>,
                          response: CheckoutResponse)
      modifies this
      ensures priceIdLoading.None?
      ensures priceIdLoadingTrace == old(priceIdLoadingTrace) + [Some(price.id), None]
      ensures isOpen == old(isOpen)
      ensures CheckoutGuard(user, subscription).Some? ==>
        toasts == old(toasts) + [ErrorToast(CheckoutGuard(user, subscription).value)] &&
        checkoutRequests == old(checkoutRequests) && checkoutRedirects == old(checkoutRedirects)
      ensures CheckoutGuard(user, subscription).None? ==> checkoutRequests == old(checkoutRequests) + [price]
      ensures CheckoutGuard(user, subscription).None? && response.SessionCreated? ==>
        toasts == old(toasts) &&
        checkoutRedirects == old(checkoutRedirects) + (if response.stripeLoaded then [response.sessionId] else [])
      ensures CheckoutGuard(user, subscription).None? && response.CheckoutThrew? ==>
        toasts == old(toasts) + [ErrorToast(response.message)] && checkoutRedirects == old(checkoutRedirects)
    {
      priceIdLoading := Some(price.id);
      priceIdLoadingTrace := priceIdLoadingTrace + [Some(price.id)];

      if user.None? {
        priceIdLoading := None;
        priceIdLoadingTrace := priceIdLoadingTrace + [None];
        toasts := toasts + [ErrorToast("Must be logged in")];
        return;
      }

      if subscription.Some? {
        priceIdLoading := None;
        priceIdLoadingTrace := priceIdLoadingTrace + [None];
        toasts := toasts + [ErrorToast("Already subscribed")];
        return;
      }

      checkoutRequests := checkoutRequests + [price];
      match response {
        case SessionCreated(sessionId, stripeLoaded) =>
          if stripeLoaded {
            checkoutRedirects := checkoutRedirects + [sessionId];
          }
        case CheckoutThrew(message) =>
          toasts := toasts + [ErrorToast(message)];
      }
      priceIdLoading := None;
      priceIdLoadingTrace := priceIdLoadingTrace + [None];
    }
  }
}
