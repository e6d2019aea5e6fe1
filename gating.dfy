/** How the premium gates of the library button, the subscribe modal and the
    account page agree on the same (user, subscription) state. `isLoading` is
    the user context's loading flag; `loading` is the account page's own flag
    around the customer-portal request. */
module Gating {
  import opened Common
  import L = Library
  import S = SubscribeModal
  import A = AccountContent

  /** When the library button sends a user to the subscribe modal, that
      modal does not show "Already subscribed." (it lists the products, or
      says there are none), its checkout guards let the request through, and
      the account page offers "Subscribe". */
  lemma SubscribeRouteReachesCheckout(user: Option<User>, subscription: Option<Subscription>,
                                      products: seq<S.Product>, isLoading: bool, priceIdLoading: Option<string>,
                                      loading: bool)
    requires L.OnClick(user, subscription) == L.SubscribeModal
    ensures S.CheckoutGuard(user, subscription).None?
    ensures S.SelectContent(products, subscription, isLoading, priceIdLoading) != S.AlreadySubscribed
    ensures products == [] ==> S.SelectContent(products, subscription, isLoading, priceIdLoading) == S.NoProducts
    ensures products != [] ==> S.SelectContent(products, subscription, isLoading, priceIdLoading).Listing?
    ensures A.ShowPanel(subscription, loading) == A.SubscribePanel
  {
  }

  /** The upload modal opens only for a subscriber, whom the subscribe modal
      turns away and the account page offers the customer portal. */
  lemma UploadRouteIsSubscriber(user: Option<User>, subscription: Option<Subscription>,
                                products: seq<S.Product>, isLoading: bool, priceIdLoading: Option<string>,
                                loading: bool)
    requires L.OnClick(user, subscription) == L.UploadModal
    ensures S.CheckoutGuard(user, subscription) == Some("Already subscribed")
    ensures S.SelectContent(products, subscription, isLoading, priceIdLoading) == S.AlreadySubscribed
    ensures A.ShowPanel(subscription, loading) == A.PortalPanel(loading)
    ensures A.RedirectTarget(isLoading, user).None?
  {
  }
}
