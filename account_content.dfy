/** The account page: it sends signed-out visitors home, shows either the
    "Subscribe" panel or the customer-portal panel, and guards the portal
    request with a `loading` flag. */
module AccountContent {
  import opened Common

  /** The effect's redirect: the route it replaces the page with, if any. */
  function RedirectTarget(isLoading: bool, user: Option<User>): (r: Option<string>)
    ensures r.Some? <==> !isLoading && user.None?
    ensures r.Some? ==> r.value == "/"
  {
    if !isLoading && user.None? then Some("/") else None
  }

  /** The panel the page shows; the portal button carries its `disabled` state. */
  datatype Panel = SubscribePanel | PortalPanel(disabled: bool)

  function ShowPanel(subscription: Option<Subscription>, loading: bool): (p: Panel)
    ensures p.SubscribePanel? <==> subscription.None?
    ensures p.PortalPanel? ==> (p.disabled <==> loading)
  {
    if subscription.None? then SubscribePanel else PortalPanel(loading)
  }

  /** The answer of the portal-link endpoint: a URL, or a thrown error. */
  datatype PortalResponse = PortalUrl(url: string) | RequestThrew(message: string)

  class Component {
    var loading: bool
    /** Every value passed to `setLoading`, in order. */
    ghost var loadingTrace: seq<bool>
    /** `window.location.href` as set by this component. */
    var location: Option<string>
    var toasts: seq<Toast>
    /** Number of POSTs sent to the portal-link endpoint. */
    var portalRequests: nat

    constructor ()
      ensures !loading && loadingTrace == [] && location.None? && toasts == [] && portalRequests == 0
    {
      loading := false;
      loadingTrace := [];
      location := None;
      toasts := [];
      portalRequests := 0;
    }

    /** `redirectToCustomerPortal`: the flag is raised before the request and
        cleared after it, whether it answered or threw. */
    method RedirectToCustomerPortal(response: PortalResponse)
      modifies this
      ensures !loading
      ensures loadingTrace == old(loadingTrace) + [true, false]
      ensures portalRequests == old(portalRequests) + 1
      ensures response.PortalUrl? ==> location == Some(response.url) && toasts == old(toasts)
      ensures response.RequestThrew? ==>
        location == old(location) && toasts == old(toasts) + [ErrorToast(response.message)]
    {
      loading := true;
      loadingTrace := loadingTrace + [true];
      portalRequests := portalRequests + 1;
      match response {
        case PortalUrl(url) =>
          location := Some(url);
        case RequestThrew(message) =>
          toasts := toasts + [ErrorToast(message)];
      }
      loading := false;
      loadingTrace := loadingTrace + [false];
    }
  }
}
