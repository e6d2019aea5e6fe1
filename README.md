# Spotify clone: webhook dispatch and premium gating, in Dafny

This project models the decision rules of a music-streaming web application
built on a backend-as-a-service (tables, storage, auth) and a payment
processor. The rest of the application is view glue. The rules are:

- the payment processor's **webhook endpoint**. It checks that a signature
  header and a webhook secret are present and that the signature verifies.
  It filters the event type against an eight-element allow-list. It routes
  each event to at most one reconciler (`upsertProductRecord`,
  `upsertPriceRecord`, `manageSubscriptionStatusChange`) and picks the HTTP
  response (`WebhookRoute`);
- the **library "+" button**, which opens the auth, subscribe or upload
  modal (`Library`);
- the **upload modal**. It checks the form in a fixed order, uploads the song
  and the image under names that share one unique id, then inserts the
  `songs` row. A failing step aborts the rest, and the `isLoading` flag ends
  false on every path (`UploadModal`);
- the **subscribe modal**. It selects what to list, decides which price
  buttons are disabled, and runs `handleCheckout` with its two guards and the
  `priceIdLoading` mark (`SubscribeModal`);
- the **like button**. Its `isLiked` flag is kept in step with the
  `liked_songs` table through a delete or an insert that may fail
  (`LikeButton`);
- the **account page**. It has a redirect rule and a panel choice, and a
  `loading` flag around the customer-portal request (`AccountContent`).

`Gating` relates the gates of the three components to one another, for the
same (user, subscription) state.

The pure rules are functions whose `ensures` state the rule. Components
whose handlers set React state are classes. Their fields are the state
hooks (`isLoading`, `isLiked`, `priceIdLoading`, `loading`), the modal's
open flag, and the abstract stores the handler writes. Each handler is a
method proved against a specification function (`Submit`, `Toggle`,
`Load`) or against an explicit new state. Every value passed to the
setters of the three loading flags (`isLoading`, `priceIdLoading`,
`loading`) is recorded in a ghost trace. This makes "set at the start,
cleared on every path" a postcondition.

External calls are inputs:
- the answer of a storage upload, a table insert or delete, a row lookup and
  an HTTP request;
- whether the signature verifies;
- whether a reconciler throws;
- the fresh unique id.

Toasts, `router.refresh()` and redirects are recorded as effects: a list of
toasts, a refresh counter, the location set.

## Model

| member | source | states |
|---|---|---|
| `WebhookRoute.Dispatch` | app/api/webhook/route.ts:28-54 | The `switch` fails with "Unhandled event type" exactly for types outside the eight-element allow-list, so its default branch is unreachable for allow-listed events. Product events call `upsertProductRecord` with the event object, and price events call `upsertPriceRecord`. The three subscription events call `manageSubscriptionStatusChange(id, customer, flag)`. A completed checkout calls it with `(subscription, customer, true)` only in `subscription` mode. The flag is true exactly for `customer.subscription.deleted` and completed checkouts. |
| `WebhookRoute.Post` | app/api/webhook/route.ts:8-62 | No response at all (not a 400) exactly when the signature header or the secret is missing or empty. A failed verification gives 400 "Webhook error". No reconciler runs unless the event is verified and allow-listed, and at most one runs. An event outside the allow-list gets `{received: true}` and no call. An allow-listed event makes the call `Dispatch` selects. A verified event gives 400 "Webhook handler failed" exactly when its reconciler throws, and `{received: true}` otherwise. |
| `Library.OnClick` | components/Library.tsx:21-31 | The auth modal opens exactly when there is no user. The subscribe modal opens exactly when there is a user but no subscription. The upload modal opens exactly when both are present. Each click opens one modal. |
| `UploadModal.Validate` | components/UploadModal.tsx:46-64 | Checks run in the order user, image file, song file, title and author. The message of the first failing check is reported. No message means all four checks pass. |
| `UploadModal.Plan` | components/UploadModal.tsx:66-91 | A valid submission's three writes, in order. The first song file goes to `song-<title>-<id>`, the first image file goes to `image-<title>-<id>`, using the same id. Then one `songs` row is inserted with the user's id, the title, the author and the two paths the uploads returned. |
| `UploadModal.Submit` | components/UploadModal.tsx:39-110 | A failing check issues no store call and shows its message. Otherwise the issued calls are a prefix of `Plan`, and every issued call except a failing last one is applied. A song-upload failure stops before the image upload, and an image-upload failure stops before the insert. The submission completes exactly when all three calls succeed. Each failure shows its own toast: the fixed upload text, the database's message, or the `catch` text for a thrown error. A completed submission never overwrote a stored object, because uploads use `upsert: false`. |
| `UploadModal.ApplyTable` | components/UploadModal.tsx:83-91 | Applying a series of writes grows the `songs` table by exactly the rows inserted, in order. Uploads leave the table alone. |
| `UploadModal.OnlyCompletedSubmissionInserts` | components/UploadModal.tsx:66-97 | Only a completed submission changes the `songs` table, and it appends exactly the planned row. Every failing path leaves the table as it was. |
| `UploadModal.Component.constructor` | components/UploadModal.tsx:21-30 | A mounted modal starts with `isLoading` false, no recorded `setIsLoading` call, the form at its default values (empty title and author, no files), no toast and no refresh. |
| `UploadModal.Component.OnChange` | components/UploadModal.tsx:32-37 | `onChange(false)` resets the form to its default values and closes the modal. `onChange(true)` changes nothing. |
| `UploadModal.Component.UploadAndInsert` | components/UploadModal.tsx:66-103 | After the checks pass, the stores become the old stores with the submission's applied writes. One toast is added. Only a completed run refreshes, resets the form and closes the modal. The loading flag is only ever cleared here. |
| `UploadModal.Component.OnSubmit` | components/UploadModal.tsx:39-110 | The new stores are `Apply(old stores, Submit(...).applied)`. Exactly `Submit`'s toast is added. Only a completed submission refreshes, resets the form and closes the modal. `isLoading` is set true once at the start, only cleared afterwards, and is false at the end of every path. |
| `SubscribeModal.Buttons` | components/SubscribeModal.tsx:85-89 | One button per price, in list order. A price's button is disabled exactly when `isLoading` holds or `priceIdLoading` equals that price's id. |
| `SubscribeModal.Entries` | components/SubscribeModal.tsx:76-90 | The listed buttons' prices are every price of every product, in order. The "No prices available" entries are exactly the products whose `prices` is missing or empty, in order. Every button's disabled flag follows the rule above. |
| `SubscribeModal.ProjectionsAppend` | components/SubscribeModal.tsx:76-90 | The listed prices and the priceless product ids of a concatenation of entries are the concatenations of the parts' (the `map` over products flattens per product). |
| `SubscribeModal.SelectContent` | components/SubscribeModal.tsx:67-101 | With a subscription the content is "Already subscribed." whatever the products are. Without one and without products it is "No products available.". Otherwise it is exactly the listing `Entries` renders, `disabled` flags included, so its buttons carry every price in order and its "No prices available" entries are the priceless products. |
| `SubscribeModal.CheckoutGuard` | components/SubscribeModal.tsx:41-49 | No user reports "Must be logged in". A user with a subscription reports "Already subscribed". The request goes ahead exactly when there is a user and no subscription. |
| `SubscribeModal.Component.constructor` | components/SubscribeModal.tsx:29 | A mounted modal starts with `priceIdLoading` undefined, no recorded `setPriceIdLoading` call, no toast, no checkout request and no redirect. |
| `SubscribeModal.Component.OnChange` | components/SubscribeModal.tsx:32-36 | Closing the dialog closes the modal store. Nothing else changes. |
| `SubscribeModal.Component.HandleCheckout` | components/SubscribeModal.tsx:38-65 | The price's id is set as loading first, and `priceIdLoading` is undefined when the handler finishes, on every path. A failing guard adds its toast and makes no checkout-session request. Otherwise exactly one request is made for the price. The returned session id is handed to the checkout redirect when the payment client loaded. A thrown error becomes a toast with its message. |
| `LikeButton.Toggle` | components/LikeButton.tsx:52-76 | A database error leaves the table and `isLiked` unchanged. An accepted delete or insert flips `isLiked` and makes the (user, song) row's presence agree with it. No other row is touched. A flag in step with the table stays in step. |
| `LikeButton.Load` | components/LikeButton.tsx:22-43 | The mount effect never changes the table and never clears the flag. It sets the flag only for a signed-in user whose row was found without error. From the initial `false` a successful lookup brings the flag in step with the table. |
| `LikeButton.ClicksKeepSync` | components/LikeButton.tsx:47-79 | Over any series of clicks by one user, with any database answers, a flag in step with the table stays in step. Only that user's row for this song can change. |
| `LikeButton.ClicksParity` | components/LikeButton.tsx:52-76 | After any series of clicks, the flag has flipped exactly when an odd number of the writes was accepted. |
| `LikeButton.Component.constructor` | components/LikeButton.tsx:22 | A mounted button starts with `isLiked` false, over the given table. |
| `LikeButton.Component.FetchLiked` | components/LikeButton.tsx:24-43 | The effect's new state is `Load` of the old one. The modal, the toasts and the refreshes are unchanged. |
| `LikeButton.Component.HandleLike` | components/LikeButton.tsx:47-79 | With no user, only the auth modal opens: table, flag, toasts and refreshes are unchanged. With a user, the new state is `Toggle` of the old one and the router is refreshed once whatever the database answered. An error adds its message as a toast, and an accepted like adds "Liked!". |
| `AccountContent.RedirectTarget` | app/account/components/AccountContent.tsx:17-21 | The page is replaced by "/" exactly when loading has finished and there is no user. |
| `AccountContent.ShowPanel` | app/account/components/AccountContent.tsx:37-59 | Exactly one panel is shown: "Subscribe" when there is no subscription, the customer-portal button when there is one. The portal button is disabled exactly while `loading` is true. |
| `AccountContent.Component.constructor` | app/account/components/AccountContent.tsx:15 | A mounted page starts with `loading` false, no recorded `setLoading` call, no location set, no toast and no portal request. |
| `AccountContent.Component.RedirectToCustomerPortal` | app/account/components/AccountContent.tsx:23-33 | `loading` is set true and then false, so it is false after the handler whether the request answered or threw. One request is made. A URL becomes the new location, and a thrown error becomes a toast. |
| `Gating.SubscribeRouteReachesCheckout` | components/Library.tsx:26-28 | When the library button opens the subscribe modal, that modal does not show "Already subscribed.": it says "No products available." when there are no products and lists them otherwise. Its checkout guards let the request through, and the account page shows "Subscribe" whatever its own `loading` flag is. |
| `Gating.UploadRouteIsSubscriber` | components/Library.tsx:30 | When the library button opens the upload modal, the subscribe modal shows "Already subscribed.", its checkout guard refuses, the account page shows the portal button (disabled exactly while its own `loading` flag is set), and it does not redirect. |

## Where the code differs from the intended design

The service's design describes a few behaviours that the code does not
implement. The model follows the code.
- A missing signature header or webhook secret is meant to give a 400. The
  handler instead returns nothing at all (app/api/webhook/route.ts:19), and
  `WebhookRoute.Post` returns no response there.
- The third argument of `manageSubscriptionStatusChange` is meant to mark a
  freshly created subscription. The code passes
  `event.type === "customer.subscription.deleted"` for subscription events
  and `true` for completed checkouts (app/api/webhook/route.ts:43, 49), and
  `WebhookRoute.Dispatch` does the same. So `customer.subscription.created`
  passes `false`.
- An allow-listed type with no switch case is meant to give a 400. That
  branch exists (app/api/webhook/route.ts:52-53) and is modelled. Its
  unreachability is proved.

## Left out

- Signature verification is an input flag. The processor's HMAC scheme
  (`constructEvent`) and its SDK client (libs/stripe.ts) are not reimplemented.
- The reconcilers live in a module that is not part of this model. They are
  either called with the recorded arguments or throw. Their writes and their
  idempotence are not modelled.
- app/api/create-portal-link/route.ts and the checkout-session endpoint are
  only seen through their answers (`PortalResponse`, `CheckoutResponse`).
  The portal route is two guards around an unseen customer lookup and the
  processor's portal SDK.
- actions/getLikedSongs.ts and actions/getActiveProductsWithPrices.ts only
  pass query-builder results through. Their filtering and ordering belong to
  the database.
- `formatPrice` (components/SubscribeModal.tsx:17-25) formats with
  `Intl.NumberFormat` after a floating-point division. `Price` keeps only
  the fields the modal's logic reads, and the button label is not modelled.
- components/SongItem.tsx, app/layout.tsx and all JSX, CSS and icons are
  rendering only. The library's `onPlay` list is not part of the gating rule.
- The `required` validation that react-hook-form's `handleSubmit` applies
  before calling `onSubmit` belongs to the library. `onSubmit` is modelled
  for any form values.
- `uniqid` is a fresh value passed in. The storage service is assumed to
  answer an upload with the path it was given.
- Async interleaving, React effect timing, re-renders, and concurrent
  webhook deliveries are not modelled. Each handler runs to completion as
  one sequential step. The setter traces record the order of state updates
  but not what renders in between.
- SubscribeModal.Entries: states the listing through two ordered
  projections (button prices, priceless product ids) and the disabled rule.
  It does not state how buttons and "No prices available" entries
  interleave.
- LikeButton.Component.HandleLike: the table is a set of (user, song)
  rows. A duplicate insert or a delete of a missing row succeeds unless the
  database's answer says otherwise. Constraints the real table may enforce
  are not modelled.
