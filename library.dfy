/** The "+" button of the library sidebar: which modal a click opens. */
module Library {
  import opened Common

  /** The modal stores a click can open. */
  datatype Modal = AuthModal | SubscribeModal | UploadModal

  /** `onClick`: sign in first, then subscribe, and only then upload. Each
      click opens exactly the one modal returned. */
  function OnClick(user: Option<User>, subscription: Option<Subscription>): (m: Modal)
    ensures m == AuthModal <==> user.None?
    ensures m == SubscribeModal <==> user.Some? && subscription.None?
    ensures m == UploadModal <==> user.Some? && subscription.Some?
  {
    if user.None? then
      AuthModal
    else if subscription.None? then
      SubscribeModal
    else
      UploadModal
  }
}
