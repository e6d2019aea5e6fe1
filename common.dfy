/** Values shared by the web application's components: who is signed in,
    whether that user has a subscription, and the notices shown as toasts. */
module Common {

  datatype Option<+T> = None | Some(value: T)

  datatype Result<+R, +E> = Success(value: R) | Failure(error: E)

  /** The signed-in user as the auth session reports it. */
  datatype User = User(id: string)

  /** The signed-in user's current subscription row, as the user context loads it. */
  datatype Subscription = Subscription(id: string)

  /** A toast notification shown to the user. */
  datatype Toast = ErrorToast(message: string) | SuccessToast(message: string)
}
