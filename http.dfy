/** The responses of the route handlers: a status code and a JSON body, the
    body being one of the fixed shapes the handlers build. */
module Http {
  import opened Common
  import opened Database
  import opened Anonymity

  /** `{ id, email }` of a user, as registration and login return it. */
  datatype AccountView = AccountView(id: Id, email: string)

  /** `select: { id: true, email: true, createdAt: true }` of a user. */
  datatype Profile = Profile(id: Id, email: string, createdAt: int)

  datatype Body =
    | Failure(error: string)                                      // { error }
    | Posts(posts: seq<PublicPost>)                               // { posts }
    | PostCreated(post: PostView, message: string)                // { post, message }
    | CommentCreated(comment: PublicComment, message: string)     // { comment, message }
    | Done(message: string)                                       // { message }
    | Notifications(notifications: seq<Notification>)            // { notifications }
    | NotificationRead(message: string, notification: Notification)
    | Account(account: AccountView, message: string)              // { user, message }
    | CurrentUser(user: Option<Profile>)                          // { user } or { user: null }

  datatype Response = Response(status: int, body: Body)

  const Unauthorized := "Unauthorized"
  const InternalError := "Internal server error"
}
