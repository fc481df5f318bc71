# Emotion Share API in Dafny

This project models the server side of Emotion Share, an anonymous
feelings-sharing board built on Next.js. It covers the route handlers under
`app/api/`: the posts feed and post creation, reporting a post, the
notification inbox, registration, commenting, login and the current-user
endpoint.

Each handler authenticates the caller from the `authToken` cookie. It then
checks its inputs and ownership in a fixed order, changes a few tables and
answers with a status and a JSON body.

The model has these parts:

- `Common` (`common.dfy`): `Option`, string ids, and `Given`, which is
  JavaScript truthiness of a request field (present and not empty).
- `Seqs` (`seqs.dfy`): find, filter, map, take and a stable sort by an
  integer key. These stand in for the query engine's `where`, `orderBy` and
  `take`. Lemmas show that filtering and sorting commute with a map that
  keeps the predicate and the key.
- `Auth` (`auth.dfy`): the session token, the password hasher, the
  authentication prefix all handlers share, and the request's cookie jar
  (a class).
- `Database` (`database.dfy`): the five tables (users, posts, comments,
  reports, notifications) as fields of one `Store` class. Its `Create…` and
  `MarkRead` methods change them in place and keep one invariant `Valid()`.
  That invariant says ids are unique per table, emails are unique, there is
  at most one report per (post, reporter), and posts and comments point at
  rows that exist.
- `Anonymity` (`anonymity.dfy`): the anonymity projection of the feed. The
  public post shape has no author-id field. The public comment shape has one
  only in its dashboard variant. So what the source deletes is absent by
  construction.
- `Http` (`http.dfy`): the response as a status and a body. The body is one
  of the fixed shapes the handlers build.
- One module per route file: `PostsRoute`, `ReportsRoute`,
  `NotificationsRoute`, `RegisterRoute`, `CommentsRoute`, `LoginRoute`,
  `MeRoute`. Each handler is a method over the store and the cookie jar. Its
  contract names the only statuses it can answer and ties each one to the
  condition that produces it, success included. Pure decisions (the feed,
  the inbox, the credential check, the profile lookup) are functions, and
  the methods are proved against them.

The token codec and the hasher are stand-ins for `@/lib/auth` and bcrypt,
which are not part of this model. A token is either `Signed(claims,
expiresAt, key)` or opaque text. It verifies only under the signing key and
before its expiry, an assumed seven days after issue. A password hash is an arbitrary
function of the password and a salt, passed in with the server's secret and
clock as `Env`.

The feed carries the main theorem, `PostsRoute.FeedHidesAuthors`. Erase
every author id other than the viewer's own from all posts and comments,
and swap in any users table. The feed the viewer receives does not change.
So the feed reveals no author beyond the viewer's own `isMine` flags.

## Model

| member | source | states |
|---|---|---|
| Auth.Authenticate | app/api/reports/route.js:8-13 | no session iff the cookie is absent or empty; an invalid session iff a present token fails verification; a caller only with the claims the token verifies to |
| Auth.Viewer | app/api/posts/route.js:13-19 | the feed's `userId` is set iff a token verified and its user id is truthy, and is then that id |
| Auth.VerifySigned | app/api/auth/login/route.js:29 | a token issued for some claims verifies to exactly those claims while unexpired, and to nothing afterwards |
| Auth.CompareOwnHash | app/api/auth/login/route.js:23-27 | a password always matches the hash made from it at registration |
| Database.UserByEmail | app/api/auth/register/route.js:18-24 | a user is found only with exactly that email; nothing is found iff no user has it |
| Database.UserById | app/api/auth/me/route.js:24-27 | a user is found only with that id; nothing is found iff the id is not a user's |
| Database.PostById | app/api/reports/route.js:21-25 | a post is found only with that id; nothing is found iff no post has it |
| Database.NotificationById | app/api/notifications/route.js:39 | a notification is found only with that id; nothing is found iff none has it |
| Database.HasReported | app/api/reports/route.js:32-35 | true iff a report with that post and reporter exists |
| Database.MarkedRead | app/api/notifications/route.js:45-48 | same notifications in the same order; one whose id matches becomes read, read ones stay read, and no other field changes |
| Database.MarkedReadIdempotent | app/api/notifications/route.js:45-50 | marking the same notification read twice is the same as once |
| Database.Store.CreateUser | app/api/auth/register/route.js:28-33 | appends one user with a fresh id, the given email, hash and time; the store invariant is kept |
| Database.Store.CreatePost | app/api/posts/route.js:89-97 | appends one post by an existing user, with a fresh id and `isAnonymous` true; the invariant is kept |
| Database.Store.CreateComment | app/api/comments/route.js:21-27 | appends one comment on an existing post by an existing user, with a fresh id; the invariant is kept |
| Database.Store.CreateReport | app/api/reports/route.js:41-47 | appends one report for a (post, reporter) pair not yet reported; the pair stays unique |
| Database.Store.CreateNotification | app/api/reports/route.js:49-55 | appends one unread notification with a fresh id for the given user |
| Database.Store.MarkRead | app/api/notifications/route.js:45-48 | the notifications table becomes `MarkedRead` of the old one; no other table changes |
| Anonymity.ProjectComment | app/api/posts/route.js:57-62 | keeps the comment's id, post, content and time; `isMine` iff the viewer is its author; has an author id (and the author) iff on the dashboard |
| Anonymity.Unattributed | app/api/posts/route.js:100-101 | the returned copy keeps the post's id, content, emotion, category, `isAnonymous` and creation time; its type has no `authorId` field |
| Anonymity.ProjectPost | app/api/posts/route.js:47-65 | keeps every column but `authorId` (the result type has none); `isMine` iff the viewer is the author; each comment projected in order |
| PostsRoute.Select | app/api/posts/route.js:22-44 | exactly the posts matching each truthy filter, and on the dashboard only the viewer's; newest first; no post added or duplicated |
| PostsRoute.CommentsOf | app/api/posts/route.js:39-40 | exactly the comments of the post, oldest first |
| PostsRoute.AuthorOf | app/api/posts/route.js:38-41 | an author's email is loaded only on the dashboard, and only from the user with that id |
| PostsRoute.Feed | app/api/posts/route.js:34-65 | one public post per selected post, in order, each the projection of that post with its loaded comments and author |
| PostsRoute.FeedFiltersAndOrder | app/api/posts/route.js:22-36 | every post in the feed matches each truthy filter (an absent one constrains nothing), newest first |
| PostsRoute.FeedOwnership | app/api/posts/route.js:27-54 | `isMine` iff the stored author is the viewer; on the dashboard every post is the viewer's; outside it no post carries an author |
| PostsRoute.FeedComments | app/api/posts/route.js:39-62 | a post's comments are exactly its stored ones, oldest first; `isMine` iff the viewer wrote it; author id kept iff on the dashboard |
| PostsRoute.Get | app/api/posts/route.js:6-67 | 401 iff the dashboard is asked for without a caller; otherwise 200 with the feed for the viewer |
| PostsRoute.Create | app/api/posts/route.js:74-103 | 401 without a caller, then 400 unless all three fields are truthy, then 500 if the caller is not a user, each with nothing stored; no other status, so a valid request gets 201, with exactly one post by the caller added and returned without `authorId` |
| PostsRoute.FeedHidesAuthors | app/api/posts/route.js:46-65 | the feed is unchanged when every author id but the viewer's is erased and the users table is replaced |
| PostsRoute.FeedIndistinguishable | app/api/posts/route.js:46-65 | two stores that differ only in authorship other than the viewer's give the viewer the same feed |
| ReportsRoute.FlagMessage | app/api/reports/route.js:52 | the author's message embeds the post's category at a fixed position |
| ReportsRoute.Create | app/api/reports/route.js:8-57 | 401, 400 (missing input), 404, 400 (own post), 409 (duplicate) in that order, each iff its condition and with nothing changed; 201 iff all five checks pass, with one report by the caller and one notification to the post's author, never the reporter |
| ReportsRoute.ReportTwice | app/api/reports/route.js:32-39 | after an accepted report, the same caller reporting the same post again gets 409 and adds no report |
| NotificationsRoute.Inbox | app/api/notifications/route.js:15-19 | only the caller's notifications, each at most as often as stored, newest first; exactly 20 of them, or all if fewer; none left out is newer than one shown |
| NotificationsRoute.List | app/api/notifications/route.js:6-21 | 401 iff there is no verified caller; otherwise 200 with the caller's inbox |
| NotificationsRoute.MarkRead | app/api/notifications/route.js:28-50 | 401 without a caller; 500 without an id; the same 404 for a missing or another user's notification, with nothing changed; no other status, so the owner gets 200: that notification becomes read and is returned, and no other row or table changes |
| RegisterRoute.Register | app/api/auth/register/route.js:7-51 | 400 iff the email lacks `@` or the password is under 6 characters; 409 iff the email is taken; on 201 one user with the hashed password, one welcome notification, a session cookie that verifies to the new user, and a body with only id and email |
| CommentsRoute.Create | app/api/comments/route.js:7-34 | 401, then 400 unless content and post id are truthy, with nothing stored; on 201 one comment by the caller, returned without `authorId`, with `isMine` true, as the feed would show it to its author |
| LoginRoute.CheckCredentials | app/api/auth/login/route.js:11-27 | 400 iff a field is missing; otherwise accepted iff a user has that email and the password matches its hash; every other refusal is the one identical 401 |
| LoginRoute.UnknownEmailLikeWrongPassword | app/api/auth/login/route.js:15-27 | a wrong password for a known email gets the same verdict as an unknown email |
| LoginRoute.RegisteredPasswordAccepted | app/api/auth/login/route.js:15-29 | a user registered with a password signs in with that password |
| LoginRoute.Login | app/api/auth/login/route.js:7-38 | refusals return the verdict's response and keep the cookie; on 200 the cookie holds a token that verifies to the user, and the body has only id and email; no table is written |
| MeRoute.ProfileOf | app/api/auth/me/route.js:24-27 | a profile exists iff the id is a user's, and it is that user's id, email and creation time |
| MeRoute.Me | app/api/auth/me/route.js:7-29 | always 200; no user without a token or with an invalid one; the cookie is deleted only when the token is invalid; otherwise the caller's profile |

## Left out

- The token codec of `@/lib/auth` is not part of this model. A token is a
  stand-in that records its claims, expiry and signing key. Signature
  cryptography and the JWT encoding are not modelled.
- bcrypt is not part of this model. The hash is an arbitrary function of
  the password and a salt, and the salt is a parameter of `Register`.
  Timing behaviour of the comparison is not modelled.
- The database schema is not part of this model. Foreign keys are assumed
  for a post's author and a comment's post and author, because the feed
  query loads them as relations. A write that breaks one fails with 500.
  No foreign key is assumed for reports or notifications.
- Concurrency: each handler runs atomically. The check-then-insert races on
  email uniqueness and report de-duplication are not modelled.
- Cookie attributes (`getCookieSettings`) are not part of this model. The
  jar holds only the `authToken` value.
- The edit and delete endpoints `app/api/posts/[id]/route.js` and
  `app/api/comments/[id]/route.js` are outside this model.
- The React pages and components are outside this model.
- The generic 500 catch blocks are modelled only where a store operation can
  fail: a foreign-key violation on post or comment creation, and the id
  lookup without an id in the notification PATCH. Logging is not modelled.
- Request fields are strings or absent. Non-string JSON values, which would
  make the store calls throw, are not modelled.
- RegisterRoute.Register: counts the password length in characters, where
  JavaScript counts UTF-16 code units.
- PostsRoute.Select: posts with equal `createdAt` are ordered by their
  insertion order, while the database leaves ties unspecified.
  NotificationsRoute.Inbox and PostsRoute.CommentsOf do the same.
- Database.Store.CreatePost: sets `isAnonymous` to true, which the source
  leaves to a schema default it does not show. No `updatedAt` column is
  modelled.
- Auth.VerifySigned: the seven-day lifetime is an assumed constant of the
  token stand-in; the signing code that fixes it is not part of this model.
