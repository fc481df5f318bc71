/** `app/api/notifications/route.js`: the caller's inbox (GET) and marking
    one notification read (PATCH). */
module NotificationsRoute {
  import opened Common
  import opened Seqs
  import opened Auth
  import opened Database
  import opened Http

  /** `take: 20`. */
  const InboxSize: nat := 20

  const NotificationNotFound := "Notification not found"
  const MarkedMessage := "Notification marked as read"

  /** Sort key for `orderBy: { createdAt: 'desc' }`. */
  function Newness(n: Notification): int
  {
    -n.createdAt
  }

  function AddressedTo(userId: Id): Notification -> bool
  {
    (n: Notification) => n.userId == userId
  }

  /** The caller's notifications, newest first. */
  function Addressed(ns: seq<Notification>, userId: Id): (r: seq<Notification>)
    ensures forall n :: n in r <==> n in ns && n.userId == userId
    ensures forall i, j :: 0 <= i < j < |r| ==> r[i].createdAt >= r[j].createdAt
    ensures multiset(r) <= multiset(ns)
    ensures |r| == |Filter(ns, AddressedTo(userId))|
  {
    SortBy(Filter(ns, AddressedTo(userId)), Newness)
  }

  /** The first `n` of a newest-first sequence are its newest elements. */
  lemma TakeNewest(all: seq<Notification>, n: nat)
    requires forall i, j :: 0 <= i < j < |all| ==> all[i].createdAt >= all[j].createdAt
    ensures var r := Take(all, n);
      && (forall x :: x in r ==> x in all)
      && multiset(r) <= multiset(all)
      && (forall i, j :: 0 <= i < j < |r| ==> r[i].createdAt >= r[j].createdAt)
      && (|r| < n ==> r == all)
      && (forall x, m :: x in all && x !in r && m in r ==> m.createdAt >= x.createdAt)
  {
    var r := Take(all, n);
    assert all == r + all[|r|..];
    forall x | x in r ensures x in all {
      var j :| 0 <= j < |r| && r[j] == x;
      assert all[j] == x;
    }
    forall x, m | x in all && x !in r && m in r
      ensures m.createdAt >= x.createdAt
    {
      var k :| 0 <= k < |all| && all[k] == x;
      var j :| 0 <= j < |r| && r[j] == m;
      assert all[j] == m;
      assert k >= |r|;
    }
  }

  /** The inbox GET returns: only the caller's notifications, newest first,
      at most 20 of them, and none of the caller's notifications left out is
      newer than one shown. */
  function Inbox(ns: seq<Notification>, userId: Id): (r: seq<Notification>)
    ensures |r| == if |Addressed(ns, userId)| < InboxSize then |Addressed(ns, userId)| else InboxSize
    ensures multiset(r) <= multiset(Addressed(ns, userId)) && multiset(r) <= multiset(ns)
    ensures forall n :: n in r ==> n in ns && n.userId == userId
    ensures forall i, j :: 0 <= i < j < |r| ==> r[i].createdAt >= r[j].createdAt
    ensures |r| < InboxSize ==> forall n :: n in ns && n.userId == userId ==> n in r
    ensures forall n, m :: n in ns && n.userId == userId && n !in r && m in r ==>
              m.createdAt >= n.createdAt
  {
    var all := Addressed(ns, userId);
    TakeNewest(all, InboxSize);
    Take(all, InboxSize)
  }

  /** GET: 401 without a verified caller; otherwise the caller's inbox. */
  method List(store: Store, jar: CookieJar, env: Env) returns (r: Response)
    ensures var s := Authenticate(jar.authToken, env.secret, env.now);
      && (r.status == 401 <==> !s.Caller?)
      && (r.status == 401 ==> r.body == Failure(Unauthorized))
      && (s.Caller? ==> r == Response(200, Notifications(Inbox(store.notifications, s.claims.userId))))
  {
    var s := Authenticate(jar.authToken, env.secret, env.now);
    if !s.Caller? {
      return Response(401, Failure(Unauthorized));
    }
    r := Response(200, Notifications(Inbox(store.notifications, s.claims.userId)));
  }

  /** The notification `id` exists and belongs to `userId`. */
  predicate Owns(ns: seq<Notification>, id: Id, userId: Id)
  {
    NotificationById(ns, id).Some? && NotificationById(ns, id).value.userId == userId
  }

  /** PATCH: 401 without a verified caller; a request without an `id` makes
      the lookup throw (500); a notification that does not exist or is
      someone else's gives the same 404; otherwise it is marked read and
      returned. */
  method MarkRead(store: Store, jar: CookieJar, env: Env, id: Option<Id>) returns (r: Response)
    requires store.Valid()
    modifies store
    ensures store.Valid()
    ensures var s := Authenticate(jar.authToken, env.secret, env.now);
      && (r.status == 401 <==> !s.Caller?)
      && (r.status == 401 ==> r.body == Failure(Unauthorized))
      && (r.status == 500 <==> s.Caller? && id.None?)
      && (r.status == 500 ==> r.body == Failure(InternalError))
      && (r.status == 404 <==> s.Caller? && id.Some? && !Owns(old(store.notifications), id.value, s.claims.userId))
      && (r.status == 404 ==> r.body == Failure(NotificationNotFound))
      && r.status in {401, 500, 404, 200}
      && (r.status != 200 ==> unchanged(store))
      && (r.status == 200 ==>
            && store.notifications == MarkedRead(old(store.notifications), id.value)
            && r == Response(200, NotificationRead(MarkedMessage,
                     NotificationById(old(store.notifications), id.value).value.(isRead := true))))
    ensures store.users == old(store.users) && store.posts == old(store.posts)
    ensures store.comments == old(store.comments) && store.reports == old(store.reports)
  {
    var s := Authenticate(jar.authToken, env.secret, env.now);
    if !s.Caller? {
      return Response(401, Failure(Unauthorized));
    }
    if id.None? {
      return Response(500, Failure(InternalError));
    }
    var found := NotificationById(store.notifications, id.value);
    if found.None? || found.value.userId != s.claims.userId {
      return Response(404, Failure(NotificationNotFound));
    }
    store.MarkRead(id.value);
    r := Response(200, NotificationRead(MarkedMessage, found.value.(isRead := true)));
  }
}
