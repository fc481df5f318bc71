/** The five tables the route handlers read and write through Prisma, held
    in memory by one `Store`. Each `Create…` method is the `create` call of
    one table: it allocates a fresh id, fills in the column defaults
    (`createdAt`, `isRead`, `isAnonymous`) and appends the row. The unique and
    foreign-key constraints the handlers rely on are the store's invariant. */
module Database {
  import opened Common
  import opened Seqs
  import opened Auth

  datatype User = User(id: Id, email: string, passwordHash: Digest, createdAt: int)

  datatype Post = Post(id: Id, authorId: Id, content: string, emotion: string,
                       category: string, isAnonymous: bool, createdAt: int)

  datatype Comment = Comment(id: Id, postId: Id, authorId: Id, content: string, createdAt: int)

  datatype Report = Report(id: Id, postId: Id, reporterId: Id, reason: string, createdAt: int)

  datatype Notification = Notification(id: Id, userId: Id, message: string, isRead: bool,
                                       createdAt: int)

  function UserIds(users: seq<User>): set<Id>
  {
    set u | u in users :: u.id
  }

  function PostIds(posts: seq<Post>): set<Id>
  {
    set p | p in posts :: p.id
  }

  /** `user.findUnique({ where: { email } })`. */
  function UserByEmail(users: seq<User>, email: string): (r: Option<User>)
    ensures r.Some? ==> r.value in users && r.value.email == email
    ensures r.None? <==> forall u :: u in users ==> u.email != email
  {
    Find(users, (u: User) => u.email == email)
  }

  /** `user.findUnique({ where: { id } })`. */
  function UserById(users: seq<User>, id: Id): (r: Option<User>)
    ensures r.Some? ==> r.value in users && r.value.id == id
    ensures r.None? <==> id !in UserIds(users)
  {
    Find(users, (u: User) => u.id == id)
  }

  /** `post.findUnique({ where: { id } })`. */
  function PostById(posts: seq<Post>, id: Id): (r: Option<Post>)
    ensures r.Some? ==> r.value in posts && r.value.id == id
    ensures r.None? <==> id !in PostIds(posts)
  {
    Find(posts, (p: Post) => p.id == id)
  }

  /** `notification.findUnique({ where: { id } })`. */
  function NotificationById(ns: seq<Notification>, id: Id): (r: Option<Notification>)
    ensures r.Some? ==> r.value in ns && r.value.id == id
    ensures r.None? <==> forall n :: n in ns ==> n.id != id
  {
    Find(ns, (n: Notification) => n.id == id)
  }

  /** `report.findFirst({ where: { postId, reporterId } })` finds a row. */
  function HasReported(reports: seq<Report>, postId: Id, reporterId: Id): (b: bool)
    ensures b <==> exists r :: r in reports && r.postId == postId && r.reporterId == reporterId
  {
    Find(reports, (r: Report) => r.postId == postId && r.reporterId == reporterId).Some?
  }

  /** `notification.update({ where: { id }, data: { isRead: true } })`:
      the row with that id is read afterwards, every row that was read
      stays read, and nothing else about any row changes. */
  function MarkedRead(ns: seq<Notification>, id: Id): (r: seq<Notification>)
    ensures |r| == |ns|
    ensures forall i :: 0 <= i < |ns| ==> r[i].isRead == (ns[i].isRead || ns[i].id == id)
    ensures forall i :: 0 <= i < |ns| ==> r[i].(isRead := ns[i].isRead) == ns[i]
  {
    MapSeq(ns, (n: Notification) => if n.id == id then n.(isRead := true) else n)
  }

  /** Marking a notification read twice is marking it read once. */
  lemma MarkedReadIdempotent(ns: seq<Notification>, id: Id)
    ensures MarkedRead(MarkedRead(ns, id), id) == MarkedRead(ns, id)
  {
    var once := MarkedRead(ns, id);
    var twice := MarkedRead(once, id);
    forall i | 0 <= i < |ns| ensures twice[i] == once[i] {
      assert twice[i].(isRead := once[i].isRead) == once[i];
    }
  }

  /** Every id is non-empty and shorter than `bound`. */
  ghost predicate IdsBelow(users: seq<User>, posts: seq<Post>, comments: seq<Comment>,
                           reports: seq<Report>, notifications: seq<Notification>, bound: nat)
  {
    && (forall u :: u in users ==> 0 < |u.id| < bound)
    && (forall p :: p in posts ==> 0 < |p.id| < bound)
    && (forall c :: c in comments ==> 0 < |c.id| < bound)
    && (forall r :: r in reports ==> 0 < |r.id| < bound)
    && (forall n :: n in notifications ==> 0 < |n.id| < bound)
  }

  /** Ids are unique in each table, emails are unique, and a user has
      reported a post at most once. */
  ghost predicate UniqueKeys(users: seq<User>, posts: seq<Post>, comments: seq<Comment>,
                             reports: seq<Report>, notifications: seq<Notification>)
  {
    && (forall i, j :: 0 <= i < j < |users| ==> users[i].id != users[j].id)
    && (forall i, j :: 0 <= i < j < |users| ==> users[i].email != users[j].email)
    && (forall i, j :: 0 <= i < j < |posts| ==> posts[i].id != posts[j].id)
    && (forall i, j :: 0 <= i < j < |comments| ==> comments[i].id != comments[j].id)
    && (forall i, j :: 0 <= i < j < |reports| ==> reports[i].id != reports[j].id)
    && (forall i, j :: 0 <= i < j < |reports| ==>
          reports[i].postId != reports[j].postId || reports[i].reporterId != reports[j].reporterId)
    && (forall i, j :: 0 <= i < j < |notifications| ==> notifications[i].id != notifications[j].id)
  }

  /** Posts and comments refer to users and posts that exist. */
  ghost predicate ReferencesExist(users: seq<User>, posts: seq<Post>, comments: seq<Comment>)
  {
    && (forall p :: p in posts ==> p.authorId in UserIds(users))
    && (forall c :: c in comments ==> c.postId in PostIds(posts) && c.authorId in UserIds(users))
  }

  class Store {
    var users: seq<User>
    var posts: seq<Post>
    var comments: seq<Comment>
    var reports: seq<Report>
    var notifications: seq<Notification>
    /** Every id the store has issued is non-empty and shorter than this. */
    var idLength: nat

    /** The database's constraints: ids are unique in each table, emails are
        unique, a user reports a post at most once, and posts and comments
        refer to rows that exist. */
    ghost predicate Valid()
      reads this
    {
      && idLength > 0
      && IdsBelow(users, posts, comments, reports, notifications, idLength)
      && UniqueKeys(users, posts, comments, reports, notifications)
      && ReferencesExist(users, posts, comments)
    }

    constructor ()
      ensures Valid()
      ensures users == [] && posts == [] && comments == [] && reports == [] && notifications == []
    {
      users, posts, comments, reports, notifications := [], [], [], [], [];
      idLength := 1;
    }

    /** A fresh id: longer than every id in every table. */
    method NewId() returns (id: Id)
      requires Valid()
      modifies this`idLength
      ensures Valid()
      ensures 0 < |id| < idLength
      ensures forall u :: u in users ==> |u.id| < |id|
      ensures forall p :: p in posts ==> |p.id| < |id|
      ensures forall c :: c in comments ==> |c.id| < |id|
      ensures forall r :: r in reports ==> |r.id| < |id|
      ensures forall n :: n in notifications ==> |n.id| < |id|
    {
      id := seq(idLength, _ => 'c');
      idLength := idLength + 1;
    }

    /** `user.create({ data: { email, passwordHash } })`; the unique
        constraint on `email` holds by the caller's check. */
    method CreateUser(email: string, passwordHash: Digest, now: int) returns (u: User)
      requires Valid()
      requires UserByEmail(users, email).None?
      modifies this`users, this`idLength
      ensures Valid()
      ensures users == old(users) + [u]
      ensures u.id !in UserIds(old(users)) && u.email == email
      ensures u.passwordHash == passwordHash && u.createdAt == now
    {
      var id := NewId();
      u := User(id, email, passwordHash, now);
      users := users + [u];
    }

    /** `post.create({ data: { content, emotion, category, authorId } })`;
        `isAnonymous` defaults to true. */
    method CreatePost(authorId: Id, content: string, emotion: string, category: string, now: int)
      returns (p: Post)
      requires Valid()
      requires authorId in UserIds(users)
      modifies this`posts, this`idLength
      ensures Valid()
      ensures posts == old(posts) + [p]
      ensures p.id !in PostIds(old(posts))
      ensures p == Post(p.id, authorId, content, emotion, category, true, now)
    {
      var id := NewId();
      p := Post(id, authorId, content, emotion, category, true, now);
      posts := posts + [p];
    }

    /** `comment.create({ data: { content, postId, authorId } })`. */
    method CreateComment(postId: Id, authorId: Id, content: string, now: int) returns (c: Comment)
      requires Valid()
      requires postId in PostIds(posts) && authorId in UserIds(users)
      modifies this`comments, this`idLength
      ensures Valid()
      ensures comments == old(comments) + [c]
      ensures forall old_c :: old_c in old(comments) ==> old_c.id != c.id
      ensures c == Comment(c.id, postId, authorId, content, now)
    {
      var id := NewId();
      c := Comment(id, postId, authorId, content, now);
      comments := comments + [c];
    }

    /** `report.create({ data: { postId, reason, reporterId } })`; at most
        one report per post and reporter holds by the caller's check. */
    method CreateReport(postId: Id, reporterId: Id, reason: string, now: int) returns (r: Report)
      requires Valid()
      requires !HasReported(reports, postId, reporterId)
      modifies this`reports, this`idLength
      ensures Valid()
      ensures reports == old(reports) + [r]
      ensures forall old_r :: old_r in old(reports) ==> old_r.id != r.id
      ensures r == Report(r.id, postId, reporterId, reason, now)
    {
      var id := NewId();
      r := Report(id, postId, reporterId, reason, now);
      reports := reports + [r];
    }

    /** `notification.create({ data: { userId, message } })`; `isRead`
        defaults to false. */
    method CreateNotification(userId: Id, message: string, now: int) returns (n: Notification)
      requires Valid()
      modifies this`notifications, this`idLength
      ensures Valid()
      ensures notifications == old(notifications) + [n]
      ensures forall old_n :: old_n in old(notifications) ==> old_n.id != n.id
      ensures n == Notification(n.id, userId, message, false, now)
    {
      var id := NewId();
      n := Notification(id, userId, message, false, now);
      notifications := notifications + [n];
    }

    /** `notification.update({ where: { id }, data: { isRead: true } })`. */
    method MarkRead(id: Id)
      requires Valid()
      modifies this`notifications
      ensures Valid()
      ensures notifications == MarkedRead(old(notifications), id)
    {
      notifications := MarkedRead(notifications, id);
    }
  }
}
