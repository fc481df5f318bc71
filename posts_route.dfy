/** `app/api/posts/route.js`: the feed and dashboard listing (GET) and post
    creation (POST). */
module PostsRoute {
  import opened Common
  import opened Seqs
  import opened Auth
  import opened Database
  import opened Anonymity
  import opened Http

  /** The query string of GET: `emotion`, `category` and `dashboard`. */
  datatype Query = Query(emotion: Option<string>, category: Option<string>, dashboard: Option<string>)

  const MissingFields := "Missing required fields"
  const PostCreatedMessage := "Post created successfully"

  /** `searchParams.get('dashboard') === 'true'`. */
  predicate IsDashboard(q: Query)
  {
    q.dashboard == Some("true")
  }

  /** The `where` clause: each truthy filter must match, and the dashboard
      keeps only the viewer's own posts. */
  predicate Selected(q: Query, viewer: Option<Id>, p: Post)
  {
    && (Given(q.emotion) ==> p.emotion == q.emotion.value)
    && (Given(q.category) ==> p.category == q.category.value)
    && (IsDashboard(q) ==> viewer == Some(p.authorId))
  }

  function SelectedBy(q: Query, viewer: Option<Id>): Post -> bool
  {
    (p: Post) => Selected(q, viewer, p)
  }

  /** Sort key for `orderBy: { createdAt: 'desc' }`. */
  function Newness(p: Post): int
  {
    -p.createdAt
  }

  /** Sort key for `orderBy: { createdAt: 'asc' }`. */
  function CommentAge(c: Comment): int
  {
    c.createdAt
  }

  /** The posts the query returns: exactly the stored posts the `where`
      clause selects, newest first. */
  function Select(posts: seq<Post>, q: Query, viewer: Option<Id>): (r: seq<Post>)
    ensures forall p :: p in r <==> p in posts && Selected(q, viewer, p)
    ensures multiset(r) <= multiset(posts)
    ensures forall i, j :: 0 <= i < j < |r| ==> r[i].createdAt >= r[j].createdAt
  {
    SortBy(Filter(posts, SelectedBy(q, viewer)), Newness)
  }

  function OfPost(postId: Id): Comment -> bool
  {
    (c: Comment) => c.postId == postId
  }

  /** The comments the query includes with a post: exactly the stored
      comments on that post, oldest first. */
  function CommentsOf(comments: seq<Comment>, postId: Id): (r: seq<Comment>)
    ensures forall c :: c in r <==> c in comments && c.postId == postId
    ensures multiset(r) <= multiset(comments)
    ensures forall i, j :: 0 <= i < j < |r| ==> r[i].createdAt <= r[j].createdAt
  {
    SortBy(Filter(comments, OfPost(postId)), CommentAge)
  }

  /** The included `author` of a row: its author's email on the dashboard,
      nothing in the feed. */
  function AuthorOf(users: seq<User>, authorId: Id, dashboard: bool): (r: Option<Author>)
    ensures r.Some? <==> dashboard && authorId in UserIds(users)
    ensures r.Some? ==> exists u :: u in users && u.id == authorId && r.value == Author(u.email)
  {
    if !dashboard then None
    else match UserById(users, authorId)
      case None => None
      case Some(u) => Some(Author(u.email))
  }

  function LoadComment(users: seq<User>, dashboard: bool): Comment -> StoredComment
  {
    (c: Comment) => StoredComment(c, AuthorOf(users, c.authorId, dashboard))
  }

  /** A selected post with what the query includes with it. */
  function Load(users: seq<User>, comments: seq<Comment>, p: Post, dashboard: bool): StoredPost
  {
    StoredPost(p, AuthorOf(users, p.authorId, dashboard),
               MapSeq(CommentsOf(comments, p.id), LoadComment(users, dashboard)))
  }

  function ShownTo(users: seq<User>, comments: seq<Comment>, viewer: Option<Id>, dashboard: bool)
    : Post -> PublicPost
  {
    (p: Post) => ProjectPost(Load(users, comments, p, dashboard), viewer, dashboard)
  }

  /** The `posts` of a 200 response to GET: the selected posts, newest first,
      each loaded with what the query includes and projected for the viewer. */
  function Feed(users: seq<User>, posts: seq<Post>, comments: seq<Comment>, q: Query,
                viewer: Option<Id>): (r: seq<PublicPost>)
    ensures |r| == |Select(posts, q, viewer)|
    ensures forall i :: 0 <= i < |r| ==>
              r[i] == ProjectPost(Load(users, comments, Select(posts, q, viewer)[i], IsDashboard(q)),
                                  viewer, IsDashboard(q))
  {
    MapSeq(Select(posts, q, viewer), ShownTo(users, comments, viewer, IsDashboard(q)))
  }

  /** Every post in the feed matches each truthy filter, and the feed is
      newest first. */
  lemma FeedFiltersAndOrder(users: seq<User>, posts: seq<Post>, comments: seq<Comment>, q: Query,
                            viewer: Option<Id>)
    ensures var r := Feed(users, posts, comments, q, viewer);
      && (forall i :: 0 <= i < |r| ==>
            && (Given(q.emotion) ==> r[i].emotion == q.emotion.value)
            && (Given(q.category) ==> r[i].category == q.category.value))
      && (forall i, j :: 0 <= i < j < |r| ==> r[i].createdAt >= r[j].createdAt)
  {
    var sel := Select(posts, q, viewer);
    assert forall i :: 0 <= i < |sel| ==> sel[i] in sel;
  }

  /** A post is the viewer's exactly when its stored author is the viewer;
      on the dashboard every post is the viewer's and carries its author's
      email, in the feed none carries an author. */
  lemma FeedOwnership(users: seq<User>, posts: seq<Post>, comments: seq<Comment>, q: Query,
                      viewer: Option<Id>)
    ensures var r := Feed(users, posts, comments, q, viewer);
            var sel := Select(posts, q, viewer);
      && (forall i :: 0 <= i < |r| ==>
            && r[i].id == sel[i].id
            && (r[i].isMine <==> IsMine(viewer, sel[i].authorId))
            && r[i].author == AuthorOf(users, sel[i].authorId, IsDashboard(q)))
      && (IsDashboard(q) ==> forall i :: 0 <= i < |r| ==> r[i].isMine && sel[i].authorId == viewer.value)
      && (!IsDashboard(q) ==> forall i :: 0 <= i < |r| ==> r[i].author.None?)
  {
    var r := Feed(users, posts, comments, q, viewer);
    var sel := Select(posts, q, viewer);
    var d := IsDashboard(q);
    forall i | 0 <= i < |r|
      ensures r[i].id == sel[i].id
      ensures r[i].isMine <==> IsMine(viewer, sel[i].authorId)
      ensures r[i].author == AuthorOf(users, sel[i].authorId, d)
      ensures d ==> r[i].isMine && sel[i].authorId == viewer.value
    {
      assert sel[i] in sel;
      assert r[i] == ProjectPost(Load(users, comments, sel[i], d), viewer, d);
    }
  }

  /** The comments of each post in the feed are exactly its stored comments,
      oldest first; each is the viewer's exactly when its stored author is the
      viewer, and it keeps its author id on the dashboard and loses it in the
      feed. */
  lemma FeedComments(users: seq<User>, posts: seq<Post>, comments: seq<Comment>, q: Query,
                     viewer: Option<Id>, i: int)
    requires 0 <= i < |Feed(users, posts, comments, q, viewer)|
    ensures var r := Feed(users, posts, comments, q, viewer)[i];
            var stored := CommentsOf(comments, r.id);
      && |r.comments| == |stored|
      && (forall k :: 0 <= k < |stored| ==>
            && r.comments[k].id == stored[k].id
            && (r.comments[k].isMine <==> IsMine(viewer, stored[k].authorId))
            && (r.comments[k].FeedComment? <==> !IsDashboard(q))
            && (r.comments[k].DashboardComment? ==> r.comments[k].authorId == stored[k].authorId))
      && (forall k, l :: 0 <= k < l < |r.comments| ==> r.comments[k].createdAt <= r.comments[l].createdAt)
  {
  }

  /** GET: 401 on the dashboard without a caller; otherwise 200 with the feed. */
  method Get(store: Store, jar: CookieJar, env: Env, q: Query) returns (r: Response)
    ensures var viewer := Viewer(Authenticate(jar.authToken, env.secret, env.now));
      && (r.status == 401 <==> IsDashboard(q) && viewer.None?)
      && (r.status == 401 ==> r.body == Failure(Unauthorized))
      && (r.status != 401 ==>
            r == Response(200, Posts(Feed(store.users, store.posts, store.comments, q, viewer))))
  {
    var viewer := Viewer(Authenticate(jar.authToken, env.secret, env.now));
    if IsDashboard(q) && viewer.None? {
      return Response(401, Failure(Unauthorized));
    }
    var posts := Feed(store.users, store.posts, store.comments, q, viewer);
    r := Response(200, Posts(posts));
  }

  /** POST: 401 without a verified caller, then 400 unless `content`,
      `emotion` and `category` are all truthy; otherwise one post owned by the
      caller is inserted and returned without its author id. Inserting a post
      for a caller id that names no user breaks the foreign key: 500. */
  method Create(store: Store, jar: CookieJar, env: Env,
                content: Option<string>, emotion: Option<string>, category: Option<string>)
    returns (r: Response)
    requires store.Valid()
    modifies store
    ensures store.Valid()
    ensures var s := Authenticate(jar.authToken, env.secret, env.now);
      && (r.status == 401 <==> !s.Caller?)
      && (r.status == 400 <==> s.Caller? && !(Given(content) && Given(emotion) && Given(category)))
      && (r.status == 500 <==> s.Caller? && Given(content) && Given(emotion) && Given(category)
                               && s.claims.userId !in UserIds(old(store.users)))
      && (r.status == 401 ==> r.body == Failure(Unauthorized))
      && (r.status == 400 ==> r.body == Failure(MissingFields))
      && (r.status == 500 ==> r.body == Failure(InternalError))
      && r.status in {401, 400, 500, 201}
      && (r.status != 201 ==> unchanged(store))
      && (r.status == 201 ==>
            && |store.posts| == |old(store.posts)| + 1
            && store.posts[..|old(store.posts)|] == old(store.posts)
            && var p := store.posts[|old(store.posts)|];
               && p.id !in PostIds(old(store.posts))
               && p == Post(p.id, s.claims.userId, content.value, emotion.value, category.value,
                            true, env.now)
               && r.body == PostCreated(Unattributed(p), PostCreatedMessage))
    ensures store.users == old(store.users) && store.comments == old(store.comments)
    ensures store.reports == old(store.reports) && store.notifications == old(store.notifications)
  {
    var s := Authenticate(jar.authToken, env.secret, env.now);
    if !s.Caller? {
      return Response(401, Failure(Unauthorized));
    }
    if !(Given(content) && Given(emotion) && Given(category)) {
      return Response(400, Failure(MissingFields));
    }
    if s.claims.userId !in UserIds(store.users) {
      return Response(500, Failure(InternalError));
    }
    var p := store.CreatePost(s.claims.userId, content.value, emotion.value, category.value, env.now);
    r := Response(201, PostCreated(Unattributed(p), PostCreatedMessage));
  }

  /** Filtering and sorting the blinded posts is blinding the selected posts:
      in the feed, selection does not look at author ids. */
  lemma SelectBlind(posts: seq<Post>, q: Query, viewer: Option<Id>)
    requires !IsDashboard(q)
    ensures Select(MapSeq(posts, BlindPost(viewer)), q, viewer) ==
            MapSeq(Select(posts, q, viewer), BlindPost(viewer))
  {
    var blind := BlindPost(viewer);
    FilterMap(posts, SelectedBy(q, viewer), blind);
    SortByMap(Filter(posts, SelectedBy(q, viewer)), Newness, blind);
  }

  /** The comments of a post, taken from blinded comments, are the blinded
      comments of that post. */
  lemma CommentsOfBlind(comments: seq<Comment>, postId: Id, viewer: Option<Id>)
    ensures CommentsOf(MapSeq(comments, BlindComment(viewer)), postId) ==
            MapSeq(CommentsOf(comments, postId), BlindComment(viewer))
  {
    var blind := BlindComment(viewer);
    FilterMap(comments, OfPost(postId), blind);
    SortByMap(Filter(comments, OfPost(postId)), CommentAge, blind);
  }

  /** In the feed, a post projects the same after blinding its author ids and
      those of its comments, whatever users table the authors are looked up in. */
  lemma ShownToBlind(users: seq<User>, users': seq<User>, comments: seq<Comment>, p: Post,
                     viewer: Option<Id>)
    requires WellFormedViewer(viewer)
    ensures ShownTo(users', MapSeq(comments, BlindComment(viewer)), viewer, false)(BlindPost(viewer)(p)) ==
            ShownTo(users, comments, viewer, false)(p)
  {
    var bp := BlindPost(viewer)(p);
    CommentsOfBlind(comments, p.id, viewer);
    BlindKeepsOwnership(viewer, p.authorId);
    var mine := CommentsOf(comments, p.id);
    var theirs := MapSeq(mine, BlindComment(viewer));
    var a := Load(users', MapSeq(comments, BlindComment(viewer)), bp, false);
    var b := Load(users, comments, p, false);
    assert a.comments == MapSeq(theirs, LoadComment(users', false));
    forall k | 0 <= k < |a.comments|
      ensures ProjectComment(a.comments[k], viewer, false) == ProjectComment(b.comments[k], viewer, false)
    {
      BlindKeepsOwnership(viewer, mine[k].authorId);
    }
    var pa := ProjectPost(a, viewer, false);
    var pb := ProjectPost(b, viewer, false);
    assert pa.comments == pb.comments;
  }

  /** The feed hides authorship: what a viewer sees in the feed is unchanged
      when every author id other than the viewer's own is erased from the
      posts and comments, and does not depend on the users table. So no feed
      response carries, or depends on, another user's identity beyond the
      viewer's own `isMine` flags. */
  lemma {:induction false} FeedHidesAuthors(users: seq<User>, users': seq<User>, posts: seq<Post>,
                                            comments: seq<Comment>, q: Query, viewer: Option<Id>)
    requires !IsDashboard(q)
    requires WellFormedViewer(viewer)
    ensures Feed(users', MapSeq(posts, BlindPost(viewer)), MapSeq(comments, BlindComment(viewer)), q, viewer) ==
            Feed(users, posts, comments, q, viewer)
  {
    var blinded := MapSeq(comments, BlindComment(viewer));
    SelectBlind(posts, q, viewer);
    var sel := Select(posts, q, viewer);
    var lhs := Feed(users', MapSeq(posts, BlindPost(viewer)), blinded, q, viewer);
    var rhs := Feed(users, posts, comments, q, viewer);
    forall i | 0 <= i < |sel| ensures lhs[i] == rhs[i] {
      ShownToBlind(users, users', comments, sel[i], viewer);
    }
  }

  /** Two stores whose posts and comments agree once every author id other
      than the viewer's is erased give the viewer the same feed. */
  lemma FeedIndistinguishable(users1: seq<User>, posts1: seq<Post>, comments1: seq<Comment>,
                              users2: seq<User>, posts2: seq<Post>, comments2: seq<Comment>,
                              q: Query, viewer: Option<Id>)
    requires !IsDashboard(q)
    requires WellFormedViewer(viewer)
    requires MapSeq(posts1, BlindPost(viewer)) == MapSeq(posts2, BlindPost(viewer))
    requires MapSeq(comments1, BlindComment(viewer)) == MapSeq(comments2, BlindComment(viewer))
    ensures Feed(users1, posts1, comments1, q, viewer) == Feed(users2, posts2, comments2, q, viewer)
  {
    FeedHidesAuthors(users1, users1, posts1, comments1, q, viewer);
    FeedHidesAuthors(users2, users1, posts2, comments2, q, viewer);
  }
}
