/** The anonymity projection of the posts feed: the shape a stored post and
    its comments take in a response. A post never carries its author's id
    (the source deletes it in both modes); a comment carries its author's id
    only on the dashboard; both carry `isMine`, computed from the stored
    author id before it is dropped. Omission is structural: the public
    shapes below have no field for what the source deletes. */
module Anonymity {
  import opened Common
  import opened Seqs
  import opened Database

  /** `author: { select: { email: true } }`, included only on the dashboard. */
  datatype Author = Author(email: string)

  /** A comment as the feed query loads it. */
  datatype StoredComment = StoredComment(row: Comment, author: Option<Author>)

  /** A post as the feed query loads it, with its comments. */
  datatype StoredPost = StoredPost(row: Post, author: Option<Author>, comments: seq<StoredComment>)

  /** A comment in a response: without its author's id in the feed, with it
      (and the author's email, when loaded) on the dashboard. */
  datatype PublicComment =
    | FeedComment(id: Id, postId: Id, content: string, createdAt: int, isMine: bool)
    | DashboardComment(id: Id, postId: Id, authorId: Id, content: string, createdAt: int,
                       author: Option<Author>, isMine: bool)

  /** A post in a feed response; it has no author id field. */
  datatype PublicPost = PublicPost(id: Id, content: string, emotion: string, category: string,
                                   isAnonymous: bool, createdAt: int, author: Option<Author>,
                                   comments: seq<PublicComment>, isMine: bool)

  /** A post as the create handler returns it: the stored row without `authorId`. */
  datatype PostView = PostView(id: Id, content: string, emotion: string, category: string,
                               isAnonymous: bool, createdAt: int)

  /** `userId && (authorId === userId)`, for a viewer id that is truthy. */
  predicate IsMine(viewer: Option<Id>, authorId: Id)
  {
    viewer == Some(authorId)
  }

  /** A viewer id as the feed handler holds it: absent, or a truthy id. */
  predicate WellFormedViewer(viewer: Option<Id>)
  {
    viewer.Some? ==> viewer.value != ""
  }

  /** The stored comment shaped for the viewer. */
  function ProjectComment(c: StoredComment, viewer: Option<Id>, dashboard: bool): (r: PublicComment)
    ensures r.id == c.row.id && r.postId == c.row.postId
    ensures r.content == c.row.content && r.createdAt == c.row.createdAt
    ensures r.FeedComment? <==> !dashboard
    ensures r.isMine <==> IsMine(viewer, c.row.authorId)
    ensures r.DashboardComment? ==> r.authorId == c.row.authorId && r.author == c.author
  {
    var mine := IsMine(viewer, c.row.authorId);
    if dashboard then
      DashboardComment(c.row.id, c.row.postId, c.row.authorId, c.row.content, c.row.createdAt,
                       c.author, mine)
    else
      FeedComment(c.row.id, c.row.postId, c.row.content, c.row.createdAt, mine)
  }

  function CommentShownTo(viewer: Option<Id>, dashboard: bool): StoredComment -> PublicComment
  {
    (c: StoredComment) => ProjectComment(c, viewer, dashboard)
  }

  /** The stored post shaped for the viewer: every column but `authorId`,
      the loaded author, each comment shaped in turn, and `isMine`. */
  function ProjectPost(p: StoredPost, viewer: Option<Id>, dashboard: bool): (r: PublicPost)
    ensures r.id == p.row.id && r.content == p.row.content
    ensures r.emotion == p.row.emotion && r.category == p.row.category
    ensures r.isAnonymous == p.row.isAnonymous && r.createdAt == p.row.createdAt
    ensures r.author == p.author
    ensures r.isMine <==> IsMine(viewer, p.row.authorId)
    ensures |r.comments| == |p.comments|
    ensures forall k :: 0 <= k < |r.comments| ==> r.comments[k] == ProjectComment(p.comments[k], viewer, dashboard)
  {
    PublicPost(p.row.id, p.row.content, p.row.emotion, p.row.category, p.row.isAnonymous,
               p.row.createdAt, p.author, MapSeq(p.comments, CommentShownTo(viewer, dashboard)),
               IsMine(viewer, p.row.authorId))
  }

  /** The create handler's response copy of a post: the row without `authorId`. */
  function Unattributed(p: Post): (v: PostView)
    ensures v.id == p.id && v.content == p.content && v.emotion == p.emotion
    ensures v.category == p.category && v.isAnonymous == p.isAnonymous && v.createdAt == p.createdAt
  {
    PostView(p.id, p.content, p.emotion, p.category, p.isAnonymous, p.createdAt)
  }

  /** All that `viewer` may learn of an author id: that it is the viewer's
      own, or nothing. */
  function Blind(viewer: Option<Id>, authorId: Id): Id
  {
    if IsMine(viewer, authorId) then authorId else ""
  }

  /** Blinding an author id keeps whether it is the viewer's. */
  lemma BlindKeepsOwnership(viewer: Option<Id>, authorId: Id)
    requires WellFormedViewer(viewer)
    ensures IsMine(viewer, Blind(viewer, authorId)) == IsMine(viewer, authorId)
  {
  }

  function BlindPost(viewer: Option<Id>): Post -> Post
  {
    (p: Post) => p.(authorId := Blind(viewer, p.authorId))
  }

  function BlindComment(viewer: Option<Id>): Comment -> Comment
  {
    (c: Comment) => c.(authorId := Blind(viewer, c.authorId))
  }
}
