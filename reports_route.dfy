/** `app/api/reports/route.js`: reporting a post (POST). The checks run in a
    fixed order, each returning early: a verified caller (401), both fields
    present (400), the post exists (404), it is not the caller's own (400),
    the caller has not reported it before (409). Only then are the report
    and the author's notification inserted. */
module ReportsRoute {
  import opened Common
  import opened Auth
  import opened Database
  import opened Http

  const MissingInput := "Post ID and reason are required"
  const PostNotFound := "Post not found"
  const OwnPost := "Cannot report your own post"
  const AlreadyReported := "You have already reported this post"
  const ReportSubmitted := "Report submitted successfully"

  /** The notification the author receives: it names the post's category
      and is built from nothing else. */
  function FlagMessage(category: string): (m: string)
    ensures |m| > 13 + |category| && m[13..13 + |category|] == category
  {
    var prefix := "Your post in ";
    assert |prefix| == 13;
    prefix + category + " was flagged by the community for review."
  }

  /** The post a request names, if the `postId` is truthy and exists. */
  function Target(posts: seq<Post>, postId: Option<Id>): Option<Post>
  {
    if Given(postId) then PostById(posts, postId.value) else None
  }

  method Create(store: Store, jar: CookieJar, env: Env, postId: Option<Id>, reason: Option<string>)
    returns (r: Response)
    requires store.Valid()
    modifies store
    ensures store.Valid()
    ensures var s := Authenticate(jar.authToken, env.secret, env.now);
            var given := Given(postId) && Given(reason);
            var post := Target(old(store.posts), postId);
      && (r.status == 401 <==> !s.Caller?)
      && (r.status == 401 ==> r.body == Failure(Unauthorized))
      && (r == Response(400, Failure(MissingInput)) <==> s.Caller? && !given)
      && (r.status == 404 <==> s.Caller? && given && post.None?)
      && (r.status == 404 ==> r.body == Failure(PostNotFound))
      && (r == Response(400, Failure(OwnPost)) <==>
            s.Caller? && given && post.Some? && post.value.authorId == s.claims.userId)
      && (r.status == 409 <==>
            && s.Caller? && given && post.Some? && post.value.authorId != s.claims.userId
            && HasReported(old(store.reports), postId.value, s.claims.userId))
      && (r.status == 409 ==> r.body == Failure(AlreadyReported))
      && (r.status == 201 <==>
            && s.Caller? && given && post.Some? && post.value.authorId != s.claims.userId
            && !HasReported(old(store.reports), postId.value, s.claims.userId))
      && (r.status == 400 ==> r.body == Failure(MissingInput) || r.body == Failure(OwnPost))
      && (r.status in {400, 401, 404, 409} || r == Response(201, Done(ReportSubmitted)))
      && (r.status != 201 ==> unchanged(store))
      && (r.status == 201 ==>
            && |store.reports| == |old(store.reports)| + 1
            && store.reports[..|old(store.reports)|] == old(store.reports)
            && |store.notifications| == |old(store.notifications)| + 1
            && store.notifications[..|old(store.notifications)|] == old(store.notifications)
            && var report := store.reports[|old(store.reports)|];
               var note := store.notifications[|old(store.notifications)|];
               && report == Report(report.id, postId.value, s.claims.userId, reason.value, env.now)
               && note == Notification(note.id, post.value.authorId, FlagMessage(post.value.category),
                                       false, env.now)
               && note.userId != s.claims.userId
               && HasReported(store.reports, postId.value, s.claims.userId))
    ensures store.users == old(store.users) && store.posts == old(store.posts)
    ensures store.comments == old(store.comments)
  {
    var s := Authenticate(jar.authToken, env.secret, env.now);
    if !s.Caller? {
      return Response(401, Failure(Unauthorized));
    }
    if !(Given(postId) && Given(reason)) {
      return Response(400, Failure(MissingInput));
    }
    var found := PostById(store.posts, postId.value);
    if found.None? {
      return Response(404, Failure(PostNotFound));
    }
    var post := found.value;
    if post.authorId == s.claims.userId {
      return Response(400, Failure(OwnPost));
    }
    if HasReported(store.reports, postId.value, s.claims.userId) {
      return Response(409, Failure(AlreadyReported));
    }
    var report := store.CreateReport(postId.value, s.claims.userId, reason.value, env.now);
    assert store.reports[|old(store.reports)|] == report;
    var note := store.CreateNotification(post.authorId, FlagMessage(post.category), env.now);
    assert store.notifications[|old(store.notifications)|] == note;
    r := Response(201, Done(ReportSubmitted));
  }

  /** The same caller reporting the same post twice: once the first report
      is accepted, the second is refused as a duplicate and stores nothing. */
  method ReportTwice(store: Store, jar: CookieJar, env: Env, postId: Option<Id>,
                     reason: Option<string>, again: Option<string>)
    returns (first: Response, second: Response)
    requires store.Valid()
    modifies store
    ensures store.Valid()
    ensures first.status == 201 && Given(again) ==> second == Response(409, Failure(AlreadyReported))
    ensures first.status == 201 ==> |store.reports| == |old(store.reports)| + 1
  {
    first := Create(store, jar, env, postId, reason);
    second := Create(store, jar, env, postId, again);
  }
}
