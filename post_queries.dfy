/** The read side of the post collection: `find` with an equality filter,
    sorting newest first, lookup by id and the two counts of the statistics. */
module PostQueries {
  import opened Schema
  import opened CommentModel
  import opened PostModel

  /** The three query documents the handlers pass to `find`. */
  datatype Filter = MatchAll | IsHateSpeechIs(flag: bool) | CreatedByIs(userId: string)

  predicate Matches(p: Post, f: Filter) {
    match f
    case MatchAll => true
    case IsHateSpeechIs(b) => p.isHateSpeech == b
    case CreatedByIs(u) => p.createdBy == u
  }

  /** `find(filter)` in store order: exactly the matching posts. */
  function Find(posts: seq<Post>, f: Filter): (r: seq<Post>)
    ensures |r| <= |posts|
    ensures forall i :: 0 <= i < |r| ==> Matches(r[i], f)
    ensures forall q :: q in r <==> q in posts && Matches(q, f)
  {
    if posts == [] then []
    else (if Matches(posts[0], f) then [posts[0]] else []) + Find(posts[1..], f)
  }

  /** Each matching post appears in the result as often as it is stored. */
  lemma {:induction false} FindMultiplicity(posts: seq<Post>, f: Filter, q: Post)
    ensures multiset(Find(posts, f))[q] == if Matches(q, f) then multiset(posts)[q] else 0
  {
    if posts != [] {
      assert posts == [posts[0]] + posts[1..];
      FindMultiplicity(posts[1..], f, q);
    }
  }

  lemma {:induction false} FindAppend(a: seq<Post>, b: seq<Post>, f: Filter)
    ensures Find(a + b, f) == Find(a, f) + Find(b, f)
  {
    if a == [] {
      assert a + b == b;
    } else {
      assert (a + b)[0] == a[0];
      assert (a + b)[1..] == a[1..] + b;
      FindAppend(a[1..], b, f);
    }
  }

  lemma {:induction false} FindAll(posts: seq<Post>)
    ensures Find(posts, MatchAll) == posts
  {
    if posts != [] {
      FindAll(posts[1..]);
    }
  }

  /** Every post is either flagged or not, so the two filtered counts add up
      to the size of the collection. */
  lemma {:induction false} FlaggedAndCleanPartition(posts: seq<Post>)
    ensures |Find(posts, IsHateSpeechIs(true))| + |Find(posts, IsHateSpeechIs(false))| == |posts|
  {
    if posts != [] {
      FlaggedAndCleanPartition(posts[1..]);
    }
  }

  /** The `createdAt: -1` order. */
  predicate NewestFirst(s: seq<Post>) {
    forall i, j :: 0 <= i < j < |s| ==> s[i].createdAt >= s[j].createdAt
  }

  function InsertNewest(p: Post, s: seq<Post>): (r: seq<Post>)
    requires NewestFirst(s)
    ensures NewestFirst(r)
    ensures multiset(r) == multiset(s) + multiset{p}
    ensures |r| == |s| + 1 && (r[0] == p || (|s| > 0 && r[0] == s[0]))
  {
    if s == [] || p.createdAt >= s[0].createdAt then [p] + s
    else
      var rest := InsertNewest(p, s[1..]);
      assert s == [s[0]] + s[1..];
      assert rest[0].createdAt <= s[0].createdAt;
      [s[0]] + rest
  }

  /** Sorting by creation time, newest first. Posts with equal times keep
      their store order; the database promises no particular order for them. */
  function SortNewestFirst(s: seq<Post>): (r: seq<Post>)
    ensures NewestFirst(r)
    ensures multiset(r) == multiset(s)
  {
    if s == [] then []
    else
      assert s == [s[0]] + s[1..];
      InsertNewest(s[0], SortNewestFirst(s[1..]))
  }

  /** The public listing, `find({isHateSpeech: false}).sort({createdAt: -1})`:
      the unflagged posts, newest first. */
  function PublicListing(posts: seq<Post>): (r: seq<Post>)
    ensures NewestFirst(r)
    ensures multiset(r) == multiset(Find(posts, IsHateSpeechIs(false)))
  {
    SortNewestFirst(Find(posts, IsHateSpeechIs(false)))
  }

  /** The listing holds no flagged post and every unflagged post, each as
      often as it is stored. */
  lemma PublicListingContents(posts: seq<Post>, q: Post)
    ensures q in PublicListing(posts) <==> q in posts && !q.isHateSpeech
    ensures multiset(PublicListing(posts))[q] == if q.isHateSpeech then 0 else multiset(posts)[q]
  {
    FindMultiplicity(posts, IsHateSpeechIs(false), q);
    assert q in PublicListing(posts) <==> q in multiset(PublicListing(posts));
  }

  /** `find({createdBy: userId})`: the author's posts, flagged ones included. */
  function PostsByAuthor(posts: seq<Post>, userId: string): (r: seq<Post>)
    ensures forall q :: q in r <==> q in posts && q.createdBy == userId
    ensures forall q :: multiset(r)[q] == if q.createdBy == userId then multiset(posts)[q] else 0
  {
    var r := Find(posts, CreatedByIs(userId));
    forall q ensures multiset(r)[q] == if q.createdBy == userId then multiset(posts)[q] else 0 {
      FindMultiplicity(posts, CreatedByIs(userId), q);
    }
    r
  }

  /** Position of the post with the given id, searching from the start. */
  function IndexOfId(posts: seq<Post>, id: PostId): (r: Option<nat>)
    ensures r.Some? ==> r.value < |posts| && posts[r.value].id == id
    ensures r.Some? ==> forall i :: 0 <= i < r.value ==> posts[i].id != id
    ensures r.None? ==> forall i :: 0 <= i < |posts| ==> posts[i].id != id
  {
    if posts == [] then None
    else if posts[0].id == id then Some(0)
    else
      match IndexOfId(posts[1..], id)
      case Some(k) => Some(k + 1)
      case None => None
  }

  /** `findById(id)`: the post with that id, or `null`. */
  function FindById(posts: seq<Post>, id: PostId): (r: Option<Post>)
    ensures r.Some? ==> r.value in posts && r.value.id == id
    ensures r.None? <==> forall q :: q in posts ==> q.id != id
  {
    match IndexOfId(posts, id)
    case Some(k) => Some(posts[k])
    case None => None
  }

  /** No two stored posts share an id. */
  predicate UniqueIds(posts: seq<Post>) {
    forall i, j :: 0 <= i < j < |posts| ==> posts[i].id != posts[j].id
  }

  /** With unique ids, the post found is the only one carrying that id. */
  lemma FindByIdUnique(posts: seq<Post>, id: PostId, q: Post)
    requires UniqueIds(posts)
    requires q in posts && q.id == id
    ensures FindById(posts, id) == Some(q)
  {
  }

  /** The two counts of the statistics handler. */
  datatype Stats = Stats(totalPosts: nat, hateSpeechPosts: nat)

  /** `totalPosts` counts the whole collection, `hateSpeechPosts` the flagged
      posts; the flagged never outnumber the total, and the rest are exactly
      the posts of the public listing. */
  function PostStats(posts: seq<Post>): (r: Stats)
    ensures r.totalPosts == |posts|
    ensures r.hateSpeechPosts == |Find(posts, IsHateSpeechIs(true))|
    ensures r.hateSpeechPosts <= r.totalPosts
    ensures r.hateSpeechPosts + |PublicListing(posts)| == r.totalPosts
  {
    FindAll(posts);
    FlaggedAndCleanPartition(posts);
    assert |PublicListing(posts)| == |multiset(PublicListing(posts))|;
    Stats(|Find(posts, MatchAll)|, |Find(posts, IsHateSpeechIs(true))|)
  }

  /** Adding one post raises the total by one and the flagged count by one
      exactly when that post is flagged. */
  lemma {:induction false} StatsAfterInsert(posts: seq<Post>, p: Post)
    ensures PostStats(posts + [p]).totalPosts == PostStats(posts).totalPosts + 1
    ensures PostStats(posts + [p]).hateSpeechPosts
         == PostStats(posts).hateSpeechPosts + (if p.isHateSpeech then 1 else 0)
  {
    FindAppend(posts, [p], IsHateSpeechIs(true));
    assert [p][1..] == [];
    assert Find([p], IsHateSpeechIs(true)) == (if p.isHateSpeech then [p] else []) + Find([], IsHateSpeechIs(true));
  }

  /** A flagged post is never listed: adding one leaves the public listing's
      contents as they were. A clean post joins the listing. */
  lemma {:induction false} ListingAfterInsert(posts: seq<Post>, p: Post)
    ensures p.isHateSpeech ==> multiset(PublicListing(posts + [p])) == multiset(PublicListing(posts))
    ensures !p.isHateSpeech ==> multiset(PublicListing(posts + [p])) == multiset(PublicListing(posts)) + multiset{p}
  {
    FindAppend(posts, [p], IsHateSpeechIs(false));
    assert [p][1..] == [];
    var tail := Find([p], IsHateSpeechIs(false));
    assert tail == (if p.isHateSpeech then [] else [p]) + Find([], IsHateSpeechIs(false));
    var clean := Find(posts, IsHateSpeechIs(false));
    assert multiset(PublicListing(posts + [p])) == multiset(clean + tail) == multiset(clean) + multiset(tail);
  }

  /** Two collections whose posts agree, position by position, on the flag
      have the same number of flagged and of clean posts. */
  lemma {:induction false} SameFlagsSameCounts(a: seq<Post>, b: seq<Post>, flag: bool)
    requires |a| == |b|
    requires forall i :: 0 <= i < |a| ==> a[i].isHateSpeech == b[i].isHateSpeech
    ensures |Find(a, IsHateSpeechIs(flag))| == |Find(b, IsHateSpeechIs(flag))|
  {
    if a != [] {
      SameFlagsSameCounts(a[1..], b[1..], flag);
    }
  }

  /** Appending a comment to one post changes neither count of the statistics. */
  lemma {:induction false} CommentKeepsStats(posts: seq<Post>, k: nat, c: Comment)
    requires k < |posts|
    ensures PostStats(posts[k := AppendComment(posts[k], c)]) == PostStats(posts)
  {
    var updated := posts[k := AppendComment(posts[k], c)];
    SameFlagsSameCounts(posts, updated, true);
  }
}
