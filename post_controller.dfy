/** The request handlers of the post controller, over an in-memory post
    collection. The multipart parser, the object store, the classifier and
    the database's I/O are replaced by their outcomes, passed in as values. */
module PostController {
  import opened Schema
  import opened CommentModel
  import opened PostModel
  import opened ImageUpload
  import opened PostQueries

  /** The JSON bodies the handlers send. */
  datatype Body =
    | PostBody(post: Post)
    | RejectionBody(message: string, probability: real)
    | PostsBody(posts: seq<Post>)
    | DetailBody(found: Option<Post>)
    | StatsBody(stats: Stats)
    | ErrorBody(message: string)

  datatype Response = Response(status: nat, body: Body)

  const HateSpeechLabel: string := "Hate Speech"
  const RejectionMessage: string := "Error: Hate Speech Detected"
  const UploadError: Response := Response(500, ErrorBody("Error uploading image"))
  const PredictionError: Response := Response(500, ErrorBody("Error calling prediction API"))
  /** Appending an absent text field to the classifier's form throws a
      TypeError; this is the runtime's message for it. */
  const TextFieldError: string := "Cannot read properties of undefined (reading 'name')"

  /** The classifier's answer: its `{probability, result}` fields, or a call
      that throws (a network error, a non-2xx status, or a `null` body). */
  datatype Prediction = Predicted(probability: real, result: string) | PredictionFailed

  /** The database's answer to `save`, apart from schema validation. */
  datatype SaveOutcome = SaveOk | SaveFailed

  /** The two environment variables the upload reads. */
  datatype S3Config = S3Config(bucket: string, region: string)

  /** The request headers and socket address the origin is taken from. */
  datatype Origin = Origin(forwardedFor: Option<string>, remoteAddress: Option<string>)

  /** A create-post request as the handler sees it after multipart parsing. */
  datatype PostSubmission = PostSubmission(
    multipartError: bool,
    content: Option<string>,
    guestId: Option<string>,
    file: Option<UploadedFile>,
    origin: Origin)

  /** The `:id` route parameter: a post id to look up, or a lookup that throws
      (an id that does not cast, or a database error) with its message. */
  datatype PostRef = ById(id: PostId) | LookupFailed(message: string)

  /** An add-comment request. */
  datatype CommentSubmission = CommentSubmission(
    post: PostRef,
    content: Option<string>,
    guestId: Option<string>,
    origin: Origin)

  /** The moderation decision depends on the label alone, not on the probability. */
  predicate IsHateSpeech(result: string) {
    result == HateSpeechLabel
  }

  /** The rejection sent in place of a flagged submission: status 200, the
      fixed message, and the classifier's probability scaled to a percentage. */
  function Rejection(probability: real): Response {
    Response(200, RejectionBody(RejectionMessage, probability * 100.0))
  }

  /** `req.headers["x-forwarded-for"] || req.connection.remoteAddress`: one of
      the two, truthy when either is, and the header whenever it is truthy. */
  function UserIp(origin: Origin): (r: Option<string>)
    ensures r == origin.forwardedFor || r == origin.remoteAddress
    ensures Truthy(r) <==> Truthy(origin.forwardedFor) || Truthy(origin.remoteAddress)
    ensures Truthy(origin.forwardedFor) ==> r == origin.forwardedFor
    ensures !Truthy(origin.forwardedFor) ==> r == origin.remoteAddress
  {
    if Truthy(origin.forwardedFor) then origin.forwardedFor else origin.remoteAddress
  }

  /** The image step of post creation: no URL without a file, the upload's URL
      or its error message with one. */
  function ImageStage(file: Option<UploadedFile>, rawBytes: seq<byte>, config: S3Config,
                      store: StoreOutcome): (r: Result<Option<string>>)
    requires |rawBytes| == RandomKeyBytes
    ensures r.Success? <==> file.None? || store.Stored?
    ensures r.Failure? ==> r.message == store.message
    ensures r.Success? ==> (r.value.Some? <==> file.Some?)
    ensures r.Success? && r.value.Some? ==>
              LocatesImage(r.value.value, config.bucket, config.region, rawBytes, file.value.originalName)
  {
    match file
    case None => Success(None)
    case Some(f) =>
      match UploadImageToS3(f, rawBytes, config.bucket, config.region, store)
      case Success(url) => Success(Some(url))
      case Failure(m) => Failure(m)
  }

  /** The post collection together with the id the next post receives. */
  class PostStore {
    var posts: seq<Post>
    var nextId: PostId

    /** Every stored post passed validation, ids are unique, and every id is
        below the next one to be handed out. */
    ghost predicate Valid()
      reads this
    {
      UniqueIds(posts) &&
      forall i :: 0 <= i < |posts| ==> ValidPost(posts[i]) && posts[i].id < nextId
    }

    constructor ()
      ensures Valid() && posts == [] && nextId == 0
    {
      posts := [];
      nextId := 0;
    }

    /** Stores a validated post under the next id. */
    method Insert(p: Post)
      requires Valid() && ValidPost(p) && p.id == nextId
      modifies this
      ensures Valid()
      ensures posts == old(posts) + [p] && nextId == old(nextId) + 1
    {
      posts := posts + [p];
      nextId := nextId + 1;
    }

    /** `createPost`. A multipart error, a failed upload, an absent text
        field (building the classifier's form throws), a failed classifier
        call, a post that fails validation or a failed save leave the store as
        it was. Otherwise exactly one post is added, flagged exactly when the
        label is "Hate Speech"; a flagged post is answered with the
        rejection, a clean one with status 201 and the post itself. */
    method CreatePost(req: PostSubmission, config: S3Config, rawBytes: seq<byte>, store: StoreOutcome,
                      prediction: Prediction, save: SaveOutcome, now: Timestamp) returns (resp: Response)
      requires Valid()
      requires |rawBytes| == RandomKeyBytes
      modifies this
      ensures Valid()
      ensures req.multipartError ==> resp == UploadError && unchanged(this)
      ensures !req.multipartError && ImageStage(req.file, rawBytes, config, store).Failure? ==>
                resp == Response(500, ErrorBody(ImageStage(req.file, rawBytes, config, store).message)) &&
                unchanged(this)
      ensures !req.multipartError && ImageStage(req.file, rawBytes, config, store).Success? &&
              req.content.None? ==>
                resp == Response(500, ErrorBody(TextFieldError)) && unchanged(this)
      ensures !req.multipartError && ImageStage(req.file, rawBytes, config, store).Success? &&
              req.content.Some? && prediction.PredictionFailed? ==>
                resp == PredictionError && unchanged(this)
      ensures !req.multipartError && ImageStage(req.file, rawBytes, config, store).Success? &&
              req.content.Some? && prediction.Predicted? ==>
                var image := ImageStage(req.file, rawBytes, config, store).value;
                var flagged := IsHateSpeech(prediction.result);
                var doc := CastPost(PostInput(req.content, req.guestId, Some(flagged), UserIp(req.origin), image),
                                    old(nextId), now);
                if doc.None? || save.SaveFailed? then
                  resp == PredictionError && unchanged(this)
                else
                  posts == old(posts) + [doc.value] && nextId == old(nextId) + 1 &&
                  resp == if flagged then Rejection(prediction.probability) else Response(201, PostBody(doc.value))
      ensures old(posts) <= posts && |posts| <= |old(posts)| + 1
      ensures resp.status == 201 ==> resp.body.PostBody? && !resp.body.post.isHateSpeech &&
                                     posts == old(posts) + [resp.body.post]
    {
      if req.multipartError {
        return UploadError;
      }
      var image: Option<string> := None;
      if req.file.Some? {
        var uploaded := UploadImageToS3(req.file.value, rawBytes, config.bucket, config.region, store);
        if uploaded.Failure? {
          return Response(500, ErrorBody(uploaded.message));
        }
        image := Some(uploaded.value);
      }
      if req.content.None? {
        return Response(500, ErrorBody(TextFieldError));
      }
      if prediction.PredictionFailed? {
        return PredictionError;
      }
      var userIp := UserIp(req.origin);
      if IsHateSpeech(prediction.result) {
        var flaggedPost := CastPost(PostInput(req.content, req.guestId, Some(true), userIp, image), nextId, now);
        if flaggedPost.None? || save.SaveFailed? {
          return PredictionError;
        }
        Insert(flaggedPost.value);
        return Rejection(prediction.probability);
      }
      var newPost := CastPost(PostInput(req.content, req.guestId, Some(IsHateSpeech(prediction.result)), userIp, image),
                              nextId, now);
      if newPost.None? || save.SaveFailed? {
        return PredictionError;
      }
      Insert(newPost.value);
      resp := Response(201, PostBody(newPost.value));
    }

    /** `addComment`. A failed lookup answers 500 with its message, and so
        does an absent text field (building the classifier's form throws); a
        failed classifier call answers the generic prediction error; a "Hate Speech"
        label answers the rejection whether or not the post exists. Otherwise
        a missing post (the push on `null` throws), a comment that fails
        validation or a failed save answer the prediction error. In every one
        of these cases the store is unchanged. On success the comment is
        appended to the end of that post's comments, nothing else changes, and
        the answer is status 201 with the updated post. */
    method AddComment(req: CommentSubmission, prediction: Prediction, save: SaveOutcome, now: Timestamp)
      returns (resp: Response)
      requires Valid()
      modifies this
      ensures Valid() && nextId == old(nextId)
      ensures req.post.LookupFailed? ==> resp == Response(500, ErrorBody(req.post.message)) && posts == old(posts)
      ensures req.post.ById? && req.content.None? ==>
                resp == Response(500, ErrorBody(TextFieldError)) && posts == old(posts)
      ensures req.post.ById? && req.content.Some? && prediction.PredictionFailed? ==>
                resp == PredictionError && posts == old(posts)
      ensures req.post.ById? && req.content.Some? && prediction.Predicted? && IsHateSpeech(prediction.result) ==>
                resp == Rejection(prediction.probability) && posts == old(posts)
      ensures req.post.ById? && req.content.Some? && prediction.Predicted? && !IsHateSpeech(prediction.result) ==>
                var k := IndexOfId(old(posts), req.post.id);
                var c := CastComment(CommentInput(req.content, req.guestId, false, UserIp(req.origin)), now);
                if k.None? || c.None? || save.SaveFailed? then
                  resp == PredictionError && posts == old(posts)
                else
                  posts == old(posts)[k.value := AppendComment(old(posts)[k.value], c.value)] &&
                  resp == Response(201, PostBody(posts[k.value]))
      ensures |posts| == |old(posts)|
      ensures forall i :: 0 <= i < |posts| ==>
                posts[i].(comments := old(posts)[i].comments) == old(posts)[i] &&
                old(posts)[i].comments <= posts[i].comments &&
                |posts[i].comments| <= |old(posts)[i].comments| + 1
    {
      if req.post.LookupFailed? {
        return Response(500, ErrorBody(req.post.message));
      }
      var post := FindById(posts, req.post.id);
      if req.content.None? {
        return Response(500, ErrorBody(TextFieldError));
      }
      if prediction.PredictionFailed? {
        return PredictionError;
      }
      var userIp := UserIp(req.origin);
      if IsHateSpeech(prediction.result) {
        return Rejection(prediction.probability);
      }
      if post.None? {
        return PredictionError;
      }
      var comment := CastComment(CommentInput(req.content, req.guestId, IsHateSpeech(prediction.result), userIp), now);
      if comment.None? || save.SaveFailed? {
        return PredictionError;
      }
      var updated := AppendComment(post.value, comment.value);
      var k := IndexOfId(posts, req.post.id).value;
      posts := posts[k := updated];
      resp := Response(201, PostBody(updated));
    }

    /** `getPosts`: status 200 with the unflagged posts, newest first; a
        failed read answers 500 with its message. */
    function GetPosts(readFault: Option<string>): (r: Response)
      reads this
      ensures readFault.Some? ==> r == Response(500, ErrorBody(readFault.value))
      ensures readFault.None? ==> r.status == 200 && r.body.PostsBody? && NewestFirst(r.body.posts) &&
                                  multiset(r.body.posts) == multiset(Find(posts, IsHateSpeechIs(false)))
    {
      match readFault
      case Some(m) => Response(500, ErrorBody(m))
      case None => Response(200, PostsBody(PublicListing(posts)))
    }

    /** `getMyPost`: status 200 with every post of that author, flagged or not. */
    function GetMyPost(userId: string, readFault: Option<string>): (r: Response)
      reads this
      ensures readFault.Some? ==> r == Response(500, ErrorBody(readFault.value))
      ensures readFault.None? ==> r.status == 200 && r.body.PostsBody? &&
                                  (forall q :: q in r.body.posts <==> q in posts && q.createdBy == userId) &&
                                  (forall q :: multiset(r.body.posts)[q] ==
                                                 if q.createdBy == userId then multiset(posts)[q] else 0)
    {
      match readFault
      case Some(m) => Response(500, ErrorBody(m))
      case None => Response(200, PostsBody(PostsByAuthor(posts, userId)))
    }

    /** `postStatics`: status 200 with the two counts over the whole collection. */
    function PostStatics(readFault: Option<string>): (r: Response)
      reads this
      ensures readFault.Some? ==> r == Response(500, ErrorBody(readFault.value))
      ensures readFault.None? ==> r.status == 200 && r.body.StatsBody? &&
                                  r.body.stats.totalPosts == |posts| &&
                                  r.body.stats.hateSpeechPosts == |Find(posts, IsHateSpeechIs(true))| &&
                                  r.body.stats.hateSpeechPosts <= r.body.stats.totalPosts
    {
      match readFault
      case Some(m) => Response(500, ErrorBody(m))
      case None => Response(200, StatsBody(PostStats(posts)))
    }

    /** `getPostDetail`: status 200 with the post that has the id, or `null`;
        a lookup that throws answers 500 with its message. */
    function GetPostDetail(ref: PostRef): (r: Response)
      reads this
      ensures ref.LookupFailed? ==> r == Response(500, ErrorBody(ref.message))
      ensures ref.ById? ==> r.status == 200 && r.body.DetailBody? &&
                            (r.body.found.Some? ==> r.body.found.value in posts && r.body.found.value.id == ref.id) &&
                            (r.body.found.None? <==> forall q :: q in posts ==> q.id != ref.id)
    {
      match ref
      case LookupFailed(m) => Response(500, ErrorBody(m))
      case ById(id) => Response(200, DetailBody(FindById(posts, id)))
    }
  }

  /** A clean post and a flagged one, as a caller of the handlers sees them:
      the first is returned in full, the second is rejected with its
      probability as a percentage, both are counted, and only the first is
      listed. */
  method ModerationExample() {
    var store := new PostStore();
    var origin := Origin(None, Some("10.0.0.1"));
    var config := S3Config("memes", "ap-southeast-1");
    var rawBytes: seq<byte> := seq(RandomKeyBytes, i => 0);
    var r1 := store.CreatePost(PostSubmission(false, Some("hello"), Some("g1"), None, origin), config, rawBytes,
                               Stored, Predicted(0.1, "Not Hate Speech"), SaveOk, 1000);
    assert r1.status == 201 && store.posts == [r1.body.post];
    var r2 := store.CreatePost(PostSubmission(false, Some("attack text"), Some("g2"), None, origin), config, rawBytes,
                               Stored, Predicted(0.93, "Hate Speech"), SaveOk, 2000);
    assert r2 == Response(200, RejectionBody("Error: Hate Speech Detected", 93.0));
    var flagged := store.posts[1];
    assert flagged.isHateSpeech && flagged.createdBy == "g2";

    StatsAfterInsert([], r1.body.post);
    StatsAfterInsert([r1.body.post], flagged);
    assert [] + [r1.body.post] == [r1.body.post];
    var stats := store.PostStatics(None);
    assert stats.body.stats == Stats(2, 1);

    var listing := store.GetPosts(None);
    PublicListingContents(store.posts, flagged);
    PublicListingContents(store.posts, r1.body.post);
    assert listing.body.posts == PublicListing(store.posts);
    assert flagged !in listing.body.posts && r1.body.post in listing.body.posts;
  }
}
