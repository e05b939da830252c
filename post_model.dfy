/** The post document: required, optional and defaulted paths, and the
    embedded list of comments. */
module PostModel {
  import opened Schema
  import opened CommentModel

  /** Stand-in for the document's `_id`, assigned when the document is built. */
  type PostId = nat

  /** A stored post. `imageUrl` is `None` when it is absent or `null`. */
  datatype Post = Post(
    id: PostId,
    content: string,
    imageUrl: Option<string>,
    createdBy: string,
    createdAt: Timestamp,
    userIp: string,
    isHateSpeech: bool,
    comments: seq<Comment>)

  /** The object handed to the model's constructor. */
  datatype PostInput = PostInput(
    content: Option<string>,
    createdBy: Option<string>,
    isHateSpeech: Option<bool>,
    userIp: Option<string>,
    imageUrl: Option<string>)

  /** Every stored post has passed validation, and so has each of its comments. */
  predicate ValidPost(p: Post) {
    |p.content| > 0 && |p.createdBy| > 0 && |p.userIp| > 0 &&
    forall i :: 0 <= i < |p.comments| ==> ValidComment(p.comments[i])
  }

  /** Building the document and validating it, as `new Model(...)` followed
      by `save` does: `None` is a validation failure. `content`, `createdBy`
      and `userIp` are required, `imageUrl` is optional, `isHateSpeech`
      defaults to false, `createdAt` to `now`, and `comments` starts empty. */
  function CastPost(input: PostInput, id: PostId, now: Timestamp): (r: Option<Post>)
    ensures r.Some? <==> Required(input.content) && Required(input.createdBy) && Required(input.userIp)
    ensures r.Some? ==> ValidPost(r.value)
    ensures r.Some? ==> (r.value.id == id
                      && r.value.content == input.content.value
                      && r.value.createdBy == input.createdBy.value
                      && r.value.userIp == input.userIp.value
                      && r.value.imageUrl == input.imageUrl
                      && r.value.isHateSpeech == (input.isHateSpeech == Some(true))
                      && r.value.createdAt == now
                      && r.value.comments == [])
  {
    if Required(input.content) && Required(input.createdBy) && Required(input.userIp) then
      Some(Post(id, input.content.value, input.imageUrl, input.createdBy.value, now,
                input.userIp.value, input.isHateSpeech.GetOr(false), []))
    else
      None
  }

  /** `post.comments.push(c)`: the comment goes at the end; earlier comments
      and every other path of the post stay as they were. */
  function AppendComment(p: Post, c: Comment): (r: Post)
    ensures |r.comments| == |p.comments| + 1
    ensures r.comments[..|p.comments|] == p.comments && r.comments[|p.comments|] == c
    ensures r.(comments := p.comments) == p
    ensures ValidPost(p) && ValidComment(c) ==> ValidPost(r)
  {
    p.(comments := p.comments + [c])
  }
}
