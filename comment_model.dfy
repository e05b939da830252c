/** The comment sub-document: three declared paths, two of them required and
    one defaulted to the time the comment is created. */
module CommentModel {
  import opened Schema

  /** A stored comment. Only the declared paths survive casting. */
  datatype Comment = Comment(content: string, createdBy: string, createdAt: Timestamp)

  /** The object handed to `comments.push`: it carries two keys the schema
      does not declare (`isHateSpeech`, `userIp`); the strict schema drops them. */
  datatype CommentInput = CommentInput(
    content: Option<string>,
    createdBy: Option<string>,
    isHateSpeech: bool,
    userIp: Option<string>)

  /** Every stored comment has passed validation. */
  predicate ValidComment(c: Comment) {
    |c.content| > 0 && |c.createdBy| > 0
  }

  /** Casting and validating a pushed object, as the parent's `save` does:
      `None` is a validation failure. `createdAt` takes its default, the
      current time `now`; undeclared keys play no part. */
  function CastComment(input: CommentInput, now: Timestamp): (r: Option<Comment>)
    ensures r.Some? <==> Required(input.content) && Required(input.createdBy)
    ensures r.Some? ==> ValidComment(r.value)
    ensures r.Some? ==> (r.value.content == input.content.value
                      && r.value.createdBy == input.createdBy.value
                      && r.value.createdAt == now)
  {
    if Required(input.content) && Required(input.createdBy) then
      Some(Comment(input.content.value, input.createdBy.value, now))
    else
      None
  }
}
