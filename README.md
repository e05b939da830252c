# Moderated posts: a Dafny model of the post controller

The service takes short posts that can carry an image, plus comments on those posts. It sends each submission's text to an external hate-speech classifier. A post is always stored, with `isHateSpeech` set from the classifier's label. A flagged post is kept out of the public listing, and its author gets a rejection instead of the post. A comment is stored only when the classifier does not flag it.

This project models that behaviour over an in-memory collection of posts:

- `schema.dfy` (module `Schema`): optional values, results, timestamps, and the document mapper's `required` rule for strings. A required string must be present and non-empty.
- `comment_model.dfy` (module `CommentModel`): the comment sub-document and its validation.
- `post_model.dfy` (module `PostModel`): the post document, its defaults, its validation, and appending a comment.
- `image_upload.dfy` (module `ImageUpload`): hex encoding of the random bytes, the object key, the public URL, and the upload outcome.
- `post_queries.dfy` (module `PostQueries`): `find` with an equality filter, the newest-first sort, lookup by id, the statistics, and lemmas on how inserting a post or appending a comment affects them.
- `post_controller.dfy` (module `PostController`): the handlers. `PostStore` is a class holding `posts: seq<Post>` and the next id to hand out. `CreatePost` and `AddComment` are methods that change the store. The four query handlers are functions that read it. `ModerationExample` is a client that replays a clean post followed by a flagged one.

Every external collaborator becomes an input value:

- the multipart parser's error becomes `PostSubmission.multipartError`;
- the object store's answer becomes `StoreOutcome`;
- the classifier's reply becomes `Prediction` (`Predicted(probability, result)` or `PredictionFailed`);
- the database's answer to `save` becomes `SaveOutcome`;
- a `findById` that throws (an id that cannot be cast, or a database error) becomes `PostRef.LookupFailed(message)`;
- a failing `find` becomes `readFault`;
- `Date.now` becomes the `now` parameter;
- `crypto.randomBytes(16)` becomes the `rawBytes` parameter;
- the bucket and region environment variables become `S3Config`.

Document ids are natural numbers handed out by the store in increasing order. They stand in for the database's object ids, and the store's invariant says they are unique.

Three behaviours of the code are easy to misread, and the model keeps them as written:

- For a comment on a post that does not exist, the code still calls the classifier first. A "Hate Speech" label then gives the usual 200 rejection. Any other label makes the push on `null` throw, which is caught as 500 "Error calling prediction API". There is no "not found" answer (src/controllers/postController.js:171-205).
- A failed `save` in `createPost` also answers "Error calling prediction API", because the save sits inside the classifier's `try` (src/controllers/postController.js:68-111).
- An absent `content` never reaches the classifier. Appending it to the classifier's form throws a TypeError. The outer handler answers 500 with that error's message, and the store is unchanged (src/controllers/postController.js:62, 112-115, 175, 206-208). In `createPost` the image has already been uploaded by then.

## Model

| member | source | states |
|---|---|---|
| `CommentModel.CastComment` | src/models/postComment.js:3-16 | a pushed comment is valid exactly when `content` and `createdBy` are non-empty strings; the stored comment keeps those two, `createdAt` defaults to the append time, and the undeclared `isHateSpeech`/`userIp` keys do not reach it |
| `PostModel.CastPost` | src/models/postModel.js:5-31 | a new post validates exactly when `content`, `createdBy` and `userIp` are non-empty strings; then it keeps them and the optional `imageUrl`, `isHateSpeech` is false unless `true` was supplied, `createdAt` is the creation time, and `comments` is empty |
| `PostModel.AppendComment` | src/controllers/postController.js:194-200 | the comment goes on the end of the list, earlier comments and every other field of the post are unchanged, and a valid post stays valid |
| `ImageUpload.HexEncode` | src/controllers/postController.js:29-30 | the hex rendering has two characters per byte, all lowercase hex digits |
| `ImageUpload.HexRoundTrip` | src/controllers/postController.js:29-30 | decoding the hex rendering gives back the random bytes |
| `ImageUpload.HexEncodeInjective` | src/controllers/postController.js:29-30 | different random bytes give different hex strings |
| `ImageUpload.ImageKeyParts` | src/controllers/postController.js:29-30 | a key built from 16 bytes is 32 lowercase hex characters that decode to those bytes, followed by the original file name |
| `ImageUpload.ImageKeyInjective` | src/controllers/postController.js:29-30 | two keys are equal only if both their random bytes and their file names are equal |
| `ImageUpload.ImageUrl` | src/controllers/postController.js:42 | the URL starts with `https://`, begins with the whole `https://<bucket>.s3.<region>.amazonaws.com/` prefix, and the key follows right after it |
| `ImageUpload.ImageUrlInjective` | src/controllers/postController.js:42 | for one bucket and region, the URL determines the key |
| `ImageUpload.UploadImageToS3` | src/controllers/postController.js:28-43 | the upload succeeds exactly when the store does, and a failure carries the store's message; on success the URL is the bucket/region prefix, then 32 lowercase hex characters that decode back to the 16 random bytes, then the original file name |
| `PostController.ImageStage` | src/controllers/postController.js:54-58 | the stage fails exactly when a file is attached and its upload fails, with the upload's message; on success `imageUrl` is present exactly when a file was attached, and it then locates the object named from the random bytes and the file's name |
| `PostController.UserIp` | src/controllers/postController.js:78-79 | as JavaScript's or-operator gives it: the origin is one of the two values; it is truthy exactly when either is; it is the `x-forwarded-for` header whenever that is truthy (present and non-empty), and the socket's remote address otherwise |
| `PostQueries.Find` | src/controllers/postController.js:121-145 | `find` with a filter returns exactly the stored posts that match it, and never more posts than are stored |
| `PostQueries.FindMultiplicity` | src/controllers/postController.js:121 | each matching post appears in the result as often as it is stored, and a non-matching post never appears |
| `PostQueries.FindAppend` | src/controllers/postController.js:121-145 | filtering two collections one after the other gives the filter of the first followed by the filter of the second |
| `PostQueries.FindAll` | src/controllers/postController.js:143 | `find()` with no filter returns the whole collection |
| `PostQueries.FlaggedAndCleanPartition` | src/controllers/postController.js:143-145 | the number of flagged posts plus the number of clean posts is the size of the collection |
| `PostQueries.InsertNewest` | src/controllers/postController.js:121 | inserting into a list sorted newest first keeps it sorted, and adds exactly that one post |
| `PostQueries.SortNewestFirst` | src/controllers/postController.js:121 | the result is ordered by `createdAt`, non-increasing, and is a permutation of the input |
| `PostQueries.PublicListing` | src/controllers/postController.js:121 | the public listing is ordered newest first and is a permutation of the posts with `isHateSpeech = false` |
| `PostQueries.PublicListingContents` | src/controllers/postController.js:120-121 | a post is in the listing if and only if it is stored and not flagged, with the same number of copies as in the store |
| `PostQueries.PostsByAuthor` | src/controllers/postController.js:132 | a post is listed if and only if it is stored and its `createdBy` is the requested user id, flagged or not, and it appears as often as it is stored |
| `PostQueries.IndexOfId` | src/controllers/postController.js:158 | the index found holds the id, no earlier index holds it, and "none" means no stored post has the id |
| `PostQueries.FindById` | src/controllers/postController.js:158 | the post found is stored and has the id; null is returned if and only if no stored post has the id |
| `PostQueries.FindByIdUnique` | src/controllers/postController.js:158 | when ids are unique, the lookup returns the one stored post with that id |
| `PostQueries.PostStats` | src/controllers/postController.js:143-146 | `totalPosts` is the size of the collection; `hateSpeechPosts` is the number of flagged posts, so at most that; the two differ by exactly the length of the public listing |
| `PostQueries.StatsAfterInsert` | src/controllers/postController.js:143-146 | storing one post raises `totalPosts` by one, and raises `hateSpeechPosts` by one exactly when that post is flagged |
| `PostQueries.ListingAfterInsert` | src/controllers/postController.js:82-107 | storing a flagged post leaves the public listing's contents unchanged; storing a clean post adds exactly that post to it |
| `PostQueries.SameFlagsSameCounts` | src/controllers/postController.js:145 | collections that agree position by position on the flag have the same flagged and clean counts |
| `PostQueries.CommentKeepsStats` | src/controllers/postController.js:194-200 | appending a comment changes neither count of the statistics |
| `PostController.PostStore.Insert` | src/controllers/postController.js:90 | saving a validated post appends it under the next id and keeps the store's invariant |
| `PostController.PostStore.CreatePost` | src/controllers/postController.js:45-117 | a multipart error gives 500 "Error uploading image"; an upload failure gives 500 with its message; an absent `content` gives 500 with the form's TypeError message; a classifier failure, a failed validation or a failed save gives 500 "Error calling prediction API"; in all of these the store is unchanged. Otherwise exactly one post is appended, under the next id, with the submitted content, author, origin and image URL. It is flagged exactly when the label is "Hate Speech". A flagged post gets the 200 rejection with probability × 100; a clean one gets 201 with that same post. The store only ever grows at its end. |
| `PostController.PostStore.AddComment` | src/controllers/postController.js:168-210 | a failed lookup gives 500 with its message; an absent `content` gives 500 with the form's TypeError message; a classifier failure gives 500 "Error calling prediction API"; a "Hate Speech" label gives the 200 rejection even when the post is missing; a missing post, an invalid comment or a failed save gives 500 "Error calling prediction API"; in all of these the store is unchanged. Otherwise the comment is appended at the end of that post's comments, every other post is unchanged, and the answer is 201 with the updated post. For every post and every outcome, fields other than `comments` never change, and comments only grow at the end by at most one. |
| `PostController.PostStore.GetPosts` | src/controllers/postController.js:118-127 | 200 with the unflagged posts, newest first, as a permutation; a failed read gives 500 with its message |
| `PostController.PostStore.GetMyPost` | src/controllers/postController.js:129-138 | 200 with exactly the posts whose author is the requested user id, flagged ones included, each as often as it is stored; a failed read gives 500 with its message |
| `PostController.PostStore.PostStatics` | src/controllers/postController.js:140-151 | 200 with `totalPosts` equal to the size of the collection and `hateSpeechPosts` equal to the number of flagged posts, hence at most `totalPosts`; a failed read gives 500 with its message |
| `PostController.PostStore.GetPostDetail` | src/controllers/postController.js:155-164 | 200 with the post that has the id, or null if and only if there is none; a lookup that throws gives 500 with its message |

## Left out

- External I/O is not modelled. This covers the object store's `send`, the HTTP call to the classifier, the multipart parser and the database I/O. Their outcomes are parameters, and the model captures only their effect on the collection.
- The MIME type and the file's bytes are not modelled. They only travel to the object store, so the model's state never holds them.
- A failure of `crypto.randomBytes` is not modelled. The 16 bytes are a parameter.
- Unset bucket or region environment variables are not modelled. JavaScript would render them as the text "undefined" inside the URL.
- The "85%" in the code's comments is not modelled. The code applies no threshold, so the decision depends only on the label.
- A 2xx classifier reply without a string `result` (a body that is not JSON, or `{}`) leaves `result` undefined. It is modelled as `Predicted` with a label other than "Hate Speech", so the post is stored unflagged and answered 201. A non-numeric `probability`, which JavaScript turns into `NaN` and sends as `null`, is not modelled.
- The rejection's `probability * 100` is computed exactly on `real`. IEEE double rounding is not modelled.
- Concurrent requests are not modelled. The model runs calls one after another, so it says nothing about how interleaved `addComment` calls on one post combine.
- The TypeError raised by the form-data library for an absent `content` is modelled by one constant message, `TextFieldError`. The runtime's text differs between `undefined` and `null`, and the model uses the `undefined` text for both. An empty `content` does not throw; it fails validation at `save`.
- Request bodies whose fields are not strings (numbers, arrays) are not modelled. The document mapper would cast them.
- An absent `userId` query parameter in `getMyPost` is not modelled. The model takes `userId` as a string.
- `PostQueries.SortNewestFirst` puts posts with equal `createdAt` in store order. The database promises no order for ties, so the contracts state only the newest-first order and the permutation.
- `PostController.PostStore.GetMyPost` returns posts in store order. The contract, like the database, promises no order.
- The `_id` of each comment sub-document and the post's version key are not modelled. No handler reads them.
- Application bootstrap, routing, the error-handling middleware and logging are not modelled. The error handler is registered before the routes, so it never handles a route's error.
- Transport details beyond the response status and body are not modelled.
