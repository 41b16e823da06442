# devconnect posts: a verified model of the Post aggregate

The `api/posts` routes of devconnect keep a collection of posts. Each post has
an author, display fields, a creation date, the users who liked it and its
comments. The routes create and delete posts, like and unlike them, and add and
remove comments.

The like, unlike, add-comment and remove-comment handlers work the same way.
Each looks the post up and checks a guard. For like, unlike and remove-comment
the guard is written as `filter(...).length`; add-comment is guarded only by
the validator, which runs before the lookup. Each then changes the fetched
document in place, with `unshift` for likes and comments, or with
`map(...).indexOf` followed by `splice` to take one out, and saves it.

Create and delete are different. Create looks nothing up: it validates the
request body and saves a new document by the caller. Delete looks the post up,
checks that `post.user` is the caller, and removes the document. Get and list
only read.

This project models that logic in Dafny:

- `js.dfy` (module `Js`) gives the JavaScript built-ins the handlers use
  (`===`, `Array.prototype.filter`, `map`, `indexOf`, `splice(start, 1)`)
  their ECMAScript meaning on the inputs they receive.
- `posts.dfy` (module `Posts`) holds the data model, the guard and index
  expressions of the handlers as functions, and a class `Store` whose
  `posts: map<PostId, Post>` field the handler methods update. The methods for
  like, unlike and the comment routes fetch a copy of the post, change it and
  write it back. The invariant
  `Valid()` says every post is stored under its own id and that no user
  appears twice among a post's likes.
- `scenarios.dfy` (module `Scenarios`) holds client methods that chain
  requests: like twice, like then unlike, comment twice, and one post's whole
  life. They show what a caller can conclude from the handlers' contracts
  alone.

The authenticated user, the validator's verdict, new post and comment ids, and
the creation date are parameters. The validator is a function
`Payload -> Validation` that returns the field errors and a validity flag.

## Model

| member | source | states |
|---|---|---|
| Js.StrictEquals | routes/api/posts.js:69 | `===` between two strings compares their characters; a string never equals `undefined` |
| Js.Filter | routes/api/posts.js:69 | the filtered array holds exactly the input's elements that pass the test, and is no longer than the input; it is empty exactly when no element passes |
| Js.Map | routes/api/posts.js:95 | the mapped array has the same length, and position i holds f of the element at i |
| Js.IndexOf | routes/api/posts.js:95 | -1 exactly when the value is absent; otherwise the first position holding it |
| Js.Splice | routes/api/posts.js:98 | `splice(start, 1)` removes the element at `start`; a negative `start` counts from the end; a `start` before the start of the array removes the first element; a `start` past the end removes nothing; the length drops by one exactly when something is removed |
| Posts.Property | routes/api/posts.js:69-95 | reading `id` off the request's user gives that user's id (lines 69 and 95); reading `ide` (line 90) gives `undefined`; this takes `req.user` to be the user document that the JWT middleware attaches, which is not part of this model |
| Posts.LikeCount | routes/api/posts.js:69 | the like filter, reading `req.user.id`, is empty exactly when the user has not liked the post; reading `req.user.ide` (line 90), it is always empty |
| Posts.LikeIndex | routes/api/posts.js:95 | the index lookup finds the first like by the user, or -1 when there is none |
| Posts.CommentCount | routes/api/posts.js:170 | the comment filter is empty exactly when no comment has the given id |
| Posts.CommentIndex | routes/api/posts.js:175 | the index lookup finds the first comment with the given id, or -1 when there is none |
| Posts.Store.Get | routes/api/posts.js:33-37 | answers the stored post under that id, or None (the route's `null`) when there is none |
| Posts.Store.Latest | routes/api/posts.js:25 | picks a post whose date is at least every other candidate's date |
| Posts.Store.List | routes/api/posts.js:23-28 | lists every stored post exactly once, with dates in non-increasing order |
| Posts.Store.Create | routes/api/posts.js:112-129 | invalid input: the validator's errors, store unchanged; valid input: one new post by the principal with the payload's text, name and avatar, no likes and no comments; no other post changes |
| Posts.Store.Delete | routes/api/posts.js:43-58 | absent post: NotFound; another user's post: NotAuthorized; both leave the store unchanged; the author's own post: exactly that post is removed |
| Posts.Store.Like | routes/api/posts.js:64-80 | absent post: NotFound; principal already among the likes: AlreadyLiked; both leave the store unchanged; otherwise the principal is put in front of the likes, nothing else changes, and likes stay free of duplicates |
| Posts.Store.Unlike | routes/api/posts.js:85-105 | as written: absent post gives NotFound, every existing post gives NotLiked, and the store never changes |
| Posts.Store.UnlikeIntended | routes/api/posts.js:85-105 | with the guard reading `req.user.id`: absent post gives NotFound; a post the principal has not liked gives NotLiked, store unchanged; otherwise the principal's like is taken out, the other likes keep their order, the principal no longer appears, and nothing else changes |
| Posts.Store.AddComment | routes/api/posts.js:135-160 | validation comes first: invalid input returns its errors even for an absent post; then an absent post gives NotFound; both leave the store unchanged; otherwise a comment by the principal with the payload's text, name and avatar is put in front and nothing else changes |
| Posts.Store.RemoveComment | routes/api/posts.js:166-183 | absent post: NotFound; no comment with that id: CommentNotFound; both leave the store unchanged; otherwise exactly the first comment with that id is taken out, the others keep their order, the length drops by one, and the caller's identity plays no part |
| Posts.UnlikeGuardIgnoresLiker | routes/api/posts.js:90 | for a user who has liked the post, the guard as written still finds no like, while the guard reading `req.user.id` finds one |
| Posts.SpliceOutFirstLike | routes/api/posts.js:95-98 | splicing out the first like by a user takes out exactly that like and keeps the order of the rest |
| Posts.SpliceOutOnlyLike | routes/api/posts.js:95-98 | in likes without duplicates, splicing out a user's like leaves no like by that user and no duplicates |
| Posts.UnlikeUndoesLike | routes/api/posts.js:94-98 | taking the first like by a user out of likes that start with that user's like gives back the likes from before the like |
| Scenarios.LikeTwice | routes/api/posts.js:69-74 | for any user, a second like in succession is refused with AlreadyLiked and the user is listed exactly once; the first like succeeds exactly when the user had not liked, putting the user in front, and otherwise changes nothing |
| Scenarios.LikeThenUnlike | routes/api/posts.js:64-105 | like followed by the intended unlike leaves the whole store as it was |
| Scenarios.LikeThenUnlikeAsWritten | routes/api/posts.js:90-92 | with the unlike route as written, a like is refused removal with NotLiked and stays in place |
| Scenarios.CommentTwice | routes/api/posts.js:146-154 | two comments added in turn appear newest first, in front of the earlier comments |
| Scenarios.Walkthrough | routes/api/posts.js:43-160 | create, get, like, like again, comment, delete by a non-author, delete by the author, then get: the answers are the new post with no likes or comments, the liked post, AlreadyLiked, the commented post, NotAuthorized, success and None |

## Findings

| source | as written | input that shows it | evidently intended | confidence | as-written member | corrected member |
|---|---|---|---|---|---|---|
| routes/api/posts.js:90 | the unlike guard compares each like with `req.user.ide`, which is `undefined`, so it never finds a like and the removal at lines 94-101 is never reached | user `u1` likes a post (likes become `["u1"]`), then asks to unlike it: the answer is NotLiked and the like stays | compare with `req.user.id`, as the like guard (line 69) and the index lookup (line 95) do | high; not executed | Posts.Store.Unlike, Posts.UnlikeGuardIgnoresLiker | Posts.Store.UnlikeIntended |

## Left out

- HTTP wiring is not modelled: Express routing, the `passport` JWT middleware, status codes and JSON response bodies. The authenticated user is a method parameter.
- Database I/O is not modelled: Mongoose's asynchronous promise chains and the failure paths of `save()` and `remove()`. The store is an in-memory map that each handler updates in one step.
- The `Profile.findOne` lookups in delete, like and unlike are left out. Their result is never used. The handlers go on even when no profile exists.
- The `/test` route (line 17) is left out because it only sends a fixed message.
- The rules of `validatePostInput` are not modelled; the validation module is not part of this model. The validator is a function parameter.
- Schema defaults are inputs, because the Post model file is not part of this model. New post ids, comment ids and post dates are parameters; `Create` requires the new id to be unused.
- `Payload` holds three strings, so a request whose body lacks `text`, `name` or `avatar` (lines 122-124 and 147-149 then store `undefined`) is not modelled; whether such a body passes depends on the validator, whose rules are not part of this model.
- The default date of a comment and the `_id` of a like entry are not modelled. A like is represented by its user id alone.
- Ids are modelled as strings, standing for the `toString()` of database object ids.
- A malformed id, which makes the database raise a cast error, is not modelled separately. For the mutating routes it ends in the same NotFound as an absent post. `Get` answers None for any absent id; the route would answer 404 for a malformed one.
- The 404 answer of the list route when the database fails is not modelled.
- `List` fixes no order among posts with equal dates, because the database's order for ties is unspecified.
- Concurrency between requests is not modelled. The store is updated atomically.
- client/src/App.js is left out. It covers view rendering, browser storage, and token decoding through a library. It also covers a floating-point expiry check and a page redirect.
