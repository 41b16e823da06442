/**
 The Post aggregate of the `api/posts` routes: a store of posts, each with the
 users who liked it and its comments, and one method per route handler. The
 like, unlike, add-comment and remove-comment handlers look a post up, check a
 guard, change the fetched copy (`unshift` or `splice` on one of its arrays)
 and write the copy back. Create validates its input and stores a new post;
 delete checks that the caller wrote the post and removes it; get and list
 only read.
 */
module Posts {
  import opened Js

  type UserId = string
  type PostId = string
  type CommentId = string

  /** The authenticated user (`req.user`). */
  datatype Principal = Principal(id: UserId)

  /**
   `req.user[name]` for the two property names the routes read: `id` is the
   user's id; `ide` is not a property of the user document, so it reads
   `undefined`.
   */
  function Property(user: Principal, name: string): (v: JsValue)
    requires name == "id" || name == "ide"
    ensures name == "id" ==> v == JsString(user.id)
    ensures name == "ide" ==> v.JsUndefined?
  {
    if name == "id" then JsString(user.id) else JsUndefined
  }

  /** The request body a post or a comment is made from. */
  datatype Payload = Payload(text: string, name: string, avatar: string)

  /** What `validatePostInput` returns: field errors and whether there were none. */
  datatype Validation = Validation(errors: map<string, string>, isValid: bool)
  type Validator = Payload -> Validation

  datatype Comment = Comment(id: CommentId, text: string, name: string, avatar: string, user: UserId)

  datatype Post = Post(
    id: PostId,
    user: UserId,
    text: string,
    name: string,
    avatar: string,
    date: int,
    likes: seq<UserId>,       // most recent first
    comments: seq<Comment>)   // most recent first

  datatype Failure =
    | ValidationFailed(errors: map<string, string>)
    | NotFound
    | NotAuthorized
    | AlreadyLiked
    | NotLiked
    | CommentNotFound

  datatype Result<T> = Ok(value: T) | Err(failure: Failure)

  datatype Option<T> = None | Some(value: T)

  ghost predicate NoDuplicates<T>(s: seq<T>)
  {
    forall i, j :: 0 <= i < j < |s| ==> s[i] != s[j]
  }

  /** `like.user.toString()`: a like is represented by its user's id. */
  function LikeUser(like: UserId): UserId
  {
    like
  }

  /** `comment._id.toString()`. */
  function CommentKey(comment: Comment): CommentId
  {
    comment.id
  }

  /**
   `after` is `before` with its first element whose `key` is `x` taken out and
   everything else kept in order.
   */
  ghost predicate FirstRemoved<T, K>(before: seq<T>, after: seq<T>, key: T -> K, x: K)
  {
    exists k :: 0 <= k < |before| && key(before[k]) == x
                && (forall j :: 0 <= j < k ==> key(before[j]) != x)
                && after == before[..k] + before[k + 1..]
  }

  /**
   `likes.filter(like => like.user.toString() === req.user[field]).length`.
   Reading the `id` property counts the likes by `user`; reading `ide`
   compares every like with `undefined` and counts none.
   */
  function LikeCount(likes: seq<UserId>, user: Principal, field: string): (r: nat)
    requires field == "id" || field == "ide"
    ensures field == "id" ==> (r == 0 <==> user.id !in likes)
    ensures field == "ide" ==> r == 0
  {
    |Filter(likes, (l: UserId) => StrictEquals(JsString(l), Property(user, field)))|
  }

  /** `likes.map(like => like.user.toString()).indexOf(req.user.id)`. */
  function LikeIndex(likes: seq<UserId>, user: Principal): (r: int)
    ensures r == -1 <==> user.id !in likes
    ensures 0 <= r ==> r < |likes| && likes[r] == user.id && forall j :: 0 <= j < r ==> likes[j] != user.id
  {
    IndexOf(Map(likes, LikeUser), user.id)
  }

  /** `comments.filter(comment => comment._id.toString() === commentId).length`. */
  function CommentCount(comments: seq<Comment>, commentId: CommentId): (r: nat)
    ensures r == 0 <==> forall i :: 0 <= i < |comments| ==> comments[i].id != commentId
  {
    |Filter(comments, (c: Comment) => CommentKey(c) == commentId)|
  }

  /** `comments.map(comment => comment._id.toString()).indexOf(commentId)`. */
  function CommentIndex(comments: seq<Comment>, commentId: CommentId): (r: int)
    ensures r == -1 <==> forall i :: 0 <= i < |comments| ==> comments[i].id != commentId
    ensures 0 <= r ==> r < |comments| && comments[r].id == commentId
                       && forall j :: 0 <= j < r ==> comments[j].id != commentId
  {
    var ids := Map(comments, CommentKey);
    var k := IndexOf(ids, commentId);
    assert k == -1 ==> forall i :: 0 <= i < |comments| ==> ids[i] != commentId;
    k
  }

  /** The posts collection, keyed by post id. */
  class Store {
    var posts: map<PostId, Post>

    /** Every post is stored under its own id, and no user appears twice among its likes. */
    ghost predicate Valid()
      reads this
    {
      forall id :: id in posts ==> posts[id].id == id && NoDuplicates(posts[id].likes)
    }

    constructor ()
      ensures Valid() && posts == map[]
    {
      posts := map[];
    }

    /** GET api/posts/:id: an absent post is answered with `null` (None). */
    method Get(id: PostId) returns (r: Option<Post>)
      requires Valid()
      ensures r.Some? <==> id in posts
      ensures r.Some? ==> r.value == posts[id] && r.value.id == id
    {
      if id in posts {
        r := Some(posts[id]);
      } else {
        r := None;
      }
    }

    /** A stored post with the latest date among those whose ids are in `ids`. */
    method Latest(ids: set<PostId>) returns (best: PostId)
      requires ids != {} && ids <= posts.Keys
      ensures best in ids
      ensures forall id :: id in ids ==> posts[id].date <= posts[best].date
    {
      best :| best in ids;
      var rest := ids - {best};
      while rest != {}
        invariant rest <= ids && best in ids
        invariant forall id :: id in ids && id !in rest ==> posts[id].date <= posts[best].date
        decreases rest
      {
        var id :| id in rest;
        if posts[id].date > posts[best].date {
          best := id;
        }
        rest := rest - {id};
      }
    }

    /** GET api/posts: every stored post exactly once, by date descending. */
    method List() returns (r: seq<Post>)
      requires Valid()
      ensures forall i :: 0 <= i < |r| ==> r[i].id in posts && r[i] == posts[r[i].id]
      ensures forall id :: id in posts ==> posts[id] in r
      ensures forall i, j :: 0 <= i < j < |r| ==> r[i].id != r[j].id
      ensures forall i, j :: 0 <= i < j < |r| ==> r[i].date >= r[j].date
    {
      var remaining := posts.Keys;
      r := [];
      while remaining != {}
        invariant remaining <= posts.Keys
        invariant forall i :: 0 <= i < |r| ==> r[i].id in posts && r[i] == posts[r[i].id] && r[i].id !in remaining
        invariant forall id :: id in posts ==> id in remaining || posts[id] in r
        invariant forall i, j :: 0 <= i < j < |r| ==> r[i].id != r[j].id
        invariant forall i, j :: 0 <= i < j < |r| ==> r[i].date >= r[j].date
        invariant forall i, id :: 0 <= i < |r| && id in remaining ==> r[i].date >= posts[id].date
        decreases remaining
      {
        var top := Latest(remaining);
        r := r + [posts[top]];
        remaining := remaining - {top};
      }
    }

    /** POST api/posts: validate the body, then store a new post by `user`. */
    method Create(validate: Validator, user: Principal, body: Payload, newId: PostId, date: int)
      returns (r: Result<Post>)
      requires Valid()
      requires newId !in posts
      modifies this
      ensures Valid()
      ensures !validate(body).isValid ==>
        r == Err(ValidationFailed(validate(body).errors)) && posts == old(posts)
      ensures validate(body).isValid ==>
        && r == Ok(Post(newId, user.id, body.text, body.name, body.avatar, date, [], []))
        && posts == old(posts)[newId := r.value]
    {
      var v := validate(body);
      if !v.isValid {
        return Err(ValidationFailed(v.errors));
      }
      var post := Post(newId, user.id, body.text, body.name, body.avatar, date, [], []);
      posts := posts[newId := post];
      r := Ok(post);
    }

    /** DELETE api/posts/:id: only the author may remove a post. */
    method Delete(user: Principal, id: PostId) returns (r: Result<()>)
      requires Valid()
      modifies this
      ensures Valid()
      ensures id !in old(posts) ==> r == Err(NotFound) && posts == old(posts)
      ensures id in old(posts) && old(posts)[id].user != user.id ==>
        r == Err(NotAuthorized) && posts == old(posts)
      ensures id in old(posts) && old(posts)[id].user == user.id ==>
        r == Ok(()) && posts == old(posts) - {id}
    {
      if id !in posts {
        return Err(NotFound);
      }
      var post := posts[id];
      if post.user != user.id {
        return Err(NotAuthorized);
      }
      posts := posts - {id};
      r := Ok(());
    }

    /** POST api/posts/like/:id: put `user` at the front of the likes, once. */
    method Like(user: Principal, id: PostId) returns (r: Result<Post>)
      requires Valid()
      modifies this
      ensures Valid()
      ensures id !in old(posts) ==> r == Err(NotFound) && posts == old(posts)
      ensures id in old(posts) && user.id in old(posts)[id].likes ==>
        r == Err(AlreadyLiked) && posts == old(posts)
      ensures id in old(posts) && user.id !in old(posts)[id].likes ==>
        && r == Ok(old(posts)[id].(likes := [user.id] + old(posts)[id].likes))
        && posts == old(posts)[id := r.value]
    {
      if id !in posts {
        return Err(NotFound);
      }
      var post := posts[id];
      if LikeCount(post.likes, user, "id") > 0 {
        return Err(AlreadyLiked);
      }
      post := post.(likes := [user.id] + post.likes);
      posts := posts[id := post];
      r := Ok(post);
    }

    /**
     POST api/posts/unlike/:id as the route is written: its guard reads
     `req.user.ide`, a property the user does not have, so no like ever
     matches, every existing post is answered with NotLiked, and the store
     never changes.
     */
    method Unlike(user: Principal, id: PostId) returns (r: Result<Post>)
      requires Valid()
      modifies this
      ensures Valid()
      ensures id !in old(posts) ==> r == Err(NotFound)
      ensures id in old(posts) ==> r == Err(NotLiked)
      ensures posts == old(posts)
    {
      if id !in posts {
        return Err(NotFound);
      }
      var post := posts[id];
      if LikeCount(post.likes, user, "ide") == 0 {
        return Err(NotLiked);
      }
      // The rest of the route cannot be reached: no like is ever equal to `undefined`.
      var removeIndex := LikeIndex(post.likes, user);
      post := post.(likes := Splice(post.likes, removeIndex));
      // Here the route saves `post`; the write is left out because this point
      // is dead, and any checked statement here would rest on the contradiction.
      assert false;
    }

    /**
     The unlike route with its guard reading `req.user.id`, as the like route
     does. This is a deviation from the route as written (see Unlike).
     */
    method UnlikeIntended(user: Principal, id: PostId) returns (r: Result<Post>)
      requires Valid()
      modifies this
      ensures Valid()
      ensures id !in old(posts) ==> r == Err(NotFound) && posts == old(posts)
      ensures id in old(posts) && user.id !in old(posts)[id].likes ==>
        r == Err(NotLiked) && posts == old(posts)
      ensures id in old(posts) && user.id in old(posts)[id].likes ==>
        && r.Ok?
        && r.value == old(posts)[id].(likes := r.value.likes)
        && FirstRemoved(old(posts)[id].likes, r.value.likes, LikeUser, user.id)
        && user.id !in r.value.likes
        && posts == old(posts)[id := r.value]
    {
      if id !in posts {
        return Err(NotFound);
      }
      var post := posts[id];
      if LikeCount(post.likes, user, "id") == 0 {
        return Err(NotLiked);
      }
      var removeIndex := LikeIndex(post.likes, user);
      SpliceOutFirstLike(post.likes, removeIndex, user.id);
      SpliceOutOnlyLike(post.likes, removeIndex, user.id);
      post := post.(likes := Splice(post.likes, removeIndex));
      posts := posts[id := post];
      r := Ok(post);
    }

    /** POST api/posts/comment/:id: validate the body, then put the new comment first. */
    method AddComment(validate: Validator, user: Principal, id: PostId, body: Payload, commentId: CommentId)
      returns (r: Result<Post>)
      requires Valid()
      modifies this
      ensures Valid()
      ensures !validate(body).isValid ==>
        r == Err(ValidationFailed(validate(body).errors)) && posts == old(posts)
      ensures validate(body).isValid && id !in old(posts) ==>
        r == Err(NotFound) && posts == old(posts)
      ensures validate(body).isValid && id in old(posts) ==>
        && r == Ok(old(posts)[id].(comments :=
                     [Comment(commentId, body.text, body.name, body.avatar, user.id)] + old(posts)[id].comments))
        && posts == old(posts)[id := r.value]
    {
      var v := validate(body);
      if !v.isValid {
        return Err(ValidationFailed(v.errors));
      }
      if id !in posts {
        return Err(NotFound);
      }
      var post := posts[id];
      var newComment := Comment(commentId, body.text, body.name, body.avatar, user.id);
      post := post.(comments := [newComment] + post.comments);
      posts := posts[id := post];
      r := Ok(post);
    }

    /**
     DELETE api/posts/comment/:id/:comment_id: take out the first comment with
     that id. Any authenticated user may do so: `user` is not consulted.
     */
    method RemoveComment(user: Principal, id: PostId, commentId: CommentId) returns (r: Result<Post>)
      requires Valid()
      modifies this
      ensures Valid()
      ensures id !in old(posts) ==> r == Err(NotFound) && posts == old(posts)
      ensures id in old(posts) && (forall i :: 0 <= i < |old(posts)[id].comments| ==> old(posts)[id].comments[i].id != commentId) ==>
        r == Err(CommentNotFound) && posts == old(posts)
      ensures id in old(posts) && (exists i :: 0 <= i < |old(posts)[id].comments| && old(posts)[id].comments[i].id == commentId) ==>
        && r.Ok?
        && r.value == old(posts)[id].(comments := r.value.comments)
        && FirstRemoved(old(posts)[id].comments, r.value.comments, CommentKey, commentId)
        && |r.value.comments| == |old(posts)[id].comments| - 1
        && posts == old(posts)[id := r.value]
    {
      if id !in posts {
        return Err(NotFound);
      }
      var post := posts[id];
      if CommentCount(post.comments, commentId) == 0 {
        return Err(CommentNotFound);
      }
      var removeIndex := CommentIndex(post.comments, commentId);
      var before := post.comments;
      post := post.(comments := Splice(post.comments, removeIndex));
      assert FirstRemoved(before, post.comments, CommentKey, commentId);
      posts := posts[id := post];
      r := Ok(post);
    }
  }

  /**
   The guard of the unlike route as written rejects a user who has liked the
   post, where the guard it was evidently meant to be lets that user through.
   */
  lemma UnlikeGuardIgnoresLiker(likes: seq<UserId>, user: Principal)
    requires user.id in likes
    ensures LikeCount(likes, user, "ide") == 0
    ensures LikeCount(likes, user, "id") > 0
  {
  }

  /** Taking the first `x` out of a sequence that starts with `x` gives back the rest. */
  lemma UnlikeUndoesLike(likes: seq<UserId>, after: seq<UserId>, x: UserId)
    requires FirstRemoved([x] + likes, after, LikeUser, x)
    ensures after == likes
  {
    var before := [x] + likes;
    var k :| 0 <= k < |before| && LikeUser(before[k]) == x && (forall j :: 0 <= j < k ==> LikeUser(before[j]) != x)
             && after == before[..k] + before[k + 1..];
    assert LikeUser(before[0]) == x;
    assert k == 0;
  }

  /** Splicing out the first like by `x` takes out exactly that like and keeps the others in order. */
  lemma SpliceOutFirstLike(likes: seq<UserId>, k: int, x: UserId)
    requires 0 <= k < |likes| && likes[k] == x && forall j :: 0 <= j < k ==> likes[j] != x
    ensures FirstRemoved(likes, Splice(likes, k), LikeUser, x)
  {
    assert Splice(likes, k) == likes[..k] + likes[k + 1..];
  }

  /** In likes without duplicates, splicing out the like by `x` leaves no like by `x` and no duplicates. */
  lemma SpliceOutOnlyLike(likes: seq<UserId>, k: int, x: UserId)
    requires 0 <= k < |likes| && likes[k] == x
    requires NoDuplicates(likes)
    ensures x !in Splice(likes, k)
    ensures NoDuplicates(Splice(likes, k))
  {
    var after := Splice(likes, k);
    assert after == likes[..k] + likes[k + 1..];
  }
}
