/**
 Sequences of requests against a store, and what the handlers' contracts let
 a caller conclude about them.
 */
module Scenarios {
  import opened Posts

  /**
   Whoever the user, a second like in succession is refused and the user is
   listed once; the first succeeds exactly when the user had not liked yet.
   */
  method LikeTwice(store: Store, user: Principal, id: PostId) returns (first: Result<Post>, second: Result<Post>)
    requires store.Valid() && id in store.posts
    modifies store
    ensures store.Valid()
    ensures second == Err(AlreadyLiked)
    ensures first.Ok? <==> user.id !in old(store.posts[id].likes)
    ensures id in store.posts && user.id in store.posts[id].likes
    ensures first.Ok? ==> store.posts[id].likes == [user.id] + old(store.posts[id].likes)
    ensures !first.Ok? ==> store.posts == old(store.posts)
    ensures forall i, j :: 0 <= i < j < |store.posts[id].likes| ==> store.posts[id].likes[i] != store.posts[id].likes[j]
  {
    first := store.Like(user, id);
    second := store.Like(user, id);
  }

  /** Liking and then (with the intended guard) unliking leaves the store as it was. */
  method LikeThenUnlike(store: Store, user: Principal, id: PostId) returns (liked: Result<Post>, unliked: Result<Post>)
    requires store.Valid() && id in store.posts && user.id !in store.posts[id].likes
    modifies store
    ensures store.Valid()
    ensures liked.Ok? && unliked.Ok?
    ensures store.posts == old(store.posts)
  {
    ghost var before := store.posts;
    liked := store.Like(user, id);
    unliked := store.UnlikeIntended(user, id);
    UnlikeUndoesLike(before[id].likes, unliked.value.likes, user.id);
    assert store.posts[id] == before[id];
  }

  /** With the unlike route as written, a like once given can never be taken back. */
  method LikeThenUnlikeAsWritten(store: Store, user: Principal, id: PostId) returns (liked: Result<Post>, unliked: Result<Post>)
    requires store.Valid() && id in store.posts && user.id !in store.posts[id].likes
    modifies store
    ensures store.Valid()
    ensures liked.Ok? && unliked == Err(NotLiked)
    ensures id in store.posts && user.id in store.posts[id].likes
  {
    liked := store.Like(user, id);
    unliked := store.Unlike(user, id);
  }

  /** Comments come back newest first. */
  method CommentTwice(store: Store, validate: Validator, user: Principal, id: PostId,
                      body1: Payload, id1: CommentId, body2: Payload, id2: CommentId)
    returns (first: Result<Post>, second: Result<Post>)
    requires store.Valid() && id in store.posts
    requires validate(body1).isValid && validate(body2).isValid
    modifies store
    ensures store.Valid()
    ensures second.Ok?
    ensures id in store.posts && store.posts[id].comments ==
      [Comment(id2, body2.text, body2.name, body2.avatar, user.id),
       Comment(id1, body1.text, body1.name, body1.avatar, user.id)] + old(store.posts[id].comments)
  {
    first := store.AddComment(validate, user, id, body1, id1);
    second := store.AddComment(validate, user, id, body2, id2);
  }

  /**
   One post's life: Alice creates it and reads it back, Bob likes it twice, Carol comments,
   Bob fails to delete it, Alice deletes it and it is gone.
   */
  method Walkthrough(validate: Validator)
    returns (got: Option<Post>, liked: Result<Post>, likedAgain: Result<Post>, commented: Result<Post>,
             denied: Result<()>, deleted: Result<()>, fetched: Option<Post>)
    requires validate(Payload("hello", "Alice", "a.png")).isValid
    requires validate(Payload("nice", "Carol", "c.png")).isValid
    ensures got == Some(Post("p1", "u1", "hello", "Alice", "a.png", 1000, [], []))
    ensures liked.Ok? && liked.value.likes == ["u2"]
    ensures likedAgain == Err(AlreadyLiked)
    ensures commented.Ok? && commented.value.comments == [Comment("c1", "nice", "Carol", "c.png", "u3")]
    ensures commented.value.likes == ["u2"]
    ensures denied == Err(NotAuthorized)
    ensures deleted == Ok(())
    ensures fetched == None
  {
    var store := new Store();
    var alice, bob, carol := Principal("u1"), Principal("u2"), Principal("u3");
    var created := store.Create(validate, alice, Payload("hello", "Alice", "a.png"), "p1", 1000);
    got := store.Get("p1");
    liked := store.Like(bob, "p1");
    likedAgain := store.Like(bob, "p1");
    commented := store.AddComment(validate, carol, "p1", Payload("nice", "Carol", "c.png"), "c1");
    denied := store.Delete(bob, "p1");
    deleted := store.Delete(alice, "p1");
    fetched := store.Get("p1");
  }
}
