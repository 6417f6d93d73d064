/** createPost, toggleLike and addComment of
    backend/controllers/communityController.js over the community posts
    collection. The caller's identity is what each handler reads
    (`req.user?.userId` in createPost, `req.user._id` in the others). */
module CommunityController {
  import opened Common
  import opened Collections

  type Id = nat

  datatype Comment = Comment(userId: Option<Id>, comment: string)

  datatype Post = Post(id: Id, userId: Option<Id>, title: string, content: string, images: seq<string>,
                       likes: seq<Option<Id>>, comments: seq<Comment>)

  function PostIndex(posts: seq<Post>, postId: Id): Option<nat>
  {
    FirstIndex(posts, (p: Post) => p.id == postId)
  }

  /** The like count the handler returns equals the length of the toggled
      list: one more when the user had not liked, fewer by the number of the
      user's entries when they had. */
  lemma LikeCount(likes: seq<Option<Id>>, user: Option<Id>)
    ensures user !in likes ==> |Toggle(likes, user)| == |likes| + 1
    ensures user in likes && NoDuplicates(likes) ==> |Toggle(likes, user)| == |likes| - 1
  {
    if user in likes && NoDuplicates(likes) {
      FilterRemovesOne(likes, user);
    }
  }

  /** Two toggles by the same user restore who has liked the post, and on a
      duplicate-free list its length too. */
  lemma DoubleToggleRestores(likes: seq<Option<Id>>, user: Option<Id>)
    requires NoDuplicates(likes)
    ensures forall u :: u in Toggle(Toggle(likes, user), user) <==> u in likes
    ensures |Toggle(Toggle(likes, user), user)| == |likes|
  {
    ToggleTwice(likes, user);
    ToggleTwiceNoDuplicates(likes, user);
  }

  class PostStore {
    var posts: seq<Post>
    var nextId: Id

    constructor ()
      ensures posts == [] && nextId == 0
    {
      posts, nextId := [], 0;
    }

    /** createPost: the schema requires userId, so a request without an
        identity fails on save and is answered with 500, nothing stored;
        otherwise title, content and images are stored as given, with no
        likes and no comments. */
    method CreatePost(userId: Option<Id>, title: string, content: string, images: seq<string>)
      returns (status: int, post: Option<Post>)
      modifies this
      ensures status == 201 <==> userId.Some?
      ensures userId.None? ==> status == 500 && post.None? && posts == old(posts) && nextId == old(nextId)
      ensures userId.Some? ==>
        && post == Some(Post(old(nextId), userId, title, content, images, [], []))
        && posts == old(posts) + [post.value] && nextId == old(nextId) + 1
    {
      if userId.None? {
        return 500, None;
      }
      var created := Post(nextId, userId, title, content, images, [], []);
      posts := posts + [created];
      nextId := nextId + 1;
      status, post := 201, Some(created);
    }

    /** toggleLike: 404 for a missing post; otherwise only that post's likes
        change, and the reply carries their new count. */
    method ToggleLike(postId: Id, userId: Option<Id>) returns (status: int, likeCount: int)
      modifies this
      ensures nextId == old(nextId)
      ensures PostIndex(old(posts), postId).None? ==> status == 404 && posts == old(posts)
      ensures PostIndex(old(posts), postId).Some? ==>
        var k := PostIndex(old(posts), postId).value;
        && status == 200
        && posts == old(posts)[k := old(posts)[k].(likes := Toggle(old(posts)[k].likes, userId))]
        && likeCount == |posts[k].likes|
    {
      var k := PostIndex(posts, postId);
      if k.None? {
        return 404, 0;
      }
      var post := posts[k.value];
      post := post.(likes := Toggle(post.likes, userId));
      posts := posts[k.value := post];
      status, likeCount := 200, |post.likes|;
    }

    /** addComment: 404 for a missing post; otherwise one comment is appended
        to that post and every earlier comment stays as it was. */
    method AddComment(postId: Id, userId: Option<Id>, comment: string) returns (status: int, comments: seq<Comment>)
      modifies this
      ensures nextId == old(nextId)
      ensures PostIndex(old(posts), postId).None? ==> status == 404 && posts == old(posts)
      ensures PostIndex(old(posts), postId).Some? ==>
        var k := PostIndex(old(posts), postId).value;
        && status == 200
        && posts == old(posts)[k := old(posts)[k].(comments := old(posts)[k].comments + [Comment(userId, comment)])]
        && comments == posts[k].comments
    {
      var k := PostIndex(posts, postId);
      if k.None? {
        return 404, [];
      }
      var post := posts[k.value];
      post := post.(comments := post.comments + [Comment(userId, comment)]);
      posts := posts[k.value := post];
      status, comments := 200, post.comments;
    }
  }
}
