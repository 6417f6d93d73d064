/** The community feed of frontend/src/pages/Community.tsx: the loaded
    posts, newest first, the new-post form with its image files, and the
    optimistic like and comment updates with their rollbacks. The server's
    replies are parameters of the methods that receive them. A missing
    `likes` or `comments` array is read as empty wherever the page reads
    it, so it is the empty sequence here; a missing `createdAt` is the
    epoch. */
module CommunityPage {
  import opened Common
  import opened Collections
  import opened Sorting

  datatype Comment = Comment(id: Option<string>, comment: string)

  datatype Post = Post(id: string, title: string, content: string, images: seq<string>,
                       likes: seq<string>, comments: seq<Comment>, createdAt: Option<int>)

  /** What createPost sends to the server. */
  datatype Payload = Payload(title: string, content: string, images: seq<string>)

  const MaxFiles: nat := 6

  function Created(p: Post): int
  {
    if p.createdAt.Some? then p.createdAt.value else 0
  }

  function NewestFirst(): (Post, Post) -> bool
  {
    ByKey((p: Post) => -Created(p))
  }

  /** The loaded list: a stable sort on the creation time, newest first. */
  function SortedPosts(posts: seq<Post>): (r: seq<Post>)
    ensures multiset(r) == multiset(posts)
    ensures forall i, j :: 0 <= i < j < |r| ==> Created(r[i]) >= Created(r[j])
  {
    ByKeyTotal(posts, (p: Post) => -Created(p));
    SortSorted(posts, NewestFirst());
    var r := Sort(posts, NewestFirst());
    assert forall i, j :: 0 <= i < j < |r| ==> NewestFirst()(r[i], r[j]);
    r
  }

  /** handleFiles: the chosen files are appended and only the first six
      kept. */
  function AddFiles<F>(files: seq<F>, chosen: seq<F>): (r: seq<F>)
    ensures |r| <= MaxFiles
    ensures |files| + |chosen| <= MaxFiles ==> r == files + chosen
    ensures |files| <= MaxFiles ==> |files| <= |r|
    ensures forall i :: 0 <= i < |r| ==> r[i] == (files + chosen)[i]
  {
    Take(files + chosen, MaxFiles)
  }

  /** removePreview's `filter((_, i) => i !== idx)`: an index outside the
      list removes nothing. */
  function DropIndex<T>(s: seq<T>, idx: int): (r: seq<T>)
    ensures 0 <= idx < |s| ==> |r| == |s| - 1
    ensures 0 <= idx < |s| ==> forall j :: 0 <= j < |r| ==> r[j] == s[if j < idx then j else j + 1]
    ensures !(0 <= idx < |s|) ==> r == s
  {
    if 0 <= idx < |s| then RemoveAt(s, idx) else s
  }

  /** createPost's guard: nothing is sent without a title, content or
      file. */
  predicate CanPost(title: string, content: string, fileCount: nat)
  {
    Trim(title) != "" || Trim(content) != "" || fileCount > 0
  }

  /** What createPost sends: nothing when the guard stops it, otherwise
      the trimmed title and content and the uploaded URLs when there are
      files. */
  function PostPayload(title: string, content: string, fileCount: nat, uploaded: seq<string>): (r: Option<Payload>)
    ensures r.None? <==> !CanPost(title, content, fileCount)
    ensures r.Some? ==> r.value.title == Trim(title) && r.value.content == Trim(content)
    ensures r.Some? ==> r.value.images == (if fileCount > 0 then uploaded else [])
    ensures r.Some? ==> r.value.title != "" || r.value.content != "" || fileCount > 0
  {
    if !CanPost(title, content, fileCount) then None
    else Some(Payload(Trim(title), Trim(content), if fileCount > 0 then uploaded else []))
  }

  /** The like toggle of every post with the id; the others are kept. */
  function ToggleLikes(posts: seq<Post>, postId: string, user: string): (r: seq<Post>)
    ensures |r| == |posts|
    ensures forall i :: 0 <= i < |posts| && posts[i].id != postId ==> r[i] == posts[i]
    ensures forall i :: 0 <= i < |posts| && posts[i].id == postId ==>
      r[i] == posts[i].(likes := Toggle(posts[i].likes, user))
  {
    seq(|posts|, i requires 0 <= i < |posts| =>
      if posts[i].id == postId then posts[i].(likes := Toggle(posts[i].likes, user)) else posts[i])
  }

  /** A failed like request applies the same toggle again, which gives
      every post back its set of likers, and its whole list when the user
      had not liked it. */
  lemma LikeRollback(posts: seq<Post>, postId: string, user: string)
    ensures var r := ToggleLikes(ToggleLikes(posts, postId, user), postId, user);
      && |r| == |posts|
      && (forall i :: 0 <= i < |posts| ==> r[i].id == posts[i].id && r[i].comments == posts[i].comments)
      && (forall i, u :: 0 <= i < |posts| ==> (u in r[i].likes <==> u in posts[i].likes))
      && (forall i :: 0 <= i < |posts| && user !in posts[i].likes ==> r[i] == posts[i])
  {
    var r := ToggleLikes(ToggleLikes(posts, postId, user), postId, user);
    forall i | 0 <= i < |posts| && posts[i].id == postId
      ensures forall u :: u in r[i].likes <==> u in posts[i].likes
      ensures user !in posts[i].likes ==> r[i] == posts[i]
    {
      ToggleTwice(posts[i].likes, user);
    }
  }

  function StartsWith(s: string, prefix: string): bool
  {
    |prefix| <= |s| && s[..|prefix|] == prefix
  }

  const TempPrefix: string := "tmp-"

  predicate IsTemp(c: Comment)
  {
    c.id.Some? && StartsWith(c.id.value, TempPrefix)
  }

  function NotTemp(): Comment -> bool
  {
    (c: Comment) => !IsTemp(c)
  }

  /** The optimistic comment appended to every post with the id. */
  function WithComment(posts: seq<Post>, postId: string, c: Comment): (r: seq<Post>)
    ensures |r| == |posts|
    ensures forall i :: 0 <= i < |posts| && posts[i].id != postId ==> r[i] == posts[i]
    ensures forall i :: 0 <= i < |posts| && posts[i].id == postId ==>
      r[i] == posts[i].(comments := posts[i].comments + [c])
  {
    seq(|posts|, i requires 0 <= i < |posts| =>
      if posts[i].id == postId then posts[i].(comments := posts[i].comments + [c]) else posts[i])
  }

  /** The server's list replaces the comments of every post with the id. */
  function WithComments(posts: seq<Post>, postId: string, cs: seq<Comment>): (r: seq<Post>)
    ensures |r| == |posts|
    ensures forall i :: 0 <= i < |posts| && posts[i].id != postId ==> r[i] == posts[i]
    ensures forall i :: 0 <= i < |posts| && posts[i].id == postId ==> r[i] == posts[i].(comments := cs)
  {
    seq(|posts|, i requires 0 <= i < |posts| => if posts[i].id == postId then posts[i].(comments := cs) else posts[i])
  }

  /** The rollback of a failed comment: the temporary comments of every
      post with the id are dropped. */
  function WithoutTemp(posts: seq<Post>, postId: string): (r: seq<Post>)
    ensures |r| == |posts|
    ensures forall i :: 0 <= i < |posts| && posts[i].id != postId ==> r[i] == posts[i]
    ensures forall i :: 0 <= i < |posts| && posts[i].id == postId ==>
      r[i] == posts[i].(comments := Filter(posts[i].comments, NotTemp()))
  {
    seq(|posts|, i requires 0 <= i < |posts| =>
      if posts[i].id == postId then posts[i].(comments := Filter(posts[i].comments, NotTemp())) else posts[i])
  }

  /** Adding a temporary comment and rolling it back leaves every post as
      it was, provided no earlier temporary comment is still pending on
      it. */
  lemma CommentRollback(posts: seq<Post>, postId: string, c: Comment)
    requires IsTemp(c)
    requires forall i, j :: 0 <= i < |posts| && posts[i].id == postId && 0 <= j < |posts[i].comments| ==>
      !IsTemp(posts[i].comments[j])
    ensures WithoutTemp(WithComment(posts, postId, c), postId) == posts
  {
    var r := WithoutTemp(WithComment(posts, postId, c), postId);
    forall i | 0 <= i < |posts| ensures r[i] == posts[i] {
      if posts[i].id == postId {
        var cs := posts[i].comments;
        FilterAppend(cs, [c], NotTemp());
        FilterAll(cs, NotTemp());
      }
    }
  }

  /** A post removed by id: deletePost. Every post with that id goes and the
      others stay, in their order. */
  function WithoutPost(posts: seq<Post>, postId: string): (r: seq<Post>)
    ensures forall i :: 0 <= i < |r| ==> r[i].id != postId
    ensures forall i :: 0 <= i < |posts| && posts[i].id != postId ==> posts[i] in r
    ensures IsSubsequence(r, posts)
  {
    FilterSubsequence(posts, (p: Post) => p.id != postId);
    Filter(posts, (p: Post) => p.id != postId)
  }

  /** A comment removed by id from every post with the post id: deleteComment. */
  function WithoutComment(posts: seq<Post>, postId: string, commentId: string): (r: seq<Post>)
    ensures |r| == |posts|
    ensures forall i :: 0 <= i < |posts| && posts[i].id != postId ==> r[i] == posts[i]
    ensures forall i :: 0 <= i < |posts| && posts[i].id == postId ==>
      r[i] == posts[i].(comments := Filter(posts[i].comments, (c: Comment) => c.id != Some(commentId)))
    ensures forall i, j :: 0 <= i < |posts| && posts[i].id == postId && 0 <= j < |r[i].comments| ==>
      r[i].comments[j].id != Some(commentId)
    ensures forall i, j :: 0 <= i < |posts| && 0 <= j < |posts[i].comments| && posts[i].comments[j].id != Some(commentId) ==>
      posts[i].comments[j] in r[i].comments
  {
    seq(|posts|, i requires 0 <= i < |posts| =>
      if posts[i].id == postId then posts[i].(comments := Filter(posts[i].comments, (c: Comment) => c.id != Some(commentId)))
      else posts[i])
  }

  class Page {
    var posts: seq<Post>
    var modalOpen: bool
    var title: string
    var content: string
    var files: seq<string>
    var previews: seq<string>
    var commentInputs: map<string, string>

    /** At most six files are ever held. */
    ghost predicate Valid()
      reads this
    {
      |files| <= MaxFiles
    }

    constructor ()
      ensures posts == [] && !modalOpen && title == "" && content == "" && files == [] && previews == []
      ensures commentInputs == map[]
      ensures Valid()
    {
      posts, modalOpen, title, content, files, previews, commentInputs := [], false, "", "", [], [], map[];
    }

    /** The fetch succeeded: its posts, newest first. */
    method Loaded(fetched: seq<Post>)
      modifies this
      ensures posts == SortedPosts(fetched)
      ensures files == old(files) && previews == old(previews) && commentInputs == old(commentInputs)
      ensures modalOpen == old(modalOpen) && title == old(title) && content == old(content)
    {
      posts := SortedPosts(fetched);
    }

    method OpenModal()
      modifies this
      ensures modalOpen && title == "" && content == "" && files == [] && previews == []
      ensures posts == old(posts) && commentInputs == old(commentInputs)
      ensures Valid()
    {
      modalOpen, title, content, files, previews := true, "", "", [], [];
    }

    method HandleFiles(chosen: seq<string>)
      requires Valid()
      modifies this
      ensures files == AddFiles(old(files), chosen)
      ensures posts == old(posts) && previews == old(previews) && commentInputs == old(commentInputs)
      ensures modalOpen == old(modalOpen) && title == old(title) && content == old(content)
      ensures Valid()
    {
      files := AddFiles(files, chosen);
    }

    /** The preview effect: one object URL per file. */
    method SetPreviews(urls: seq<string>)
      requires |urls| == |files|
      modifies this
      ensures previews == urls
      ensures posts == old(posts) && files == old(files) && commentInputs == old(commentInputs)
      ensures modalOpen == old(modalOpen) && title == old(title) && content == old(content)
    {
      previews := urls;
    }

    method RemovePreview(idx: int)
      requires Valid()
      modifies this
      ensures files == DropIndex(old(files), idx) && previews == DropIndex(old(previews), idx)
      ensures posts == old(posts) && commentInputs == old(commentInputs)
      ensures modalOpen == old(modalOpen) && title == old(title) && content == old(content)
      ensures Valid()
    {
      files := DropIndex(files, idx);
      previews := DropIndex(previews, idx);
    }

    /** createPost. `uploaded` is the upload's URL list, used only when
        there are files; `created` is the server's new post, None when a
        request fails. */
    method CreatePost(uploaded: seq<string>, created: Option<Post>) returns (sent: Option<Payload>)
      modifies this
      ensures sent == PostPayload(old(title), old(content), |old(files)|, uploaded)
      ensures posts == if sent.Some? && created.Some? then [created.value] + old(posts) else old(posts)
      ensures modalOpen == (old(modalOpen) && !(sent.Some? && created.Some?))
      ensures files == old(files) && previews == old(previews) && commentInputs == old(commentInputs)
      ensures title == old(title) && content == old(content)
    {
      sent := PostPayload(title, content, |files|, uploaded);
      if sent.Some? && created.Some? {
        Created(created.value);
      }
    }

    /** The server answered with the new post: it goes first and the modal
        closes. */
    method Created(p: Post)
      modifies this
      ensures posts == [p] + old(posts) && !modalOpen
      ensures files == old(files) && previews == old(previews) && commentInputs == old(commentInputs)
      ensures title == old(title) && content == old(content)
    {
      posts := [p] + posts;
      modalOpen := false;
    }

    /** The optimistic half of toggleLike. */
    method ToggleLike(postId: string, user: Option<string>)
      modifies this
      ensures posts == ToggleLikes(old(posts), postId, if user.Some? then user.value else "")
      ensures files == old(files) && previews == old(previews) && commentInputs == old(commentInputs)
      ensures modalOpen == old(modalOpen) && title == old(title) && content == old(content)
    {
      posts := ToggleLikes(posts, postId, if user.Some? then user.value else "");
    }

    /** The optimistic half of submitComment: blank text is ignored;
        otherwise a comment whose id starts with "tmp-" is appended and that
        post's input cleared. Returns the text to send. */
    method SubmitComment(postId: string, tmpSuffix: string) returns (sent: Option<string>)
      modifies this
      ensures var text := Trim(if postId in old(commentInputs) then old(commentInputs)[postId] else "");
        && (text == "" ==> sent.None? && posts == old(posts) && commentInputs == old(commentInputs))
        && (text != "" ==>
              && sent == Some(text)
              && posts == WithComment(old(posts), postId, Comment(Some(TempPrefix + tmpSuffix), text))
              && commentInputs == old(commentInputs)[postId := ""])
      ensures files == old(files) && previews == old(previews)
      ensures modalOpen == old(modalOpen) && title == old(title) && content == old(content)
    {
      var text := Trim(if postId in commentInputs then commentInputs[postId] else "");
      if text == "" {
        return None;
      }
      posts := WithComment(posts, postId, Comment(Some(TempPrefix + tmpSuffix), text));
      commentInputs := commentInputs[postId := ""];
      sent := Some(text);
    }

    /** The comment request's reply: the server's list on success, the
        temporary comments dropped on failure. */
    method CommentReply(postId: string, reply: Option<seq<Comment>>)
      modifies this
      ensures reply.Some? ==> posts == WithComments(old(posts), postId, reply.value)
      ensures reply.None? ==> posts == WithoutTemp(old(posts), postId)
      ensures files == old(files) && previews == old(previews) && commentInputs == old(commentInputs)
      ensures modalOpen == old(modalOpen) && title == old(title) && content == old(content)
    {
      if reply.Some? {
        posts := WithComments(posts, postId, reply.value);
      } else {
        posts := WithoutTemp(posts, postId);
      }
    }

    /** deletePost: only after confirmation and a successful request. */
    method DeletePost(postId: string, confirmed: bool, succeeded: bool)
      modifies this
      ensures confirmed && succeeded ==> posts == WithoutPost(old(posts), postId)
      ensures !(confirmed && succeeded) ==> posts == old(posts)
      ensures files == old(files) && previews == old(previews) && commentInputs == old(commentInputs)
      ensures modalOpen == old(modalOpen) && title == old(title) && content == old(content)
    {
      if confirmed && succeeded {
        posts := WithoutPost(posts, postId);
      }
    }

    method DeleteComment(postId: string, commentId: string, confirmed: bool, succeeded: bool)
      modifies this
      ensures confirmed && succeeded ==> posts == WithoutComment(old(posts), postId, commentId)
      ensures !(confirmed && succeeded) ==> posts == old(posts)
      ensures files == old(files) && previews == old(previews) && commentInputs == old(commentInputs)
      ensures modalOpen == old(modalOpen) && title == old(title) && content == old(content)
    {
      if confirmed && succeeded {
        posts := WithoutComment(posts, postId, commentId);
      }
    }
  }
}
