/**
 * The "my posts" page: the list of the signed-in user's posts and the two
 * handlers that write a server answer back into it. Each handler awaits
 * the request first; when the request throws, the list is never touched.
 * When it answers, exactly one field of every post with the given id is
 * replaced by the answer's value.
 */
module MyPosts {
  import opened Types

  datatype Author = Author(profilePic: string, username: string)

  /** A post as the backend lists it. `likes` holds the ids of the users who liked it. */
  datatype FeedPost = FeedPost(
    id: string,
    user: Author,
    text: string,
    image: Option<string>,
    likes: seq<string>,
    comments: seq<Comment>)

  /** The one field an answer replaces: `{ ...p, likes }` or `{ ...p, comments }`. */
  datatype Patch = SetLikes(likes: seq<string>) | SetComments(comments: seq<Comment>)

  /** The spread copy of `p` with the patched field replaced; every other field is kept. */
  function Apply(p: FeedPost, patch: Patch): (q: FeedPost)
    ensures q.id == p.id && q.user == p.user && q.text == p.text && q.image == p.image
    ensures patch.SetLikes? ==> q.likes == patch.likes && q.comments == p.comments
    ensures patch.SetComments? ==> q.comments == patch.comments && q.likes == p.likes
  {
    match patch
    case SetLikes(likes) => p.(likes := likes)
    case SetComments(comments) => p.(comments := comments)
  }

  /**
   * `prev.map(p => p._id === id ? patched : p)`: the same number of posts
   * in the same order; a post whose id differs is left as it was, and a
   * post whose id matches (every one of them) gets the patch.
   */
  function UpdateById(posts: seq<FeedPost>, id: string, patch: Patch): (r: seq<FeedPost>)
    ensures |r| == |posts|
    ensures forall i :: 0 <= i < |posts| && posts[i].id != id ==> r[i] == posts[i]
    ensures forall i :: 0 <= i < |posts| && posts[i].id == id ==> r[i] == Apply(posts[i], patch)
  {
    if posts == [] then []
    else [if posts[0].id == id then Apply(posts[0], patch) else posts[0]]
         + UpdateById(posts[1..], id, patch)
  }

  /** The ids of a list of posts, in order: what React keys the cards by. */
  function Ids(posts: seq<FeedPost>): seq<string>
  {
    seq(|posts|, i requires 0 <= i < |posts| => posts[i].id)
  }

  /** An update for an id that no post has leaves the list as it was. */
  lemma UpdateAbsentId(posts: seq<FeedPost>, id: string, patch: Patch)
    requires id !in Ids(posts)
    ensures UpdateById(posts, id, patch) == posts
  {
    var r := UpdateById(posts, id, patch);
    forall i | 0 <= i < |posts| ensures r[i] == posts[i] {
      assert Ids(posts)[i] == posts[i].id;
    }
  }

  /** An update keeps every post's id in place. */
  lemma UpdateKeepsIds(posts: seq<FeedPost>, id: string, patch: Patch)
    ensures Ids(UpdateById(posts, id, patch)) == Ids(posts)
  {
  }

  /**
   * A like answer and a comment answer touch different fields, so the page
   * ends the same whichever of the two resolves first.
   */
  lemma LikeAndCommentCommute(posts: seq<FeedPost>, likedId: string, likes: seq<string>,
                              commentedId: string, comments: seq<Comment>)
    ensures UpdateById(UpdateById(posts, likedId, SetLikes(likes)), commentedId, SetComments(comments))
         == UpdateById(UpdateById(posts, commentedId, SetComments(comments)), likedId, SetLikes(likes))
  {
  }

  /**
   * Two answers for the same field of the same post: whichever resolves
   * last decides, whatever the first one said.
   */
  lemma LastAnswerWins(posts: seq<FeedPost>, id: string, first: Patch, second: Patch)
    requires first.SetLikes? == second.SetLikes?
    ensures UpdateById(UpdateById(posts, id, first), id, second) == UpdateById(posts, id, second)
  {
  }

  /** The answer to `likePost`: the post's new list of likers. */
  datatype LikeAnswer = LikeAnswer(likes: seq<string>)

  /** The answer to `commentPost`: the commented post as the backend now has it. */
  datatype CommentAnswer = CommentAnswer(post: FeedPost)

  class MyPostsPage {
    var posts: seq<FeedPost>

    /** Before the first load the page shows no posts. */
    constructor ()
      ensures posts == []
    {
      posts := [];
    }

    /**
     * The mount-time load: `res.posts || []` when the request answers (an
     * absent `posts` field gives the empty list); an error is only logged.
     */
    method LoadPosts(res: Outcome<Option<seq<FeedPost>>>)
      modifies this
      ensures res.Resolved? && res.body.Some? ==> posts == res.body.value
      ensures res.Resolved? && res.body.None? ==> posts == []
      ensures res.Thrown? ==> posts == old(posts)
    {
      if res.Resolved? {
        posts := res.body.GetOr([]);
      }
    }

    /**
     * `handleLike`: after `likePost(id)` answers, every post with that id
     * takes the answer's likes; if it throws, the list stays as it was and
     * the returned promise rejects (`resolved` is false).
     */
    method HandleLike(id: string, res: Outcome<LikeAnswer>) returns (resolved: bool)
      modifies this
      ensures resolved == res.Resolved?
      ensures res.Thrown? ==> posts == old(posts)
      ensures res.Resolved? ==> posts == UpdateById(old(posts), id, SetLikes(res.body.likes))
    {
      if res.Thrown? {
        return false;
      }
      posts := UpdateById(posts, id, SetLikes(res.body.likes));
      resolved := true;
    }

    /**
     * `handleComment`: after `commentPost(id, text)` answers, every post
     * with that id takes the whole comment list of the answer's post; if it
     * throws, the list stays as it was. `text` only travels to the server.
     */
    method HandleComment(id: string, text: string, res: Outcome<CommentAnswer>) returns (resolved: bool)
      modifies this
      ensures resolved == res.Resolved?
      ensures res.Thrown? ==> posts == old(posts)
      ensures res.Resolved? ==> posts == UpdateById(old(posts), id, SetComments(res.body.post.comments))
    {
      if res.Thrown? {
        return false;
      }
      posts := UpdateById(posts, id, SetComments(res.body.post.comments));
      resolved := true;
    }
  }
}
