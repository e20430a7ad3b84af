/**
 * The `Post` card component: its local state (likes shown, comments shown,
 * the comment box text and whether the box is open) and the handlers that
 * change it. The `onLike` and `onComment` callback props become entries
 * appended to an outgoing-call log; a callback prop that is absent is
 * never called, so nothing is logged for it.
 */
module PostCard {
  import opened Types
  import opened JsText

  /** A call the card makes to its parent through a callback prop. */
  datatype Call = OnLike(postId: string) | OnComment(postId: string, text: string)

  /** The number of `onLike` calls in a log. */
  function LikeCalls(log: seq<Call>): (n: nat)
    ensures n <= |log|
    ensures n == 0 <==> forall k :: 0 <= k < |log| ==> !log[k].OnLike?
  {
    if log == [] then 0
    else (if log[0].OnLike? then 1 else 0) + LikeCalls(log[1..])
  }

  /** The texts passed to `onComment`, in call order. */
  function CommentTexts(log: seq<Call>): (texts: seq<string>)
    ensures |texts| <= |log|
    ensures texts == [] <==> forall k :: 0 <= k < |log| ==> !log[k].OnComment?
  {
    if log == [] then []
    else (if log[0].OnComment? then [log[0].text] else []) + CommentTexts(log[1..])
  }

  lemma {:induction false} LikeCallsAppend(a: seq<Call>, b: seq<Call>)
    ensures LikeCalls(a + b) == LikeCalls(a) + LikeCalls(b)
  {
    if a != [] {
      assert (a + b)[1..] == a[1..] + b;
      LikeCallsAppend(a[1..], b);
    } else {
      assert a + b == b;
    }
  }

  lemma {:induction false} CommentTextsAppend(a: seq<Call>, b: seq<Call>)
    ensures CommentTexts(a + b) == CommentTexts(a) + CommentTexts(b)
  {
    if a != [] {
      assert (a + b)[1..] == a[1..] + b;
      CommentTextsAppend(a[1..], b);
    } else {
      assert a + b == b;
    }
  }

  /** The texts of a list of comments, in order. */
  function Texts(cs: seq<Comment>): seq<string>
  {
    seq(|cs|, k requires 0 <= k < |cs| => cs[k].text)
  }

  /** Comments the card itself appended: a non-blank text and no server id. */
  ghost predicate AddedLocally(cs: seq<Comment>)
  {
    forall k :: 0 <= k < |cs| ==> !IsBlank(cs[k].text) && cs[k].serverId.None?
  }

  /** Appending a non-blank local comment keeps the seed prefix and extends the local tail by it. */
  lemma AppendLocalComment(seed: seq<Comment>, cs: seq<Comment>, c: Comment)
    requires seed <= cs && AddedLocally(cs[|seed|..])
    requires !IsBlank(c.text) && c.serverId.None?
    ensures seed <= cs + [c] && AddedLocally((cs + [c])[|seed|..])
    ensures Texts((cs + [c])[|seed|..]) == Texts(cs[|seed|..]) + [c.text]
  {
  }

  /** Logging one `onComment` call adds its text to the comment texts and no like. */
  lemma LogComment(log: seq<Call>, id: string, text: string)
    ensures LikeCalls(log + [OnComment(id, text)]) == LikeCalls(log)
    ensures CommentTexts(log + [OnComment(id, text)]) == CommentTexts(log) + [text]
  {
    LikeCallsAppend(log, [OnComment(id, text)]);
    CommentTextsAppend(log, [OnComment(id, text)]);
  }

  /** Logging one `onLike` call adds one like and no comment text. */
  lemma LogLike(log: seq<Call>, id: string)
    ensures LikeCalls(log + [OnLike(id)]) == LikeCalls(log) + 1
    ensures CommentTexts(log + [OnLike(id)]) == CommentTexts(log)
  {
    LikeCallsAppend(log, [OnLike(id)]);
    CommentTextsAppend(log, [OnLike(id)]);
  }

  class Post {
    // Props the handlers read, taken as fixed for the card's lifetime.
    const id: string
    const isOwnPost: bool
    const alreadyLiked: bool
    const hasOnLike: bool
    const hasOnComment: bool
    // The prop values that seeded the local state.
    ghost const initialLikes: int
    ghost const initialComments: seq<Comment>

    // Local state.
    var localLikes: int
    var localComments: seq<Comment>
    var commentText: string
    var showCommentInput: bool
    // Every callback call made so far.
    var calls: seq<Call>

    /** The like button is greyed out and its click ignored: the viewer's own post, or already liked. */
    predicate LikeBlocked()
    {
      isOwnPost || alreadyLiked
    }

    /**
     * The state is explained by the call log: every call names this post;
     * the seed comments are kept as a prefix and everything after them was
     * added locally with a non-blank text and no server id; the likes shown
     * only ever grew, and grew by the number of `onLike` calls (when the
     * prop is present); the texts appended match the `onComment` calls one
     * for one (when the prop is present).
     */
    ghost predicate Valid()
      reads this
    {
      (forall k :: 0 <= k < |calls| ==> calls[k].postId == id) &&
      initialComments <= localComments &&
      AddedLocally(localComments[|initialComments|..]) &&
      CommentTexts(calls) == (if hasOnComment then Texts(localComments[|initialComments|..]) else []) &&
      localLikes >= initialLikes &&
      LikeCalls(calls) == (if hasOnLike then localLikes - initialLikes else 0) &&
      (LikeBlocked() ==> localLikes == initialLikes)
    }

    /**
     * Mounting the card: `comments`, `isOwnPost` and `alreadyLiked` fall
     * back to [], false and false when the prop is undefined; the like count
     * and the comments are copied from the props; the box is empty and closed.
     */
    constructor (id: string, likes: int, comments: Option<seq<Comment>>,
                 isOwnPost: Option<bool>, alreadyLiked: Option<bool>,
                 hasOnLike: bool, hasOnComment: bool)
      ensures Valid()
      ensures this.id == id && this.hasOnLike == hasOnLike && this.hasOnComment == hasOnComment
      ensures this.isOwnPost == (isOwnPost.Some? && isOwnPost.value)
      ensures this.alreadyLiked == (alreadyLiked.Some? && alreadyLiked.value)
      ensures localLikes == likes && initialLikes == likes
      ensures initialComments == localComments
      ensures comments.None? ==> localComments == []
      ensures comments.Some? ==> localComments == comments.value
      ensures commentText == "" && !showCommentInput && calls == []
    {
      this.id := id;
      this.isOwnPost := isOwnPost.GetOr(false);
      this.alreadyLiked := alreadyLiked.GetOr(false);
      this.hasOnLike := hasOnLike;
      this.hasOnComment := hasOnComment;
      initialLikes := likes;
      initialComments := comments.GetOr([]);
      localLikes := likes;
      localComments := comments.GetOr([]);
      commentText := "";
      showCommentInput := false;
      calls := [];
    }

    /**
     * `handleLikeClick`: on the viewer's own post or an already liked one
     * nothing happens; otherwise the count goes up by exactly one and
     * `onLike(id)` is called once, if the prop is present. Nothing guards
     * against a second click before the first request has answered.
     */
    method HandleLikeClick()
      requires Valid()
      modifies this
      ensures Valid()
      ensures LikeBlocked() ==> localLikes == old(localLikes) && calls == old(calls)
      ensures !LikeBlocked() ==> localLikes == old(localLikes) + 1
      ensures !LikeBlocked() && hasOnLike ==> calls == old(calls) + [OnLike(id)]
      ensures !hasOnLike ==> calls == old(calls)
      ensures localComments == old(localComments) && commentText == old(commentText)
      ensures showCommentInput == old(showCommentInput)
    {
      if isOwnPost || alreadyLiked {
        return;
      }
      localLikes := localLikes + 1;
      if hasOnLike {
        LogLike(calls, id);
        calls := calls + [OnLike(id)];
      }
    }

    /** The comment box's `onChange`: the box holds exactly what was typed. */
    method SetCommentText(text: string)
      requires Valid()
      modifies this
      ensures Valid()
      ensures commentText == text
      ensures localLikes == old(localLikes) && localComments == old(localComments)
      ensures showCommentInput == old(showCommentInput) && calls == old(calls)
    {
      commentText := text;
    }

    /**
     * `handleAddComment`: a box that is blank after trimming is ignored.
     * Otherwise one comment with the temporary id and the untrimmed text is
     * appended after all earlier comments, the box is cleared, and
     * `onComment(id, text)` receives the text as it was before clearing.
     */
    method HandleAddComment(tempId: string)
      requires Valid()
      modifies this
      ensures Valid()
      ensures IsBlank(old(commentText)) ==>
        localComments == old(localComments) && commentText == old(commentText) && calls == old(calls)
      ensures !IsBlank(old(commentText)) ==>
        localComments == old(localComments) + [Comment(None, Some(tempId), old(commentText))] &&
        commentText == ""
      ensures !IsBlank(old(commentText)) && hasOnComment ==>
        calls == old(calls) + [OnComment(id, old(commentText))]
      ensures !hasOnComment ==> calls == old(calls)
      ensures localLikes == old(localLikes) && showCommentInput == old(showCommentInput)
    {
      if IsBlank(commentText) {
        return;
      }
      var text := commentText;
      var added := Comment(None, Some(tempId), text);
      AppendLocalComment(initialComments, localComments, added);
      localComments := localComments + [added];
      commentText := "";
      if hasOnComment {
        LogComment(calls, id, text);
        calls := calls + [OnComment(id, text)];
      }
    }

    /** The speech-bubble button opens a closed box and closes an open one. */
    method ToggleCommentInput()
      requires Valid()
      modifies this
      ensures Valid()
      ensures showCommentInput == !old(showCommentInput)
      ensures localLikes == old(localLikes) && localComments == old(localComments)
      ensures commentText == old(commentText) && calls == old(calls)
    {
      showCommentInput := !showCommentInput;
    }

    /** The two counters the card displays. */
    method DisplayedCounts() returns (likes: int, comments: nat)
      requires Valid()
      ensures likes == localLikes && comments == |localComments|
      ensures likes >= initialLikes && comments >= |initialComments|
    {
      likes, comments := localLikes, |localComments|;
    }
  }

  /**
   * Two clicks on a card whose post is neither the viewer's nor marked as
   * liked, with no answer in between: both are accepted, the count rises by
   * two and `onLike` is called twice.
   */
  method DoubleLikeClick(id: string, likes: int) returns (shown: int, likeCalls: nat)
    ensures shown == likes + 2 && likeCalls == 2
  {
    var card := new Post(id, likes, None, None, None, true, true);
    card.HandleLikeClick();
    card.HandleLikeClick();
    shown := card.localLikes;
    likeCalls := LikeCalls(card.calls);
  }
}
