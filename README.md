# Social feed front-end: local state logic

This project models the state logic of a small social-feed front-end in
Dafny. The rendering and HTTP layers are left out. Three pieces are modelled:

- **The post card** (`Post` component, `post_card.dfy`) is a class. Its
  props become constant fields. Its local state is mutable fields: the likes
  shown, the comments shown, the comment-box text and whether the box is
  open. The `onLike` and `onComment` callback props become an outgoing-call
  log, which gets an entry only when the callback prop is present. The
  invariant `Valid()` ties the state to that log:
  - the likes shown grow by exactly the number of `onLike` calls;
  - the comments added locally are the `onComment` texts, one for one and in
    order, all non-blank, after the seed comments, which are kept unchanged.

  Each handler is a method whose postcondition gives its complete effect.
  `String.prototype.trim`, which the comment box uses, is modelled in
  `js_text.dfy` with the ECMAScript whitespace set.
- **The "my posts" page** (`my_posts.dfy`) has a pure function `UpdateById`
  for the `prev.map(p => p._id === id ? {...p, field} : p)` update. Lemmas
  about it say:
  - an id that no post has changes nothing;
  - ids and order are kept;
  - a like answer and a comment answer commute;
  - of two answers for the same field, the later one wins.

  The page itself is a class. Its load and its two handlers take the
  request's outcome (an answer or a thrown error) as a parameter.
- **The "liked posts" page** (`liked_posts.dfy`) has three parts:
  - `timeAgo` is a pure function of the elapsed milliseconds and returns a
    bucket (`LessThanHour`, `Hours(n)`, `Days(n)`). Its contract places the
    elapsed time exactly inside the bucket's interval.
  - The backend-to-entry mapping, with its falsy-value fallbacks, is a pure
    function.
  - The page is a class. Its invariant is that the selected entry is always
    one of the listed entries.

The code does not implement the intended optimistic-update behaviour (rollback, an in-flight guard, server reconciliation). This model follows the code:

- A failed like or comment request does not roll anything back. The card
  has already changed its local state, and the page's list is simply left
  as it was.
- The card has no in-flight guard. `alreadyLiked` is a prop that the card
  never changes, so every click on a likeable card raises the count and
  calls `onLike` again. `DoubleLikeClick` shows this for two clicks.
- Only the `likes` and `comments` props seed the card's state, once, through
  `useState`. A later change of those two props does not reach the local
  state, so the card never takes in the server's answer.

## Model

| member | source | states |
|---|---|---|
| `JsText.Trim` | src/components/Post.tsx:50 | `trim()` result: the slice of the input left after removing its leading and trailing whitespace and nothing else; no whitespace at either end |
| `JsText.TrimStart` | src/components/Post.tsx:50 | the longest suffix that does not start with whitespace; everything dropped is whitespace |
| `JsText.TrimEnd` | src/components/Post.tsx:50 | the longest prefix that does not end with whitespace; everything dropped is whitespace |
| `JsText.BlankIffTrimEmpty` | src/components/Post.tsx:50 | `!text.trim()` holds exactly when every character is whitespace (both directions) |
| `PostCard.Post.constructor` | src/components/Post.tsx:29-45 | likes and comments are copied from the props, and they are also the seeds `Valid()` measures against; `comments`, `isOwnPost` and `alreadyLiked` default to [], false and false; the box is empty and closed; no calls yet |
| `PostCard.Post.HandleLikeClick` | src/components/Post.tsx:59-63 | own or already-liked post: no state change and no call; otherwise the likes rise by exactly 1 and `onLike(id)` is logged once if the prop is present; the comments and the box are untouched; `Valid()` is kept |
| `PostCard.Post.SetCommentText` | src/components/Post.tsx:105-108 | the box holds exactly the typed value; nothing else changes |
| `PostCard.Post.HandleAddComment` | src/components/Post.tsx:49-57 | blank after trimming: no change and no call; otherwise exactly one comment (temporary id, untrimmed text) is appended after the unchanged earlier ones, the box is cleared, and `onComment(id, text before clearing)` is logged if the prop is present |
| `PostCard.Post.ToggleCommentInput` | src/components/Post.tsx:88-89 | the box's open flag flips; nothing else changes |
| `PostCard.Post.DisplayedCounts` | src/components/Post.tsx:96-97 | the counters shown are the local likes and the local comment list's length, never below the seed values |
| `PostCard.DoubleLikeClick` | src/components/Post.tsx:59-63 | two clicks on a likeable card with no answer in between raise the count by 2 and make two `onLike` calls |
| `PostCard.LikeCallsAppend` | src/components/Post.tsx:62 | the count of `onLike` calls in a log is additive over concatenation |
| `PostCard.CommentTextsAppend` | src/components/Post.tsx:56 | the `onComment` texts of a concatenated log are the concatenation of the texts |
| `MyPosts.Apply` | src/pages/MyPost.tsx:17-25 | the spread copy replaces only `likes` (or only `comments`); id, user, text, image and the other field are unchanged |
| `MyPosts.UpdateById` | src/pages/MyPost.tsx:16-18 | same length and order; a post with another id is identical; every post with the id gets the patch |
| `MyPosts.UpdateAbsentId` | src/pages/MyPost.tsx:16-18 | if no post has the id, the list is unchanged |
| `MyPosts.UpdateKeepsIds` | src/pages/MyPost.tsx:16-27 | the list of ids (the cards' keys) is unchanged by either update |
| `MyPosts.LikeAndCommentCommute` | src/pages/MyPost.tsx:14-28 | a like answer and a comment answer give the same list in either order of resolution |
| `MyPosts.LastAnswerWins` | src/pages/MyPost.tsx:14-28 | two answers for the same field of the same id: the later replaces the earlier entirely |
| `MyPosts.MyPostsPage.constructor` | src/pages/MyPost.tsx:6 | the page starts with no posts |
| `MyPosts.MyPostsPage.LoadPosts` | src/pages/MyPost.tsx:8-12 | an answer sets the list to `res.posts`, or to [] when that is missing; an error leaves it unchanged |
| `MyPosts.MyPostsPage.HandleLike` | src/pages/MyPost.tsx:14-19 | if `likePost` throws: list unchanged and the promise rejects; otherwise the list is the per-id `likes` replacement |
| `MyPosts.MyPostsPage.HandleComment` | src/pages/MyPost.tsx:21-28 | if `commentPost` throws: list unchanged and the promise rejects; otherwise the list is the per-id replacement of the whole `comments` list |
| `LikedPosts.TimeAgo` | src/pages/LikedPosts.tsx:13-19 | "less than an hour" exactly when under 3600000 ms (negative differences included); an hours bucket n has 1 <= n < 24 and n hours <= diff < n+1 hours; a days bucket d has d >= 1 and d days <= diff < d+1 days |
| `LikedPosts.TimeAgoMonotone` | src/pages/LikedPosts.tsx:13-19 | a longer elapsed time never gets a label that reads as more recent |
| `LikedPosts.FormatPost` | src/pages/LikedPosts.tsx:43-52 | id, text and image are carried over; author and avatar fall back to "Unknown" and the fixed ui-avatars URL, so neither is empty; `likedAt` is `updatedAt` when truthy, else `createdAt` |
| `LikedPosts.FormatAll` | src/pages/LikedPosts.tsx:43-52 | exactly one entry per backend post, in the same order, each the formatting of its post |
| `LikedPosts.FormatAllAppend` | src/pages/LikedPosts.tsx:43-52 | formatting a concatenation is the concatenation of the formattings |
| `LikedPosts.FirstOrNull` | src/pages/LikedPosts.tsx:55 | `formatted[0]`, else null: nothing exactly for an empty list, otherwise the first entry |
| `LikedPosts.LikedPostsPage.constructor` | src/pages/LikedPosts.tsx:22-23 | the page starts with no entries and no selection |
| `LikedPosts.LikedPostsPage.FetchLikedPosts` | src/pages/LikedPosts.tsx:29-59 | an answer lists the formatted posts and selects the first or nothing; an error leaves both the list and the selection unchanged; the selection stays one of the entries |
| `LikedPosts.LikedPostsPage.SelectPost` | src/pages/LikedPosts.tsx:67-70 | clicking an entry selects it and changes nothing else |

## Left out

- The HTTP calls (`src/api/postApi.ts`, the axios call in `src/pages/LikedPosts.tsx`), the bearer-token lookup in `localStorage`, and the socket set-up (`src/utils/socket.ts`) are left out. A request's result is a parameter of the handler, either an answer or a thrown error. These requests do not check for a token themselves: a missing token is sent as `Bearer null`, the server refuses it, and the non-success status surfaces as `Thrown`.
- React scheduling, `useEffect`, and the interleaving of awaits are not modelled. Each handler runs as one step when its request settles. The `setPosts(prev => ...)` updater therefore applies to the list as it is at that step. `LikeAndCommentCommute` and `LastAnswerWins` say what different resolution orders give.
- `Date.now()` and date-string parsing are not modelled, and neither is the `NaN` that an undefined or invalid `likedAt` produces (the label then reads "NaN day(s) ago"). `TimeAgo` takes the elapsed milliseconds as an integer. The temporary comment id is a string parameter.
- `LikedPosts.TimeAgo`: the division is exact integer floor division. The source divides in IEEE doubles, which agree with it only while the elapsed time fits in 53 bits of precision.
- The number-to-text rendering of the labels is not modelled. `TimeAgo` returns the bucket and its number.
- Rendering is not modelled: markup, the greyed-out style of the like button, the highlighting of the selected entry, and the props that are only displayed (profile photo, user name, caption, post image, `isProfilePage`, `comments_count`, `onDelete`).
- The backend's `posts` field is assumed to be present when a liked-posts request answers. A missing field makes `.map` throw inside the `try`, which is the same as a thrown request (`Thrown`).
- Behaviour the code does not implement is not modelled: rollback on failure, the in-flight like guard, reconciling the card with the server's answer, delete confirmation, and the restore and deleted-posts views.
- Parent re-renders that change the card's other props are not modelled. `id`, `isOwnPost`, `alreadyLiked`, `onLike` and `onComment` are re-read on every render, but the model fixes them for the card's lifetime. Each handler's contract holds for the props at the time of the call. `Valid()`'s clause "a blocked card shows its seed likes" relies on the props being fixed: if a parent flipped `alreadyLiked` to true after a click, the card would show the raised count while blocked.
