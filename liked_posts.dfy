/**
 * The "liked posts" page: the relative-time label shown beside each entry,
 * the mapping from the backend's posts to the page's entries, and the two
 * state updates (after a fetch, and when an entry is clicked).
 */
module LikedPosts {
  import opened Types

  const MsPerHour: int := 1000 * 60 * 60
  const HoursPerDay: int := 24
  const MsPerDay: int := HoursPerDay * MsPerHour

  /** The three labels: "Less than 1 hour ago", "N hour(s) ago", "N day(s) ago". */
  datatype Age = LessThanHour | Hours(hours: int) | Days(days: int)

  /**
   * `timeAgo` applied to the milliseconds elapsed since the like. The
   * label is decided by whole elapsed hours, rounded down; any difference
   * under one hour, negative ones included, reads "less than an hour";
   * an hour bucket names the exact whole hours elapsed and a day bucket
   * the exact whole days elapsed, at least one.
   */
  function TimeAgo(diffMs: int): (a: Age)
    ensures a.LessThanHour? <==> diffMs < MsPerHour
    ensures a.Hours? ==>
      1 <= a.hours < HoursPerDay && a.hours * MsPerHour <= diffMs < (a.hours + 1) * MsPerHour
    ensures a.Days? ==>
      1 <= a.days && a.days * MsPerDay <= diffMs < (a.days + 1) * MsPerDay
  {
    // Math.floor(diffMs / 3600000); Dafny's `/` rounds down for a positive divisor.
    var hours := diffMs / MsPerHour;
    if hours < 1 then LessThanHour
    else if hours < HoursPerDay then Hours(hours)
    else Days(hours / HoursPerDay)
  }

  /** A label's position on the time line, in whole hours. */
  function ElapsedHours(a: Age): int
  {
    match a
    case LessThanHour => 0
    case Hours(h) => h
    case Days(d) => d * HoursPerDay
  }

  /** A longer elapsed time never gets a label that reads as more recent. */
  lemma TimeAgoMonotone(d1: int, d2: int)
    requires d1 <= d2
    ensures ElapsedHours(TimeAgo(d1)) <= ElapsedHours(TimeAgo(d2))
  {
  }

  datatype BackendUser = BackendUser(name: Option<string>, profilePic: Option<string>)

  /** A liked post as the backend lists it; `user` may be missing. */
  datatype BackendPost = BackendPost(
    id: string,
    user: Option<BackendUser>,
    text: string,
    image: Option<string>,
    updatedAt: Option<string>,
    createdAt: Option<string>)

  /** An entry of the page. `likedAt` stays undefined when both timestamps are. */
  datatype LikedPost = LikedPost(
    id: string,
    author: string,
    avatar: string,
    content: string,
    image: Option<string>,
    likedAt: Option<string>)

  const UnknownAuthor: string := "Unknown"
  const DefaultAvatar: string := "https://ui-avatars.com/api/?name=User"

  /**
   * `a || fallback` for an optional string and a string fallback: one of
   * the two, and never empty when the fallback is not.
   */
  function OrElse(a: Option<string>, fallback: string): (r: string)
    ensures r == fallback || (a.Some? && r == a.value)
    ensures fallback != "" ==> r != ""
  {
    if Truthy(a) then a.value else fallback
  }

  /** `post.user?.name`. */
  function UserName(p: BackendPost): Option<string>
  {
    if p.user.Some? then p.user.value.name else None
  }

  /** `post.user?.profilePic`. */
  function UserPic(p: BackendPost): Option<string>
  {
    if p.user.Some? then p.user.value.profilePic else None
  }

  /**
   * One backend post as an entry: id, text and image are carried over;
   * the author and avatar fall back to "Unknown" and the default avatar
   * when the user or the field is missing or empty, so neither is ever
   * empty; the like time is `updatedAt` unless that is missing or empty,
   * and then `createdAt`.
   */
  function FormatPost(p: BackendPost): (l: LikedPost)
    ensures l.id == p.id && l.content == p.text && l.image == p.image
    ensures l.author != "" && l.avatar != ""
    ensures Truthy(UserName(p)) ==> l.author == UserName(p).value
    ensures !Truthy(UserName(p)) ==> l.author == UnknownAuthor
    ensures Truthy(UserPic(p)) ==> l.avatar == UserPic(p).value
    ensures !Truthy(UserPic(p)) ==> l.avatar == DefaultAvatar
    ensures Truthy(p.updatedAt) ==> l.likedAt == p.updatedAt
    ensures !Truthy(p.updatedAt) ==> l.likedAt == p.createdAt
  {
    LikedPost(
      p.id,
      OrElse(UserName(p), UnknownAuthor),
      OrElse(UserPic(p), DefaultAvatar),
      p.text,
      p.image,
      if Truthy(p.updatedAt) then p.updatedAt else p.createdAt)
  }

  /**
   * `res.data.posts.map(...)`: exactly one entry per backend post, in the
   * backend's order, each entry the formatting of the post at its place.
   */
  function FormatAll(ps: seq<BackendPost>): (ls: seq<LikedPost>)
    ensures |ls| == |ps|
    ensures forall i :: 0 <= i < |ps| ==> ls[i] == FormatPost(ps[i])
  {
    if ps == [] then [] else [FormatPost(ps[0])] + FormatAll(ps[1..])
  }

  /** `formatted[0] || null`: the first entry, or nothing for an empty list. */
  function FirstOrNull(ls: seq<LikedPost>): (r: Option<LikedPost>)
    ensures r.None? <==> ls == []
    ensures r.Some? ==> r.value == ls[0] && r.value in ls
  {
    if ls == [] then None else Some(ls[0])
  }

  /** Formatting a batch is formatting its parts: the mapping works post by post. */
  lemma {:induction false} FormatAllAppend(a: seq<BackendPost>, b: seq<BackendPost>)
    ensures FormatAll(a + b) == FormatAll(a) + FormatAll(b)
  {
    if a == [] {
      assert a + b == b;
    } else {
      assert (a + b)[1..] == a[1..] + b;
      FormatAllAppend(a[1..], b);
    }
  }

  class LikedPostsPage {
    var likedPosts: seq<LikedPost>
    var selectedPost: Option<LikedPost>

    /** What is selected is always one of the entries listed. */
    ghost predicate Valid()
      reads this
    {
      selectedPost.Some? ==> selectedPost.value in likedPosts
    }

    /** Before the first fetch the page lists nothing and selects nothing. */
    constructor ()
      ensures Valid() && likedPosts == [] && selectedPost == None
    {
      likedPosts := [];
      selectedPost := None;
    }

    /**
     * `fetchLikedPosts`: when the request answers with a list of posts, the
     * page lists their formatting and selects the first entry, or nothing
     * if there is none; when the request or the mapping throws, the error
     * is only logged and the page keeps what it had.
     */
    method FetchLikedPosts(res: Outcome<seq<BackendPost>>)
      requires Valid()
      modifies this
      ensures Valid()
      ensures res.Resolved? ==> likedPosts == FormatAll(res.body) && selectedPost == FirstOrNull(likedPosts)
      ensures res.Thrown? ==> likedPosts == old(likedPosts) && selectedPost == old(selectedPost)
    {
      if res.Thrown? {
        return;
      }
      var formatted := FormatAll(res.body);
      likedPosts := formatted;
      selectedPost := FirstOrNull(formatted);
    }

    /** Clicking a listed entry selects it; the list is untouched. */
    method SelectPost(post: LikedPost)
      requires Valid() && post in likedPosts
      modifies this
      ensures Valid()
      ensures selectedPost == Some(post) && likedPosts == old(likedPosts)
    {
      selectedPost := Some(post);
    }
  }
}
