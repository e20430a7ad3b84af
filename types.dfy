/**
 * Value types shared by the post card, the "my posts" page and the
 * "liked posts" page.
 */
module Types {

  /** A JavaScript value that may be `undefined` or `null`. */
  datatype Option<+T> = None | Some(value: T) {
    function GetOr(default: T): (r: T)
      ensures Some? ==> r == value
      ensures None? ==> r == default
    {
      match this
      case Some(v) => v
      case None => default
    }
  }

  /**
   * How an awaited request ends: it resolves with a response body, or it
   * throws (a non-success status, a network error).
   */
  datatype Outcome<+T> = Resolved(body: T) | Thrown

  /**
   * A comment as the card holds it: `serverId` is the backend's `_id`,
   * `id` the temporary client id given to a comment added locally.
   */
  datatype Comment = Comment(serverId: Option<string>, id: Option<string>, text: string)

  /** JavaScript truthiness of an optional string: present and not "". */
  predicate Truthy(s: Option<string>)
  {
    s.Some? && s.value != ""
  }
}
