/** Values shared by the backend schemas and the catalog controller. */
module Common {

  /** A request-body field or a document path that may be absent. */
  datatype Option<+T> = None | Some(value: T) {
    /** The value, or `default` when absent (a schema `default:`). */
    function GetOr(default: T): (r: T)
      ensures Some? ==> r == value
      ensures None? ==> r == default
    {
      match this
      case Some(v) => v
      case None => default
    }
  }

  /** A store identifier (an ObjectId), kept abstract as its hex string. */
  type Id = string

  /** Mongoose's `required: true` check on a String path: the value is
      present and is not the empty string. */
  predicate HasText(s: Option<string>) {
    s.Some? && |s.value| > 0
  }
}
