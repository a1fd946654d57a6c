/**
 * The Mongoose behaviour the four schemas rely on: `required` on string, id
 * and number paths, and the `trim` setter applied on assignment.
 */
module Schema {
  import opened Wrappers
  import opened Strings

  /** `required` on a String path: absent and "" both fail; any other string passes. */
  predicate RequiredString(v: Option<string>) {
    v.Some? && v.value != ""
  }

  /** A String path with `trim: true`: the setter trims before `required` looks at it. */
  function TrimmedField(v: Option<string>): (r: Option<string>)
    ensures r.Some? <==> v.Some?
    ensures r.Some? ==> r.value == Trim(v.value)
  {
    match v
    case None => None
    case Some(s) => Some(Trim(s))
  }

  /**
   * An ObjectId path: a present value must cast to an id. Ids are opaque
   * non-empty strings here, so only "" fails to cast.
   */
  predicate CastsToId(v: Option<string>) {
    v.None? || v.value != ""
  }

  /** `required` on an ObjectId path: present and castable. */
  predicate RequiredId(v: Option<string>) {
    v.Some? && v.value != ""
  }

  /** A whitespace-only value passes a truthiness test but not a trimmed `required`. */
  lemma BlankFailsTrimmedRequired(s: string)
    requires s != [] && forall i :: 0 <= i < |s| ==> IsSpace(s[i])
    ensures RequiredString(Some(s)) && !RequiredString(TrimmedField(Some(s)))
  {
  }
}
