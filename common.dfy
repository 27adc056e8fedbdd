/** Vocabulary shared by the two schemas and the request handlers. */
module Common {

  /** A document id. ObjectIds are opaque here: the store draws them from a counter. */
  type Id = nat

  datatype Option<T> = None | Some(value: T)

  /** A `:id` route parameter: a string that casts to an ObjectId, or one that does
      not (every `findById` on such a string throws a cast error). */
  datatype IdArg = Cast(id: Id) | Malformed

  /** A string path of a request body or of a document is present when it is
      supplied and not empty. JavaScript truthiness and Mongoose's `required`
      validator for strings agree on this: an absent path and "" both fail. */
  predicate Present(f: Option<string>)
  {
    f.Some? && f.value != ""
  }
}
