/** Shared vocabulary of the store backend: optional values, results with the
    errors the resolvers throw, document identifiers, and the "first document
    matching a filter" lookup that every `findOne`/`findOneAndUpdate` uses. */
module Common {

  datatype Option<+T> = None | Some(value: T)

  /** What a resolver hands back to the GraphQL layer: a value, or the error it throws. */
  datatype Result<+T> = Ok(value: T) | Err(error: Failure)

  /** The errors the core can throw.
      - `AuthenticationError(m)`: `new AuthenticationError(m)`;
      - `BareAuthenticationError`: `throw AuthenticationError`, the class itself
        thrown without being constructed, so it carries no message;
      - `PlainError(m)`: `new Error(m)`;
      - `ValidationError(paths)`: a schema validator rejected the listed paths;
      - `DuplicateKey`: a unique index rejected an insert. */
  datatype Failure =
    | AuthenticationError(message: string)
    | BareAuthenticationError
    | PlainError(message: string)
    | ValidationError(paths: seq<string>)
    | DuplicateKey

  /** A MongoDB ObjectId: opaque, compared only for equality. */
  datatype ObjectId = ObjectId(serial: nat)

  /** Index of the first document, in the collection's natural order, that the
      filter accepts; `None` when no document matches. This is the document
      `findOne` returns and the one `findOneAndUpdate` modifies. */
  function FindOne<T>(docs: seq<T>, filter: T -> bool): (r: Option<nat>)
    ensures r.Some? ==> r.value < |docs| && filter(docs[r.value])
    ensures r.Some? ==> forall j :: 0 <= j < r.value ==> !filter(docs[j])
    ensures r.None? <==> forall j :: 0 <= j < |docs| ==> !filter(docs[j])
    decreases |docs|
  {
    if |docs| == 0 then None
    else if filter(docs[0]) then Some(0)
    else match FindOne(docs[1..], filter)
      case None => None
      case Some(k) => Some(k + 1)
  }

  /** When at most one document can match (a unique field), the first match
      is exactly the matching one. */
  lemma {:induction false} FindOneUnique<T>(docs: seq<T>, filter: T -> bool, k: nat)
    requires k < |docs| && filter(docs[k])
    requires forall i, j :: 0 <= i < j < |docs| && filter(docs[i]) ==> !filter(docs[j])
    ensures FindOne(docs, filter) == Some(k)
  {
  }
}
