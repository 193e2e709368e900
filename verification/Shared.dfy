/** What several services share: optional values, a document's status, the resolution of the spoiler-safe setting. */
module Shared {
  datatype Option<+T> = None | Some(value: T)

  /** Where a document's ingestion stands. */
  datatype DocumentStatus = Pending | Processing | Indexed | Failed

  /** Most specific wins: the request, then the document, then the user. */
  function ResolveSpoilerSafe(perQuery: Option<bool>, perDocument: Option<bool>, userDefault: bool): bool {
    if perQuery.Some? then perQuery.value
    else if perDocument.Some? then perDocument.value
    else userDefault
  }
}
