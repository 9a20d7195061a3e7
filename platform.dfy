/** The values that cross the boundary between the components and the platform: toast
    notifications the components dispatch, and what awaited Apex calls give back. The Apex
    procedures themselves are opaque; a model method receives their outcome as a parameter. */
module Platform {
  import opened Js

  /** A `ShowToastEvent` with its title, message and variant. */
  datatype Toast = Toast(title: string, message: string, variant: string)

  /** A rejection caught from an awaited call: `error.body` (absent, or present with an
      optional `message`) and `error.message`. */
  datatype Failure = Failure(body: Option<Option<string>>, message: Option<string>)

  /** What an awaited call did: resolve with a value or reject with a failure. */
  datatype Call<T> = Returned(value: T) | Threw(failure: Failure)

  /** The object the Apex processing service resolves with; every property may be absent. */
  datatype ProcessResult = ProcessResult(
    storiesCreated: Option<int>,
    workItemsCreated: Option<int>,
    storyIds: Option<seq<string>>,
    errors: Option<seq<string>>)

  /** The empty object `{}`. */
  const NoResult := ProcessResult(None, None, None, None)

  /** A count that may be absent, with 0 in its place when it is. */
  function CountOrZero(n: Option<int>): int {
    n.GetOr(0)
  }

  /** The result carries a non-empty list of errors. */
  predicate ReportsErrors(r: ProcessResult) {
    r.errors.Some? && |r.errors.value| > 0
  }
}
