/**
 * Small value types shared by every screen of the client.
 */
module Base {

  /** A value that may be absent (`null` / `undefined` in the client). */
  datatype Option<+T> = None | Some(value: T)

  /**
   * How an awaited REST call ended: the resolved value, or the rejection
   * with its `error.message`.
   */
  datatype Reply<+T> = Ok(value: T) | Failed(message: string)
}
