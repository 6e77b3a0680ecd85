/** The optional value used wherever the storefront returns `null` or `undefined`. */
module Wrappers {
  datatype Option<+T> = None | Some(value: T)
}

/**
 * One event of the hosted store's live change feed, as a handler sees it:
 * the new row for INSERT and UPDATE, the key of the old row for DELETE.
 */
module ChangeFeed {
  datatype Change<R> = Insert(newRecord: R) | Update(newRecord: R) | Delete(oldKey: string)
}
