/** The fate of a write to the store, as its caller learns of it. */
module Writes {
  /** Stored, not stored, or stored while the caller is told of an error. */
  datatype Write = Stored | NotStored | StoredUnread
}
