/** Optional fields of the source's records (`output?: string`, `completedAt?: Date`, ...). */
module Optional {
  datatype Option<T> = None | Some(value: T)

  /** `new Date()` and `Date.now()`, supplied by the caller. */
  type Timestamp = int
}
