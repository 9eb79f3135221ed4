/** Optional values: Swift's `T?`, with its `??` operator. */
module Options {

  datatype Option<T> = None | Some(value: T) {

    /** Swift's `this ?? other`: keeps a present value, otherwise takes `other`. */
    function OrElse(other: Option<T>): (r: Option<T>) {
      if Some? then this else other
    }

    /** The present value as a one-element sequence, or the empty sequence. */
    function Elements(): (s: seq<T>) {
      if Some? then [value] else []
    }
  }
}
