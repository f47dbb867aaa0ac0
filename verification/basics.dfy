/** Value types shared by every module of the model. */
module Basics {

  /** Swift's `Optional`. */
  datatype Option<+T> = None | Some(value: T)

  /** A Swift `Double`, carried opaquely: the model does no arithmetic on it.
      The one distinction kept is whether the value is finite, because
      Foundation's JSON encoder (default strategy) throws on NaN and on the
      infinities, and the managers skip the save when encoding throws. */
  datatype Double = Finite(value: real) | NonFinite

  /** One element of a Foundation `Data` value. */
  newtype byte = x: int | 0 <= x < 256
}
