/** The UserDefaults key/value store together with JSON coding, modelled as an
    abstract snapshot: a key holds nothing, bytes that decode to a value, or
    bytes that do not decode. No byte-level encoding is modelled. */
module Persistence {
  import opened Basics

  /** The bytes stored under one key, seen through the decoder. */
  datatype Blob<T> = Encoded(value: T) | Undecodable

  /** One key of the store: `None` when nothing was ever written. */
  type Slot<T> = Option<Blob<T>>

  /** Reading a key and decoding it; a missing key and a failed decode are
      both swallowed and reported as `None`. */
  function Load<T>(slot: Slot<T>): (r: Option<T>)
    ensures r.Some? <==> (slot.Some? && slot.value.Encoded?)
    ensures r.Some? ==> slot == Some(Encoded(r.value))
  {
    match slot
    case Some(Encoded(v)) => Some(v)
    case _ => None
  }

  /** Encoding a value and writing it when encoding succeeds; when it throws
      the write is skipped and the previous contents stay. */
  function Save<T>(slot: Slot<T>, v: T, encodes: bool): (r: Slot<T>)
    ensures encodes ==> Load(r) == Some(v)
    ensures !encodes ==> r == slot
  {
    if encodes then Some(Encoded(v)) else slot
  }
}
