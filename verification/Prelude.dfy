/** Types shared by every module: optional values and the two clocks of the service. */
module Prelude {
  datatype Option<+T> = None | Some(value: T)

  datatype Result<+T, +E> = Ok(value: T) | Err(error: E)

  /** Application-generated UUIDs. The protocol only compares them; their text shape is in module Uuid. */
  type Id = nat

  /** Milliseconds on the database clock. */
  type Time = int

  lemma Associates<T>(a: seq<T>, b: seq<T>, c: seq<T>)
    ensures a + (b + c) == (a + b) + c
  {
  }
}
