module Basics {

  datatype Option<+T> = None | Some(value: T)

  type byte = x: int | 0 <= x < 256

  /** The bytes are the ASCII text. */
  predicate Spelled(b: seq<byte>, text: string) {
    |b| == |text| && forall k | 0 <= k < |text| :: b[k] == text[k] as int
  }
}
