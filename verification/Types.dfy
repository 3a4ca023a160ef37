/** Value types shared by the other modules. */
module Types {

  datatype Option<+T> = None | Some(value: T)

  datatype Result<+T, +E> = Ok(value: T) | Err(error: E)

  /** A 32-byte cache key, read as a number. Only equality of keys matters. */
  type Key = nat

  type Byte = b: int | 0 <= b < 256

  /** One tokenized question. */
  datatype Encoded = Encoded(ids: seq<nat>, markers: seq<nat>, qtype: nat)

  /** Raw model output for one question; this is what gets cached. */
  datatype Raw = Raw(logits: seq<real>, actProb: real, nTokens: nat)

  function Max(a: int, b: int): int {
    if a < b then b else a
  }

  function Min(a: int, b: int): int {
    if a < b then a else b
  }

  predicate NoDup<T(==)>(s: seq<T>) {
    forall i, j :: 0 <= i < j < |s| ==> s[i] != s[j]
  }

  lemma MulMonotone(x: int, y: int, n: nat)
    ensures x <= y ==> x * n <= y * n
  {
  }
}
