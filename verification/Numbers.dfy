/** Integer limits of the host language, and the two small types every component shares. */
module Numbers {
  /** Largest integer the host's number type represents exactly. */
  const MAX_SAFE_INTEGER: nat := 9007199254740991

  datatype Option<+T> = None | Some(value: T)

  datatype Result<+T, +E> = Ok(value: T) | Err(error: E)

  function Max(a: int, b: int): int {
    if a < b then b else a
  }

  function Min(a: int, b: int): int {
    if a < b then a else b
  }

  /** Addition that saturates instead of leaving the exact range. */
  function SafeAdd(left: nat, right: nat): (sum: nat)
    ensures sum <= left + right
    ensures sum <= MAX_SAFE_INTEGER && (left <= MAX_SAFE_INTEGER ==> left <= sum)
    ensures left + right <= MAX_SAFE_INTEGER ==> sum == left + right
  {
    if left + right <= MAX_SAFE_INTEGER then left + right else MAX_SAFE_INTEGER
  }
}
