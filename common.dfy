/** Values shared by every part of the relay: response statuses, byte strings,
    an optional value, and duplicate-free sequences. */
module Common {

  /** The HTTP status families the relay answers with. */
  datatype Status = OK | Created | BadRequest | Forbidden | NotFound

  /** Opaque byte strings: keys, signatures, message payloads. */
  type Bytes = seq<bv8>

  datatype Option<+T> = None | Some(value: T)

  /** A byte string of `n` zero bytes (the forged signature of the negative tests). */
  function Zeros(n: nat): (r: Bytes)
    ensures |r| == n && forall i :: 0 <= i < n ==> r[i] == 0
  {
    seq(n, _ => 0)
  }

  ghost predicate NoDuplicates<T>(s: seq<T>)
  {
    forall i, j :: 0 <= i < j < |s| ==> s[i] != s[j]
  }

  /** `s` with every occurrence of `x` taken out, order kept. */
  function Without<T(==,!new)>(s: seq<T>, x: T): (r: seq<T>)
    ensures forall y :: y in r <==> y in s && y != x
    ensures |r| <= |s|
    ensures NoDuplicates(s) ==> NoDuplicates(r)
  {
    if s == [] then []
    else if s[0] == x then Without(s[1..], x)
    else
      var rest := Without(s[1..], x);
      assert NoDuplicates(s) ==> s[0] !in s[1..] by {
        if NoDuplicates(s) {
          forall k | 0 <= k < |s| - 1 ensures s[1..][k] != s[0] {
            assert s[1..][k] == s[k + 1];
          }
        }
      }
      [s[0]] + rest
  }
}
