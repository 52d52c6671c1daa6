/** Types shared by every part of the runner model. */
module Common {

  datatype Option<+T> = None | Some(value: T)

  datatype Result<+T> = Ok(value: T) | Err(error: string)

  /** One octet of a stream or a file. */
  type Byte = b: int | 0 <= b < 256

  function Min(a: int, b: int): (m: int)
    ensures m <= a && m <= b && (m == a || m == b)
  {
    if a <= b then a else b
  }

  function Max(a: int, b: int): (m: int)
    ensures m >= a && m >= b && (m == a || m == b)
  {
    if a >= b then a else b
  }

  /** All chunks of a stream, in order. */
  function Concat<T>(chunks: seq<seq<T>>): (s: seq<T>) {
    if chunks == [] then [] else chunks[0] + Concat(chunks[1..])
  }

  lemma HasMember(s: set<int>)
    requires s != {}
    ensures exists x :: x in s
  {
    assert (forall x :: x !in s) ==> s == {};
  }

  // ---------- byte search ----------

  predicate OccursAt(s: seq<Byte>, pattern: seq<Byte>, p: int) {
    0 <= p && p + |pattern| <= |s| && s[p..p + |pattern|] == pattern
  }

  /** `bytes.find(pattern, start)`: the least occurrence. */
  function Find(s: seq<Byte>, pattern: seq<Byte>, start: nat): (r: Option<nat>)
    ensures r.Some? ==> start <= r.value && OccursAt(s, pattern, r.value)
    ensures r.Some? ==> forall q :: start <= q < r.value ==> !OccursAt(s, pattern, q)
    ensures r.None? ==> forall q :: start <= q ==> !OccursAt(s, pattern, q)
    decreases |s| - start
  {
    if start + |pattern| > |s| then None
    else if s[start..start + |pattern|] == pattern then Some(start)
    else Find(s, pattern, start + 1)
  }
}
