/** Failure-carrying wrappers and string helpers shared by the weather tool, the search tools and the graph. */
module Common {

  /** A value that may be absent: a missing dictionary key or an unset state field. */
  datatype Option<+T> = None | Some(value: T)

  /** The outcome of an operation that the source lets raise: a value, or the error it raised. */
  datatype Result<+T, +E> = Success(value: T) | Failure(error: E)

  /** `d.get(key, default)` on a dictionary. */
  function GetOr<K, V>(d: map<K, V>, key: K, default: V): (v: V)
    ensures key in d ==> v == d[key]
    ensures key !in d ==> v == default
  {
    if key in d then d[key] else default
  }

  /** `t` occurs somewhere in `s` as a contiguous piece (Python's `t in s` on strings). */
  ghost predicate Contains(s: string, t: string)
  {
    exists i :: OccursAt(s, t, i)
  }

  /** `t` occurs in `s` starting at index `i`. */
  predicate OccursAt(s: string, t: string, i: int)
  {
    0 <= i <= |s| - |t| && s[i..i + |t|] == t
  }

  /** The pieces of a template written one after another. */
  function Concat(parts: seq<string>): string
  {
    if parts == [] then "" else parts[0] + Concat(parts[1..])
  }

  /** Every piece of a concatenation occurs in the whole. */
  lemma {:induction false} ConcatContains(parts: seq<string>, k: nat)
    requires k < |parts|
    ensures Contains(Concat(parts), parts[k])
  {
    var whole := Concat(parts);
    if k == 0 {
      assert OccursAt(whole, parts[0], 0);
    } else {
      ConcatContains(parts[1..], k - 1);
      var rest := Concat(parts[1..]);
      var i :| OccursAt(rest, parts[k], i);
      var j := |parts[0]| + i;
      assert whole == parts[0] + rest;
      assert whole[j..j + |parts[k]|] == rest[i..i + |parts[k]|];
      assert OccursAt(whole, parts[k], j);
    }
  }
}
