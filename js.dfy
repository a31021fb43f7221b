/** Values and library behaviour of the JavaScript runtime that the rest of the
    model relies on: optional values, results of operations that throw,
    `Array.prototype.indexOf`/`findIndex`/`slice`, string tests, `path.join`
    and `path.isAbsolute`, and insertion-ordered objects. */
module Js {

  datatype Option<+T> = None | Some(value: T) {
    /** `x ?? d` */
    function GetOr(default: T): T {
      match this
      case Some(v) => v
      case None => default
    }
  }

  /** The outcome of an operation that returns a value or throws. */
  datatype Result<+T, +E> = Ok(value: T) | Err(error: E)

  /** Truthiness of an optional string: `undefined` and `""` are falsy. */
  predicate Truthy(s: Option<string>) {
    s.Some? && s.value != ""
  }

  /** `a.indexOf(x)`: the first index holding `x`, or -1. */
  function IndexOf<T(==)>(a: seq<T>, x: T): (r: int)
    ensures -1 <= r < |a|
    ensures r == -1 <==> x !in a
    ensures r >= 0 ==> a[r] == x && x !in a[..r]
  {
    if |a| == 0 then -1
    else if a[0] == x then 0
    else
      var k := IndexOf(a[1..], x);
      assert a[1..][..if k < 0 then 0 else k] == a[1..if k < 0 then 1 else k + 1];
      if k == -1 then -1 else k + 1
  }

  /** The index `slice` starts or stops at for a relative argument `i`:
      negative arguments count from the end, and both are clamped to [0, n]. */
  function SliceBound(i: int, n: nat): (r: nat)
    ensures r <= n
    ensures 0 <= i <= n ==> r == i
    ensures i > n ==> r == n
    ensures i < 0 ==> r == if n + i < 0 then 0 else n + i
  {
    if i < 0 then (if n + i < 0 then 0 else n + i) else if i > n then n else i
  }

  /** `a.slice(b, e)` with the clamping rules of ECMAScript. */
  function Slice<T>(a: seq<T>, b: int, e: int): (r: seq<T>)
    ensures |r| == if SliceBound(b, |a|) <= SliceBound(e, |a|)
                   then SliceBound(e, |a|) - SliceBound(b, |a|) else 0
    ensures forall k :: 0 <= k < |r| ==> r[k] == a[SliceBound(b, |a|) + k]
  {
    var lo, hi := SliceBound(b, |a|), SliceBound(e, |a|);
    if lo <= hi then a[lo..hi] else []
  }

  predicate StartsWith(s: string, prefix: string) {
    |prefix| <= |s| && s[..|prefix|] == prefix
  }

  /** `sub` occurs in `s` at position `i`. */
  predicate MatchAt(s: string, sub: string, i: int) {
    0 <= i <= |s| - |sub| && s[i..i + |sub|] == sub
  }

  /** `s.includes(sub)`, decided by a scan from position `from`. */
  function IncludesFrom(s: string, sub: string, from: nat): (b: bool)
    requires from <= |s|
    ensures b <==> exists i :: from <= i && MatchAt(s, sub, i)
    decreases |s| - from
  {
    if from + |sub| > |s| then false
    else if s[from..from + |sub|] == sub then assert MatchAt(s, sub, from); true
    else
      var b := IncludesFrom(s, sub, from + 1);
      assert !MatchAt(s, sub, from);
      b
  }

  /** `s.includes(sub)` */
  function Includes(s: string, sub: string): (b: bool)
    ensures b <==> exists i :: MatchAt(s, sub, i)
  {
    IncludesFrom(s, sub, 0)
  }

  function LowerChar(c: char): (d: char)
    ensures 'A' <= c <= 'Z' ==> 'a' <= d <= 'z'
    ensures !('A' <= c <= 'Z') ==> d == c
  {
    if 'A' <= c <= 'Z' then (c as int - 'A' as int + 'a' as int) as char else c
  }

  /** `s.toLocaleLowerCase()`, restricted to ASCII letters. */
  function Lower(s: string): (r: string)
    ensures |r| == |s|
    ensures forall i :: 0 <= i < |s| ==> r[i] == LowerChar(s[i])
  {
    if s == [] then [] else [LowerChar(s[0])] + Lower(s[1..])
  }

  /** `path.isAbsolute` on POSIX. */
  predicate IsAbsolute(p: string) {
    StartsWith(p, "/")
  }

  /** `path.join(a, b)` for two segments, without normalisation. */
  function PathJoin(a: string, b: string): (r: string)
    ensures b == "" ==> r == a
    ensures a == "" ==> r == b
    ensures a != "" && b != "" ==> r == a + "/" + b
  {
    if b == "" then a else if a == "" then b else a + "/" + b
  }

  /** A plain JavaScript object: its own keys in insertion order. */
  type Obj<V> = seq<(string, V)>

  function Keys<V>(o: Obj<V>): (ks: seq<string>)
    ensures |ks| == |o|
    ensures forall i :: 0 <= i < |o| ==> ks[i] == o[i].0
  {
    if o == [] then [] else [o[0].0] + Keys(o[1..])
  }

  /** `o[k]`, `undefined` when `k` is not an own key. */
  function Get<V>(o: Obj<V>, k: string): (r: Option<V>)
    ensures r.None? <==> k !in Keys(o)
  {
    if o == [] then None else if o[0].0 == k then Some(o[0].1) else Get(o[1..], k)
  }

  /** `o[k] = v`: an existing key keeps its position, a new key goes last. */
  function Put<V>(o: Obj<V>, k: string, v: V): (r: Obj<V>)
    ensures k in Keys(o) ==> Keys(r) == Keys(o)
    ensures k !in Keys(o) ==> Keys(r) == Keys(o) + [k]
    ensures Get(r, k) == Some(v)
    ensures forall k' :: k' != k ==> Get(r, k') == Get(o, k')
  {
    if o == [] then [(k, v)]
    else if o[0].0 == k then [(k, v)] + o[1..]
    else
      var rest := Put(o[1..], k, v);
      assert Keys([o[0]] + rest) == [o[0].0] + Keys(rest);
      assert Keys(o) == [o[0].0] + Keys(o[1..]);
      [o[0]] + rest
  }

  /** A new key goes after every existing entry. */
  lemma {:induction false} PutNew<V>(o: Obj<V>, k: string, v: V)
    requires k !in Keys(o)
    ensures Put(o, k, v) == o + [(k, v)]
    decreases |o|
  {
    if o != [] {
      assert Keys(o) == [o[0].0] + Keys(o[1..]);
      PutNew(o[1..], k, v);
      assert [o[0]] + (o[1..] + [(k, v)]) == o + [(k, v)];
    }
  }

  /** Two new keys go last, in the order they are set. */
  lemma PutNewTwice<V>(o: Obj<V>, k1: string, v1: V, k2: string, v2: V)
    requires k1 !in Keys(o) && k2 !in Keys(o) && k1 != k2
    ensures Put(Put(o, k1, v1), k2, v2) == o + [(k1, v1), (k2, v2)]
  {
    PutNew(o, k1, v1);
    assert Keys(o + [(k1, v1)]) == Keys(o) + [k1];
    PutNew(o + [(k1, v1)], k2, v2);
    assert o + [(k1, v1)] + [(k2, v2)] == o + [(k1, v1), (k2, v2)];
  }

  /** `Object.values(o)` */
  function Values<V>(o: Obj<V>): (vs: seq<V>)
    ensures |vs| == |o|
    ensures forall i :: 0 <= i < |o| ==> vs[i] == o[i].1
  {
    if o == [] then [] else [o[0].1] + Values(o[1..])
  }
}
