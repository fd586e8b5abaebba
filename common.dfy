/** Small value helpers shared by every module: an optional value (the source's `null`)
    and the real-number versions of Math.abs, Math.min and Math.max. */
module Common {

  /** A value that may be absent; `None` stands for the source's `null`. */
  datatype Option<+T> = None | Some(value: T)

  /** A number shown as a figure followed by a unit suffix (the text rendering of the figure
      is not modelled). */
  datatype Scaled = Scaled(value: real, suffix: string)

  function Abs(x: real): (r: real)
    ensures r >= 0.0 && (r == x || r == -x)
  {
    if x < 0.0 then -x else x
  }

  function Max(a: real, b: real): (r: real)
    ensures r >= a && r >= b && (r == a || r == b)
  {
    if a < b then b else a
  }

  function Min(a: real, b: real): (r: real)
    ensures r <= a && r <= b && (r == a || r == b)
  {
    if a < b then a else b
  }

  /** Array.prototype.find / findIndex: the index of the first element satisfying p, if any. */
  function FindFirst<T>(s: seq<T>, p: T -> bool): (r: Option<nat>)
    ensures r.Some? ==> r.value < |s| && p(s[r.value]) && forall j :: 0 <= j < r.value ==> !p(s[j])
    ensures r.None? <==> forall j :: 0 <= j < |s| ==> !p(s[j])
  {
    if |s| == 0 then None
    else if p(s[0]) then Some(0)
    else match FindFirst(s[1..], p)
      case None => None
      case Some(k) => Some(k + 1)
  }

  /** The sequence without its element at index i (Array.prototype.filter removing one
      object that occurs once). */
  function RemoveAt<T>(s: seq<T>, i: nat): (r: seq<T>)
    requires i < |s|
    ensures |r| == |s| - 1
    ensures forall j :: 0 <= j < i ==> r[j] == s[j]
    ensures forall j :: i <= j < |r| ==> r[j] == s[j + 1]
    ensures multiset(r) + multiset{s[i]} == multiset(s)
  {
    assert s == s[..i] + [s[i]] + s[i + 1..];
    s[..i] + s[i + 1..]
  }

  /** Removing an index forgets whatever was last written there. */
  lemma RemoveAtAfterUpdate<T>(s: seq<T>, i: nat, v: T)
    requires i < |s|
    ensures RemoveAt(s[i := v], i) == RemoveAt(s, i)
  {
    assert s[i := v][..i] == s[..i];
    assert s[i := v][i + 1..] == s[i + 1..];
  }

  /** A prefix one longer is the prefix followed by the next element. */
  lemma PrefixExtend<T>(s: seq<T>, i: nat)
    requires i < |s|
    ensures s[..i + 1] == s[..i] + [s[i]]
  {
  }

  /** A suffix of a sequence with one more element is the suffix with that element. */
  lemma SuffixExtend<T>(s: seq<T>, x: T, start: nat)
    requires start <= |s|
    ensures (s + [x])[start..] == s[start..] + [x]
  {
  }
}
