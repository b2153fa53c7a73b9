/** Python dictionaries built from a sequence of key/value pairs: a dict
    comprehension or `to_dict()` keeps the LAST value given for a key, a
    `drop_duplicates` before indexing keeps the FIRST. */
module Tables {
  import opened Common

  function LastWins<K, V>(pairs: seq<(K, V)>): (m: map<K, V>)
    ensures forall i :: 0 <= i < |pairs| ==> pairs[i].0 in m
    ensures forall k :: k in m ==> exists i :: 0 <= i < |pairs| && pairs[i].0 == k
  {
    if |pairs| == 0 then map[]
    else
      var init := pairs[..|pairs| - 1];
      var last := pairs[|pairs| - 1];
      assert forall i :: 0 <= i < |init| ==> init[i] == pairs[i];
      LastWins(init)[last.0 := last.1]
  }

  /** The value kept for a key is the one given by its last pair. */
  lemma {:induction false} LastWinsAt<K, V>(pairs: seq<(K, V)>, i: nat)
    requires i < |pairs|
    requires forall j :: i < j < |pairs| ==> pairs[j].0 != pairs[i].0
    ensures LastWins(pairs)[pairs[i].0] == pairs[i].1
    decreases |pairs|
  {
    if i < |pairs| - 1 {
      var init := pairs[..|pairs| - 1];
      LastWinsAt(init, i);
    }
  }

  /** The last index holding the same key as index `i`. */
  function LastWithKey<K(==), V>(pairs: seq<(K, V)>, i: nat): (j: nat)
    requires i < |pairs|
    ensures i <= j < |pairs| && pairs[j].0 == pairs[i].0
    ensures forall k :: j < k < |pairs| ==> pairs[k].0 != pairs[i].0
    decreases |pairs|
  {
    if i == |pairs| - 1 || pairs[|pairs| - 1].0 == pairs[i].0 then |pairs| - 1
    else LastWithKey(pairs[..|pairs| - 1], i)
  }

  function FirstWins<K, V>(pairs: seq<(K, V)>): (m: map<K, V>)
    ensures forall i :: 0 <= i < |pairs| ==> pairs[i].0 in m
    ensures forall k :: k in m ==> exists i :: 0 <= i < |pairs| && pairs[i].0 == k
  {
    if |pairs| == 0 then map[]
    else
      assert forall i :: 1 <= i < |pairs| ==> pairs[1..][i - 1] == pairs[i];
      FirstWins(pairs[1..])[pairs[0].0 := pairs[0].1]
  }

  /** The value kept for a key is the one given by its first pair. */
  lemma {:induction false} FirstWinsAt<K, V>(pairs: seq<(K, V)>, i: nat)
    requires i < |pairs|
    requires forall j :: 0 <= j < i ==> pairs[j].0 != pairs[i].0
    ensures FirstWins(pairs)[pairs[i].0] == pairs[i].1
    decreases |pairs|
  {
    if i > 0 {
      FirstWinsAt(pairs[1..], i - 1);
    }
  }

  /** The rows a boolean mask keeps, in their order (`frame[mask]`). */
  function Filter<T(!new)>(s: seq<T>, keep: T -> bool): (r: seq<T>)
    ensures |r| <= |s|
    ensures forall x :: x in r <==> x in s && keep(x)
  {
    if |s| == 0 then []
    else (if keep(s[0]) then [s[0]] else []) + Filter(s[1..], keep)
  }

  /** A kept element is kept as often as it occurs; the others not at all. */
  lemma {:induction false} FilterMultiset<T(!new)>(s: seq<T>, keep: T -> bool, x: T)
    ensures multiset(Filter(s, keep))[x] == if keep(x) then multiset(s)[x] else 0
    decreases |s|
  {
    if |s| > 0 {
      FilterMultiset(s[1..], keep, x);
      assert s == [s[0]] + s[1..];
    }
  }

  /** Python's `xs[idx]` on a list of length `n`: negative indices count
      from the end; anything else out of range raises `IndexError`. */
  function PyIndex(idx: int, n: nat): (r: Option<nat>)
    ensures r.Some? <==> -(n as int) <= idx < n
    ensures r.Some? ==> r.value < n && (r.value == idx || r.value == n + idx)
  {
    if 0 <= idx < n then Some(idx) else if -(n as int) <= idx < 0 then Some(n + idx) else None
  }

  /** Python's `xs[:stop]`, which is also pandas' `head(stop)`: a negative
      stop drops that many elements from the end. */
  function SliceTo<T>(s: seq<T>, stop: int): (r: seq<T>)
    ensures |r| <= |s| && r == s[..|r|]
    ensures stop >= 0 ==> |r| == if stop < |s| then stop else |s|
    ensures stop < 0 ==> |r| == if |s| + stop > 0 then |s| + stop else 0
  {
    if stop >= 0 then (if stop < |s| then s[..stop] else s)
    else if |s| + stop > 0 then s[..|s| + stop] else []
  }
}
