/** The list operations both client caches use: `findIndex` on an id,
    replace-at-index, and `filter` on an id, compared with `===`. `key`
    reads a record's id. */
module IdLists {
  import opened Models

  /** `s.findIndex(x => key(x) === k)`: the first index holding id `k`, or -1. */
  function IndexOfId<T>(s: seq<T>, key: T -> Id, k: Id): (r: int)
    ensures -1 <= r < |s|
    ensures r >= 0 ==> key(s[r]) == k && forall j :: 0 <= j < r ==> key(s[j]) != k
    ensures r == -1 <==> forall j :: 0 <= j < |s| ==> key(s[j]) != k
  {
    if s == [] then -1
    else if key(s[0]) == k then 0
    else
      var r := IndexOfId(s[1..], key, k);
      assert forall j :: 1 <= j < |s| ==> s[j] == s[1..][j - 1];
      if r == -1 then -1 else r + 1
  }

  /** The list after writing `x` over the first element whose id is `x`'s id;
      the list itself when there is none. */
  function ReplaceFirst<T>(s: seq<T>, key: T -> Id, x: T): (r: seq<T>)
    ensures |r| == |s|
    ensures IndexOfId(s, key, key(x)) == -1 ==> r == s
    ensures IndexOfId(s, key, key(x)) >= 0 ==> r[IndexOfId(s, key, key(x))] == x
    ensures forall j :: 0 <= j < |s| && j != IndexOfId(s, key, key(x)) ==> r[j] == s[j]
  {
    var index := IndexOfId(s, key, key(x));
    if index > -1 then s[index := x] else s
  }

  /** `s.filter(x => key(x) !== k)`. */
  function Without<T>(s: seq<T>, key: T -> Id, k: Id): (r: seq<T>)
    ensures |r| <= |s|
    ensures forall x :: x in r ==> x in s && key(x) != k
    ensures forall j :: 0 <= j < |s| && key(s[j]) != k ==> s[j] in r
  {
    if s == [] then []
    else if key(s[0]) == k then Without(s[1..], key, k)
    else [s[0]] + Without(s[1..], key, k)
  }

  /** Number of elements of `s` whose id is `k`. */
  function CountId<T>(s: seq<T>, key: T -> Id, k: Id): (n: nat)
    ensures n <= |s|
  {
    if s == [] then 0 else (if key(s[0]) == k then 1 else 0) + CountId(s[1..], key, k)
  }

  /** Filtering distributes over concatenation, so the kept elements stay in
      their original relative order. */
  lemma {:induction false} WithoutAppend<T>(a: seq<T>, b: seq<T>, key: T -> Id, k: Id)
    ensures Without(a + b, key, k) == Without(a, key, k) + Without(b, key, k)
  {
    if a != [] {
      assert (a + b)[1..] == a[1..] + b;
      WithoutAppend(a[1..], b, key, k);
    } else {
      assert a + b == b;
    }
  }

  /** Exactly the elements with id `k` are removed. */
  lemma {:induction false} WithoutLength<T>(s: seq<T>, key: T -> Id, k: Id)
    ensures |Without(s, key, k)| == |s| - CountId(s, key, k)
    ensures CountId(Without(s, key, k), key, k) == 0
  {
    if s != [] {
      WithoutLength(s[1..], key, k);
    }
  }

  /** Removing an id that no element carries leaves the list as it was. */
  lemma {:induction false} WithoutAbsent<T>(s: seq<T>, key: T -> Id, k: Id)
    requires forall j :: 0 <= j < |s| ==> key(s[j]) != k
    ensures Without(s, key, k) == s
  {
    if s != [] {
      WithoutAbsent(s[1..], key, k);
    }
  }

  /** Removing the same id twice gives the same list as removing it once. */
  lemma WithoutIdempotent<T>(s: seq<T>, key: T -> Id, k: Id)
    ensures Without(Without(s, key, k), key, k) == Without(s, key, k)
  {
  }
}
