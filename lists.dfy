/** Python list and numpy indexing as the two scripts use them. */
module Lists {

  /** `s[:n]`: the first `n` elements, or all of `s` when it is shorter. */
  function Take<T>(s: seq<T>, n: nat): (r: seq<T>)
    ensures |r| == if |s| <= n then |s| else n
    ensures r <= s
  {
    if |s| <= n then s else s[..n]
  }

  /** A prefix holds only elements of the sequence. */
  lemma TakeMembers<T>(s: seq<T>, n: nat)
    ensures forall x :: x in Take(s, n) ==> x in s
  {
    if n < |s| {
      forall x | x in Take(s, n)
        ensures x in s
      {
        var i :| 0 <= i < n && s[..n][i] == x;
        assert s[i] == x;
      }
    }
  }

  /** `s[lo:hi]`: Python clamps both bounds to the length of `s`. */
  function Slice<T>(s: seq<T>, lo: nat, hi: nat): (r: seq<T>)
    ensures hi <= |s| && lo <= hi ==> |r| == hi - lo
    ensures forall i :: 0 <= i < |r| ==> lo + i < |s| && r[i] == s[lo + i]
  {
    if hi <= lo || |s| <= lo then [] else s[lo..if hi <= |s| then hi else |s|]
  }

  /** `xs.index(x)`: the position of the first element equal to `x`. */
  function FirstIndex<T(==)>(xs: seq<T>, x: T): (i: nat)
    requires x in xs
    ensures i < |xs| && xs[i] == x
    ensures forall j :: 0 <= j < i ==> xs[j] != x
  {
    if xs[0] == x then 0 else 1 + FirstIndex(xs[1..], x)
  }

  /** `[v for _ in range(n)]`. */
  function Repeat<T>(v: T, n: nat): (r: seq<T>)
    ensures |r| == n && forall i :: 0 <= i < n ==> r[i] == v
  {
    if n == 0 then [] else Repeat(v, n - 1) + [v]
  }

  /** numpy's `s[inds]` for an index list whose entries are all in range. */
  function Gather<T>(s: seq<T>, inds: seq<nat>): (r: seq<T>)
    requires forall j :: 0 <= j < |inds| ==> inds[j] < |s|
    ensures |r| == |inds| && forall j :: 0 <= j < |inds| ==> r[j] == s[inds[j]]
  {
    if inds == [] then [] else Gather(s, inds[..|inds| - 1]) + [s[inds[|inds| - 1]]]
  }

  /** The first `k` lists of `xss`, one after the other: what appending each list's items in turn builds. */
  function Flatten<T>(xss: seq<seq<T>>, k: nat): seq<T>
    requires k <= |xss|
  {
    if k == 0 then [] else Flatten(xss, k - 1) + xss[k - 1]
  }

  lemma FlattenSnoc<T>(xss: seq<seq<T>>, k: nat)
    requires k < |xss|
    ensures Flatten(xss, k + 1) == Flatten(xss, k) + xss[k]
  {
  }

  /** Item `d` of list `p` sits at offset `|Flatten(xss, p)| + d` of the concatenation. */
  lemma {:induction false} FlattenAt<T>(xss: seq<seq<T>>, k: nat, p: nat, d: nat)
    requires p < k <= |xss| && d < |xss[p]|
    ensures |Flatten(xss, p)| + d < |Flatten(xss, k)|
    ensures Flatten(xss, k)[|Flatten(xss, p)| + d] == xss[p][d]
  {
    if p < k - 1 {
      FlattenAt(xss, k - 1, p, d);
    }
  }

  /** Every offset of the concatenation holds an item of one of the lists. */
  lemma {:induction false} FlattenOrigin<T>(xss: seq<seq<T>>, k: nat, j: nat) returns (p: nat, d: nat)
    requires k <= |xss| && j < |Flatten(xss, k)|
    ensures p < k && d < |xss[p]| && j == |Flatten(xss, p)| + d
  {
    if j < |Flatten(xss, k - 1)| {
      p, d := FlattenOrigin(xss, k - 1, j);
    } else {
      p, d := k - 1, j - |Flatten(xss, k - 1)|;
    }
  }

  /** Lists of equal lengths concatenate to equal lengths, so offsets in the two concatenations agree. */
  lemma {:induction false} FlattenSameShape<T, U>(xss: seq<seq<T>>, yss: seq<seq<U>>, k: nat)
    requires k <= |xss| == |yss|
    requires forall i :: 0 <= i < |xss| ==> |xss[i]| == |yss[i]|
    ensures |Flatten(xss, k)| == |Flatten(yss, k)|
  {
    if k > 0 {
      FlattenSameShape(xss, yss, k - 1);
    }
  }

  /** In two concatenations of lists of equal lengths, item `d` of list `p` sits at the same offset. */
  lemma FlattenAtAligned<T, U>(xss: seq<seq<T>>, yss: seq<seq<U>>, k: nat, p: nat, d: nat)
    requires k <= |xss| == |yss|
    requires forall i :: 0 <= i < |xss| ==> |xss[i]| == |yss[i]|
    requires p < k && d < |xss[p]|
    ensures |Flatten(xss, p)| + d < |Flatten(yss, k)|
    ensures Flatten(yss, k)[|Flatten(xss, p)| + d] == yss[p][d]
  {
    FlattenSameShape(xss, yss, p);
    FlattenAt(yss, k, p, d);
  }

  /** Lists of at most `b` items concatenate to at most `b * k` items. */
  lemma {:induction false} FlattenBound<T>(xss: seq<seq<T>>, k: nat, b: nat)
    requires k <= |xss|
    requires forall i :: 0 <= i < |xss| ==> |xss[i]| <= b
    ensures |Flatten(xss, k)| <= b * k
  {
    if k > 0 {
      FlattenBound(xss, k - 1, b);
      assert b * k == b * (k - 1) + b;
    }
  }
}
