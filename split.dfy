/**
 * The randomisation step of `data_process` (dense_features.py): a random
 * permutation of the row positions, its first 80% taken as the training rows
 * and the rest as the test rows, and the same positions used to pick the rows
 * and their labels.
 */
module Split {
  import opened Lists

  /** `perm` lists each of the positions `0 .. n-1` exactly once. */
  predicate IsPermutation(perm: seq<nat>, n: nat)
  {
    && |perm| == n
    && (forall i :: 0 <= i < n ==> perm[i] < n)
    && (forall i, j :: 0 <= i < j < n ==> perm[i] != perm[j])
    && (forall k :: 0 <= k < n ==> k in perm)
  }

  /** `int(0.8 * len(inds))`: the number of training rows. */
  function TrainSize(n: nat): (m: nat)
    ensures m <= n
    ensures 10 * m <= 8 * n < 10 * (m + 1)
  {
    8 * n / 10
  }

  /** `train_inds`. */
  function TrainIndices(perm: seq<nat>): seq<nat>
  {
    perm[..TrainSize(|perm|)]
  }

  /** `test_inds`. */
  function TestIndices(perm: seq<nat>): seq<nat>
  {
    perm[TrainSize(|perm|)..]
  }

  /** `X_train, X_test, y_train, y_test`. */
  datatype Sets<T> = Sets(xTrain: seq<T>, xTest: seq<T>, yTrain: seq<int>, yTest: seq<int>)

  /**
   * Rows and labels picked at the training and at the test positions of
   * `perm`: 80% of the rows (rounded down) for training, the rest for testing,
   * one label per row, each row next to the label of the same data position.
   */
  function DataSplit<T>(x: seq<T>, y: seq<int>, perm: seq<nat>): (d: Sets<T>)
    requires |x| == |y| && IsPermutation(perm, |x|)
    ensures |d.xTrain| == |d.yTrain| == TrainSize(|x|)
    ensures |d.xTest| == |d.yTest| == |x| - TrainSize(|x|)
    ensures forall j :: 0 <= j < TrainSize(|x|) ==> perm[j] < |x| && d.xTrain[j] == x[perm[j]] && d.yTrain[j] == y[perm[j]]
    ensures forall j :: 0 <= j < |x| - TrainSize(|x|) ==>
              && perm[TrainSize(|x|) + j] < |x|
              && d.xTest[j] == x[perm[TrainSize(|x|) + j]]
              && d.yTest[j] == y[perm[TrainSize(|x|) + j]]
  {
    IndicesBounded(perm, |x|);
    Sets(Gather(x, TrainIndices(perm)), Gather(x, TestIndices(perm)),
         Gather(y, TrainIndices(perm)), Gather(y, TestIndices(perm)))
  }

  /** Each row with its label. */
  function Pairs<T>(x: seq<T>, y: seq<int>): (r: seq<(T, int)>)
    requires |x| == |y|
    ensures |r| == |x| && forall i :: 0 <= i < |x| ==> r[i] == (x[i], y[i])
  {
    if x == [] then [] else Pairs(x[..|x| - 1], y[..|y| - 1]) + [(x[|x| - 1], y[|y| - 1])]
  }

  /** Every position goes to exactly one of the two sets. */
  lemma IndicesPartition(perm: seq<nat>, n: nat)
    requires IsPermutation(perm, n)
    ensures forall i :: 0 <= i < n ==> (i in TrainIndices(perm) <==> i !in TestIndices(perm))
  {
    var m := TrainSize(n);
    var tr, te := TrainIndices(perm), TestIndices(perm);
    forall i | 0 <= i < n
      ensures i in tr <==> i !in te
    {
      assert i in perm;
      var c :| 0 <= c < n && perm[c] == i;
      if c < m {
        assert tr[c] == i;
        forall b | 0 <= b < n - m
          ensures te[b] != i
        {
          assert te[b] == perm[m + b];
        }
      } else {
        assert te[c - m] == i;
        forall b | 0 <= b < m
          ensures tr[b] != i
        {
          assert tr[b] == perm[b];
        }
      }
    }
  }

  /** Neither set holds a position twice. */
  lemma IndicesDistinct(perm: seq<nat>, n: nat)
    requires IsPermutation(perm, n)
    ensures forall i, j :: 0 <= i < j < |TrainIndices(perm)| ==> TrainIndices(perm)[i] != TrainIndices(perm)[j]
    ensures forall i, j :: 0 <= i < j < |TestIndices(perm)| ==> TestIndices(perm)[i] != TestIndices(perm)[j]
  {
    var m := TrainSize(n);
    forall i, j | 0 <= i < j < n - m
      ensures TestIndices(perm)[i] != TestIndices(perm)[j]
    {
      assert TestIndices(perm)[i] == perm[m + i] && TestIndices(perm)[j] == perm[m + j];
    }
  }

  /** Picking at `a + b` is picking at `a`, then at `b`. */
  lemma GatherConcat<T>(s: seq<T>, a: seq<nat>, b: seq<nat>)
    requires forall j :: 0 <= j < |a| ==> a[j] < |s|
    requires forall j :: 0 <= j < |b| ==> b[j] < |s|
    ensures Gather(s, a + b) == Gather(s, a) + Gather(s, b)
  {
  }

  /** Picking positions below `m` from a prefix of length `m` picks the same elements. */
  lemma GatherPrefix<T>(s: seq<T>, m: nat, p: seq<nat>)
    requires m <= |s|
    requires forall j :: 0 <= j < |p| ==> p[j] < m
    ensures Gather(s[..m], p) == Gather(s, p)
  {
  }

  /** Taking the largest position `n - 1` out of a permutation of `0 .. n-1` leaves a permutation of `0 .. n-2`. */
  lemma RemoveLast(perm: seq<nat>, n: nat, h: nat)
    requires n > 0 && IsPermutation(perm, n) && h < n && perm[h] == n - 1
    ensures IsPermutation(perm[..h] + perm[h + 1..], n - 1)
  {
    var rest := perm[..h] + perm[h + 1..];
    forall i | 0 <= i < n - 1
      ensures rest[i] < n - 1
    {
      var pi := if i < h then i else i + 1;
      assert rest[i] == perm[pi] && perm[pi] != perm[h];
    }
    forall i, j | 0 <= i < j < n - 1
      ensures rest[i] != rest[j]
    {
      var pi := if i < h then i else i + 1;
      var pj := if j < h then j else j + 1;
      assert rest[i] == perm[pi] && rest[j] == perm[pj];
    }
    forall k | 0 <= k < n - 1
      ensures k in rest
    {
      assert k in perm;
      var c :| 0 <= c < n && perm[c] == k;
      var r := if c < h then c else c - 1;
      assert rest[r] == k;
    }
  }

  /** Bounds on the entries of `a + b` are bounds on those of `a` and of `b`. */
  lemma ConcatBounded(a: seq<nat>, b: seq<nat>, bound: nat)
    requires forall j :: 0 <= j < |a + b| ==> (a + b)[j] < bound
    ensures forall j :: 0 <= j < |a| ==> a[j] < bound
    ensures forall j :: 0 <= j < |b| ==> b[j] < bound
  {
    forall j | 0 <= j < |a|
      ensures a[j] < bound
    {
      assert a[j] == (a + b)[j];
    }
    forall j | 0 <= j < |b|
      ensures b[j] < bound
    {
      assert b[j] == (a + b)[|a| + j];
    }
  }

  /** Picking at `a`, then position `|s| - 1`, then at `b`, where `a` and `b` stay below `|s| - 1`: the last element joins what `a + b` picks from the rest. */
  lemma GatherAroundLast<T>(s: seq<T>, a: seq<nat>, b: seq<nat>)
    requires |s| > 0
    requires forall j :: 0 <= j < |a| ==> a[j] < |s| - 1
    requires forall j :: 0 <= j < |b| ==> b[j] < |s| - 1
    ensures multiset(Gather(s, a + ([|s| - 1] + b))) == multiset(Gather(s[..|s| - 1], a + b)) + multiset{s[|s| - 1]}
  {
    var last: seq<nat> := [|s| - 1];
    GatherConcat(s, a, last + b);
    GatherConcat(s, last, b);
    GatherConcat(s, a, b);
    GatherPrefix(s, |s| - 1, a + b);
    assert Gather(s, last) == [s[|s| - 1]];
  }

  lemma SplitAt<T>(s: seq<T>, h: nat)
    requires h < |s|
    ensures s == s[..h] + ([s[h]] + s[h + 1..])
  {
  }

  lemma MultisetLast<T>(s: seq<T>)
    requires |s| > 0
    ensures multiset(s) == multiset(s[..|s| - 1]) + multiset{s[|s| - 1]}
  {
    assert s == s[..|s| - 1] + [s[|s| - 1]];
  }

  /** Picking along a permutation rearranges the sequence: the same elements, as often as before. */
  lemma {:induction false} GatherPermutation<T>(s: seq<T>, perm: seq<nat>)
    requires IsPermutation(perm, |s|)
    ensures multiset(Gather(s, perm)) == multiset(s)
  {
    var n := |s|;
    if n > 0 {
      assert n - 1 in perm;
      var h := FirstIndex(perm, n - 1);
      var a, b := perm[..h], perm[h + 1..];
      SplitAt(perm, h);
      RemoveLast(perm, n, h);
      ConcatBounded(a, b, n - 1);
      GatherAroundLast(s, a, b);
      GatherPermutation(s[..n - 1], a + b);
      MultisetLast(s);
    }
  }

  /** Training and test positions are positions of the data, and together they are `perm`. */
  lemma IndicesBounded(perm: seq<nat>, n: nat)
    requires IsPermutation(perm, n)
    ensures perm == TrainIndices(perm) + TestIndices(perm)
    ensures forall j :: 0 <= j < |TrainIndices(perm)| ==> TrainIndices(perm)[j] < n
    ensures forall j :: 0 <= j < |TestIndices(perm)| ==> TestIndices(perm)[j] < n
  {
    var m := TrainSize(n);
    forall j | 0 <= j < n - m
      ensures TestIndices(perm)[j] < n
    {
      assert TestIndices(perm)[j] == perm[m + j];
    }
  }

  /** Picking rows and labels at the same positions keeps each row with its own label. */
  lemma PairsGather<T>(x: seq<T>, y: seq<int>, p: seq<nat>)
    requires |x| == |y|
    requires forall j :: 0 <= j < |p| ==> p[j] < |x|
    ensures Pairs(Gather(x, p), Gather(y, p)) == Gather(Pairs(x, y), p)
  {
  }

  /**
   * Training and test sets together hold every labelled row of the data
   * exactly as often as the data does, and each row still carries its own
   * label.
   */
  lemma SplitKeepsRows<T>(x: seq<T>, y: seq<int>, perm: seq<nat>)
    requires |x| == |y| && IsPermutation(perm, |x|)
    ensures var d := DataSplit(x, y, perm);
      multiset(Pairs(d.xTrain, d.yTrain) + Pairs(d.xTest, d.yTest)) == multiset(Pairs(x, y))
  {
    var tr, te := TrainIndices(perm), TestIndices(perm);
    IndicesBounded(perm, |x|);
    PairsGather(x, y, tr);
    PairsGather(x, y, te);
    GatherConcat(Pairs(x, y), tr, te);
    GatherPermutation(Pairs(x, y), perm);
  }
}
