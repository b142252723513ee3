/**
 * What toArray and toArray16 (tf/lstm_conv2d.py) do with the result of their
 * loop body for each song: an IndexError from one song ends the call;
 * otherwise the collected samples are kept in input order, each cut to its
 * first `n` notes per track, and labelled with `y` at `X.index(song)`.
 */
module Scan {
  import opened Lists
  import opened Results
  import opened Notes

  /** What the loop body does with one song: it raises, it drops the song, or it collects a sample. */
  datatype Outcome = Raised | Skipped | Collected(sample: Sample)

  /** The positions below `i` whose song was collected, in input order. */
  function KeptUpTo(outs: seq<Outcome>, i: nat): (ps: seq<nat>)
    requires i <= |outs|
    ensures |ps| <= i
    ensures forall j :: 0 <= j < |ps| ==> ps[j] < i && outs[ps[j]].Collected?
  {
    if i == 0 then []
    else KeptUpTo(outs, i - 1) + (if outs[i - 1].Collected? then [i - 1] else [])
  }

  /** `X_train_tmp` after the first `i` songs. */
  function SamplesUpTo(outs: seq<Outcome>, i: nat): (r: seq<Sample>)
    requires i <= |outs|
    ensures |r| == |KeptUpTo(outs, i)|
  {
    if i == 0 then []
    else SamplesUpTo(outs, i - 1) + (if outs[i - 1].Collected? then [outs[i - 1].sample] else [])
  }

  /** `indsTrain` after the first `i` songs: `X.index(song)` of each collected song. */
  function IndicesUpTo(songs: seq<Song>, outs: seq<Outcome>, i: nat): (r: seq<nat>)
    requires |outs| == |songs| && i <= |outs|
    ensures |r| == |KeptUpTo(outs, i)|
  {
    if i == 0 then []
    else IndicesUpTo(songs, outs, i - 1) + (if outs[i - 1].Collected? then [FirstIndex(songs, songs[i - 1])] else [])
  }

  /** Some song raised. */
  predicate AnyRaised(outs: seq<Outcome>)
  {
    exists i | 0 <= i < |outs| :: outs[i].Raised?
  }

  /** Some collected song's `X.index` is past the end of `y`. */
  predicate AnyLabelMissing(songs: seq<Song>, outs: seq<Outcome>, y: seq<int>)
    requires |outs| == |songs|
  {
    exists i | 0 <= i < |outs| :: outs[i].Collected? && FirstIndex(songs, songs[i]) >= |y|
  }

  /** The function's result from the per-song outcomes `outs` of `songs`. */
  function Assemble(songs: seq<Song>, outs: seq<Outcome>, y: seq<int>, n: nat): Result<Windows>
    requires |outs| == |songs|
  {
    if AnyRaised(outs) then Err(IndexError)
    else
      match Labels(y, IndicesUpTo(songs, outs, |outs|))
      case Err(e) => Err(e)
      case Ok(labels) => Ok(Windows(Truncated(SamplesUpTo(outs, |outs|), n), labels))
  }

  /** The kept positions below `i` are exactly the collected songs, each once, in increasing order. */
  lemma {:induction false} KeptExact(outs: seq<Outcome>, i: nat)
    requires i <= |outs|
    ensures forall h :: 0 <= h < i ==> (h in KeptUpTo(outs, i) <==> outs[h].Collected?)
    ensures forall j, l :: 0 <= j < l < |KeptUpTo(outs, i)| ==> KeptUpTo(outs, i)[j] < KeptUpTo(outs, i)[l]
  {
    if i > 0 {
      KeptExact(outs, i - 1);
    }
  }

  /** Sample `j` and index `j` both come from the song at kept position `j`. */
  lemma {:induction false} UpToAligned(songs: seq<Song>, outs: seq<Outcome>, i: nat)
    requires |outs| == |songs| && i <= |outs|
    ensures forall j :: 0 <= j < |KeptUpTo(outs, i)| ==>
              && SamplesUpTo(outs, i)[j] == outs[KeptUpTo(outs, i)[j]].sample
              && IndicesUpTo(songs, outs, i)[j] == FirstIndex(songs, songs[KeptUpTo(outs, i)[j]])
  {
    if i > 0 {
      UpToAligned(songs, outs, i - 1);
    }
  }

  /** A collected song appears among the kept positions. */
  lemma KeptPosition(outs: seq<Outcome>, h: nat) returns (j: nat)
    requires h < |outs| && outs[h].Collected?
    ensures j < |KeptUpTo(outs, |outs|)| && KeptUpTo(outs, |outs|)[j] == h
  {
    KeptExact(outs, |outs|);
    j :| 0 <= j < |KeptUpTo(outs, |outs|)| && KeptUpTo(outs, |outs|)[j] == h;
  }

  /** A label index past the end of `y` belongs to a collected song. */
  lemma MissingOfLabelsErr(songs: seq<Song>, outs: seq<Outcome>, y: seq<int>)
    requires |outs| == |songs| && Labels(y, IndicesUpTo(songs, outs, |outs|)).Err?
    ensures AnyLabelMissing(songs, outs, y)
  {
    var inds := IndicesUpTo(songs, outs, |outs|);
    var ps := KeptUpTo(outs, |outs|);
    UpToAligned(songs, outs, |outs|);
    var j :| 0 <= j < |inds| && inds[j] >= |y|;
    assert outs[ps[j]].Collected? && FirstIndex(songs, songs[ps[j]]) >= |y|;
  }

  /** A collected song whose `X.index` is past the end of `y` makes the label selection raise. */
  lemma LabelsErrOfMissing(songs: seq<Song>, outs: seq<Outcome>, y: seq<int>)
    requires |outs| == |songs| && AnyLabelMissing(songs, outs, y)
    ensures Labels(y, IndicesUpTo(songs, outs, |outs|)).Err?
  {
    var h :| 0 <= h < |outs| && outs[h].Collected? && FirstIndex(songs, songs[h]) >= |y|;
    var j := KeptPosition(outs, h);
    UpToAligned(songs, outs, |outs|);
    assert IndicesUpTo(songs, outs, |outs|)[j] >= |y|;
  }

  /** The call raises exactly when some song raised or some collected song's `X.index` is past the end of `y`. */
  lemma AssembleFails(songs: seq<Song>, outs: seq<Outcome>, y: seq<int>, n: nat)
    requires |outs| == |songs|
    ensures Assemble(songs, outs, y, n).Err? <==> AnyRaised(outs) || AnyLabelMissing(songs, outs, y)
    ensures Assemble(songs, outs, y, n).Err? ==> Assemble(songs, outs, y, n).error == IndexError
  {
    if !AnyRaised(outs) {
      if Labels(y, IndicesUpTo(songs, outs, |outs|)).Err? {
        MissingOfLabelsErr(songs, outs, y);
      }
      if AnyLabelMissing(songs, outs, y) {
        LabelsErrOfMissing(songs, outs, y);
      }
    }
  }

  /**
   * On success the call returns one sample per collected song, in input
   * order: the song's sample cut to `n` notes per track, labelled with `y` at
   * the song's first position `X.index(song)`.
   */
  lemma AssembleKept(songs: seq<Song>, outs: seq<Outcome>, y: seq<int>, n: nat)
    requires |outs| == |songs| && Assemble(songs, outs, y, n).Ok?
    ensures var w := Assemble(songs, outs, y, n).value;
      var ps := KeptUpTo(outs, |outs|);
      && |w.samples| == |w.labels| == |ps| <= |songs|
      && (forall j, l :: 0 <= j < l < |ps| ==> ps[j] < ps[l])
      && (forall h :: 0 <= h < |songs| ==> (h in ps <==> outs[h].Collected?))
      && (forall j :: 0 <= j < |ps| ==>
            && outs[ps[j]].Collected?
            && w.samples[j] == Cut(outs[ps[j]].sample, n)
            && FirstIndex(songs, songs[ps[j]]) <= ps[j]
            && FirstIndex(songs, songs[ps[j]]) < |y|
            && w.labels[j] == y[FirstIndex(songs, songs[ps[j]])])
  {
    KeptExact(outs, |outs|);
    UpToAligned(songs, outs, |outs|);
  }

  /** With distinct songs `X.index(song)` is the song's own position, so each label is `y` at that position. */
  lemma AssembleDistinct(songs: seq<Song>, outs: seq<Outcome>, y: seq<int>, n: nat)
    requires |outs| == |songs| && Assemble(songs, outs, y, n).Ok?
    requires forall i, j :: 0 <= i < j < |songs| ==> songs[i] != songs[j]
    ensures var w := Assemble(songs, outs, y, n).value;
      var ps := KeptUpTo(outs, |outs|);
      forall j :: 0 <= j < |ps| ==> ps[j] < |y| && w.labels[j] == y[ps[j]]
  {
    UpToAligned(songs, outs, |outs|);
  }

  /** No song raised and `y` covers every song: the call succeeds. */
  lemma AssembleSucceeds(songs: seq<Song>, outs: seq<Outcome>, y: seq<int>, n: nat)
    requires |outs| == |songs| && !AnyRaised(outs) && |y| >= |songs|
    ensures Assemble(songs, outs, y, n).Ok?
  {
    AssembleFails(songs, outs, y, n);
  }
}
