/**
 * `toArray2` (tf/lstm_conv2d.py): "collect more batches". No sorting and no
 * tick filter: a song with at least NB_TRACKS_READ tracks and three tracks
 * longer than NB_NOTES_READ notes gives a first window of those tracks' first
 * notes, and a second window of their notes `[N, 2N)` when all three are longer
 * than `2N`; both windows carry the song's label.
 */
module ToArray2 {
  import opened Lists
  import opened Results
  import opened Notes

  /** The notes of each track, in order. */
  function NotesOf(q: seq<Track>): (w: Sample)
    ensures |w| == |q| && forall t :: 0 <= t < |q| ==> w[t] == q[t].notes
  {
    if q == [] then [] else NotesOf(q[..|q| - 1]) + [q[|q| - 1].notes]
  }

  lemma NotesOfSnoc(q: seq<Track>, tr: Track)
    ensures NotesOf(q + [tr]) == NotesOf(q) + [tr.notes]
  {
    assert (q + [tr])[..|q|] == q;
  }

  /** Notes `[n, 2n)` of each track, in order. */
  function Middles(q: seq<Track>, n: nat): (w: Sample)
    ensures |w| == |q| && forall t :: 0 <= t < |q| ==> w[t] == Slice(q[t].notes, n, 2 * n)
  {
    if q == [] then [] else Middles(q[..|q| - 1], n) + [Slice(q[|q| - 1].notes, n, 2 * n)]
  }

  lemma MiddlesSnoc(q: seq<Track>, tr: Track, n: nat)
    ensures Middles(q + [tr], n) == Middles(q, n) + [Slice(tr.notes, n, 2 * n)]
  {
    assert (q + [tr])[..|q|] == q;
  }

  /** The tracks of the first window: every note of the first three tracks longer than `n`. */
  function FirstWindow(ts: seq<Track>, n: nat): (w: Sample)
    ensures |w| == |FirstThree(ts, n)|
  {
    NotesOf(FirstThree(ts, n))
  }

  /** The tracks of the second window: notes `[n, 2n)` of those first three that are longer than `2n`. */
  function SecondWindow(ts: seq<Track>, n: nat): (w: Sample)
    ensures |w| == |Qualifying(FirstThree(ts, n), 2 * n)|
  {
    Middles(Qualifying(FirstThree(ts, n), 2 * n), n)
  }

  lemma FirstWindowSnoc(ts: seq<Track>, tr: Track, n: nat)
    ensures FirstWindow(ts + [tr], n) ==
              if LongerThan(tr, n) && |FirstWindow(ts, n)| < 3 then FirstWindow(ts, n) + [tr.notes] else FirstWindow(ts, n)
  {
    FirstThreeSnoc(ts, tr, n);
    NotesOfSnoc(FirstThree(ts, n), tr);
  }

  lemma SecondWindowSnoc(ts: seq<Track>, tr: Track, n: nat)
    ensures SecondWindow(ts + [tr], n) ==
              if LongerThan(tr, n) && |FirstWindow(ts, n)| < 3 && LongerThan(tr, 2 * n)
              then SecondWindow(ts, n) + [Slice(tr.notes, n, 2 * n)]
              else SecondWindow(ts, n)
  {
    var f := FirstThree(ts, n);
    FirstThreeSnoc(ts, tr, n);
    QualifyingSnoc(f, tr, 2 * n);
    MiddlesSnoc(Qualifying(f, 2 * n), tr, n);
  }

  /** One more scanned track, as the loop over `song.tracks` sees it. */
  lemma WindowsStep(tracks: seq<Track>, k: nat, n: nat)
    requires k < |tracks|
    ensures FirstWindow(tracks[..k + 1], n) ==
              if LongerThan(tracks[k], n) && |FirstWindow(tracks[..k], n)| < 3
              then FirstWindow(tracks[..k], n) + [tracks[k].notes] else FirstWindow(tracks[..k], n)
    ensures SecondWindow(tracks[..k + 1], n) ==
              if LongerThan(tracks[k], n) && |FirstWindow(tracks[..k], n)| < 3 && LongerThan(tracks[k], 2 * n)
              then SecondWindow(tracks[..k], n) + [Slice(tracks[k].notes, n, 2 * n)]
              else SecondWindow(tracks[..k], n)
  {
    assert tracks[..k + 1] == tracks[..k] + [tracks[k]];
    FirstWindowSnoc(tracks[..k], tracks[k], n);
    SecondWindowSnoc(tracks[..k], tracks[k], n);
  }

  /** The samples toArray2 emits for one song: none, the first window, or both windows. */
  function SongWindows(s: Song, n: nat): (w: seq<Sample>)
    ensures |w| <= 2
  {
    if |s.tracks| >= TracksRead && |FirstWindow(s.tracks, n)| == TracksRead then
      [FirstWindow(s.tracks, n)]
      + (if |SecondWindow(s.tracks, n)| == TracksRead then [SecondWindow(s.tracks, n)] else [])
    else []
  }

  /** The windows of the first `i` songs, song by song, in input order. */
  function AllWindows(songs: seq<Song>, n: nat, i: nat := |songs|): (ws: seq<seq<Sample>>)
    requires i <= |songs|
    ensures |ws| == i
  {
    if i == 0 then [] else AllWindows(songs, n, i - 1) + [SongWindows(songs[i - 1], n)]
  }

  lemma {:induction false} AllWindowsAt(songs: seq<Song>, n: nat, i: nat, k: nat := |songs|)
    requires i < k <= |songs|
    ensures AllWindows(songs, n, k)[i] == SongWindows(songs[i], n)
  {
    var prev := AllWindows(songs, n, k - 1);
    assert AllWindows(songs, n, k) == prev + [SongWindows(songs[k - 1], n)];
    if i < k - 1 {
      AllWindowsAt(songs, n, i, k - 1);
    }
  }

  /** For each of the first `i` songs, one `X.index(song)` entry per window `ws` holds for it. */
  function AllIndices(songs: seq<Song>, ws: seq<seq<Sample>>, i: nat := |songs|): (rs: seq<seq<nat>>)
    requires |ws| == |songs| && i <= |songs|
    ensures |rs| == i
  {
    if i == 0 then [] else AllIndices(songs, ws, i - 1) + [Repeat(FirstIndex(songs, songs[i - 1]), |ws[i - 1]|)]
  }

  lemma {:induction false} AllIndicesAt(songs: seq<Song>, ws: seq<seq<Sample>>, i: nat, k: nat := |songs|)
    requires |ws| == |songs| && i < k <= |songs|
    ensures AllIndices(songs, ws, k)[i] == Repeat(FirstIndex(songs, songs[i]), |ws[i]|)
  {
    if i < k - 1 {
      AllIndicesAt(songs, ws, i, k - 1);
    }
  }

  /** Every song has as many `X.index` entries as windows. */
  lemma AllIndicesShape(songs: seq<Song>, ws: seq<seq<Sample>>)
    requires |ws| == |songs|
    ensures forall i :: 0 <= i < |songs| ==> |ws[i]| == |AllIndices(songs, ws)[i]|
  {
    forall i | 0 <= i < |songs|
      ensures |ws[i]| == |AllIndices(songs, ws)[i]|
    {
      AllIndicesAt(songs, ws, i);
    }
  }

  /**
   * The result when song `i` emits the windows `ws[i]`: all windows in input
   * order, cut to `n` notes per track, labelled with `y` at `X.index(song)`,
   * or the IndexError of a label lookup past the end of `y`.
   */
  function Emit(songs: seq<Song>, ws: seq<seq<Sample>>, y: seq<int>, n: nat): Result<Windows>
    requires |ws| == |songs|
  {
    var labels := Labels(y, Flatten<nat>(AllIndices(songs, ws), |songs|));
    if labels.Err? then Err(labels.error)
    else Ok(Windows(Truncated(Flatten(ws, |songs|), n), labels.value))
  }

  /** What `toArray2(X, y)` returns, or the exception it raises. */
  function ToArray2Spec(songs: seq<Song>, y: seq<int>, n: nat): Result<Windows>
  {
    Emit(songs, AllWindows(songs, n), y, n)
  }

  /** The loop `for note in track.notes: tmp_track.append(...)`: a copy of the track's notes. */
  method CopyNotes(notes: seq<Note>) returns (copy: seq<Note>)
    ensures copy == notes
  {
    copy := [];
    var m := 0;
    while m < |notes|
      invariant m <= |notes| && copy == notes[..m]
    {
      copy := copy + [notes[m]];
      m := m + 1;
    }
  }

  /** The loop over the tracks of one song with its two counters `cmpt` and `cmpt2`. */
  method CollectWindows(tracks: seq<Track>, n: nat) returns (tmp: Sample, tmp2: Sample, cmpt: nat, cmpt2: nat)
    ensures tmp == FirstWindow(tracks, n) && cmpt == |tmp|
    ensures tmp2 == SecondWindow(tracks, n) && cmpt2 == |tmp2|
  {
    tmp, tmp2 := [], [];
    cmpt, cmpt2 := 0, 0;
    var k := 0;
    while k < |tracks|
      invariant k <= |tracks|
      invariant tmp == FirstWindow(tracks[..k], n) && cmpt == |tmp|
      invariant tmp2 == SecondWindow(tracks[..k], n) && cmpt2 == |tmp2|
      invariant cmpt2 <= cmpt
    {
      var track := tracks[k];
      WindowsStep(tracks, k, n);
      if LongerThan(track, n) && cmpt < TracksRead {
        var tmpTrack := CopyNotes(track.notes);
        cmpt := cmpt + 1;
        tmp := tmp + [tmpTrack];
        if LongerThan(track, 2 * n) && cmpt2 < TracksRead {
          var tmpTrack2 := Slice(tmpTrack, n, 2 * n);
          cmpt2 := cmpt2 + 1;
          tmp2 := tmp2 + [tmpTrack2];
        }
      }
      k := k + 1;
    }
    assert tracks[..k] == tracks;
  }

  /**
   * The body of toArray2's loop for song `i`: the windows it appends, those of
   * `SongWindows(songs[i], n)`, and one `X.index` entry for each.
   */
  method SongStep(songs: seq<Song>, i: nat, n: nat) returns (sk: seq<Sample>, si: seq<nat>)
    requires i < |songs|
    ensures sk == AllWindows(songs, n)[i]
    ensures si == AllIndices(songs, AllWindows(songs, n))[i]
  {
    var song := songs[i];
    sk, si := [], [];
    if |song.tracks| >= TracksRead {
      var tmp, tmp2, cmpt, cmpt2 := CollectWindows(song.tracks, n);
      if cmpt == TracksRead {
        sk := sk + [tmp];
        si := si + [FirstIndex(songs, song)];
        if cmpt2 == TracksRead {
          sk := sk + [tmp2];
          si := si + [FirstIndex(songs, song)];
        }
      }
    }
    AllWindowsAt(songs, n, i);
    AllIndicesAt(songs, AllWindows(songs, n), i);
  }

  /** toArray2's loop over the songs: every song's windows and their `X.index` entries, in input order. */
  method CollectAll(songs: seq<Song>, n: nat) returns (kept: seq<Sample>, inds: seq<nat>)
    ensures kept == Flatten(AllWindows(songs, n), |songs|)
    ensures inds == Flatten<nat>(AllIndices(songs, AllWindows(songs, n)), |songs|)
  {
    kept, inds := [], [];
    var i := 0;
    while i < |songs|
      invariant i <= |songs|
      invariant kept == Flatten(AllWindows(songs, n), i)
      invariant inds == Flatten<nat>(AllIndices(songs, AllWindows(songs, n)), i)
    {
      var sk, si := SongStep(songs, i, n);
      FlattenSnoc(AllWindows(songs, n), i);
      FlattenSnoc<nat>(AllIndices(songs, AllWindows(songs, n)), i);
      kept := kept + sk;
      inds := inds + si;
      i := i + 1;
    }
  }

  /** toArray2 itself: the loop over the songs, then the cut to `n` notes and the label selection. */
  method ToArray2(songs: seq<Song>, y: seq<int>, n: nat) returns (r: Result<Windows>)
    ensures r == ToArray2Spec(songs, y, n)
  {
    var kept, inds := CollectAll(songs, n);
    var labels := Labels(y, inds);
    if labels.Err? {
      return Err(labels.error);
    }
    return Ok(Windows(Truncated(kept, n), labels.value));
  }

  /**
   * One song gives a first window exactly when it has at least NB_TRACKS_READ
   * tracks and three tracks longer than `n`: all notes of those three,
   * unfiltered.
   */
  lemma FirstWindowShape(s: Song, n: nat)
    ensures |SongWindows(s, n)| >= 1 <==> |s.tracks| >= TracksRead && |Qualifying(s.tracks, n)| >= TracksRead
    ensures |SongWindows(s, n)| >= 1 ==>
              && |SongWindows(s, n)[0]| == TracksRead
              && forall t :: 0 <= t < TracksRead ==> SongWindows(s, n)[0][t] == Qualifying(s.tracks, n)[t].notes
  {
    var q := Qualifying(s.tracks, n);
    var f := FirstThree(s.tracks, n);
    if |f| == 3 {
      assert forall t :: 0 <= t < 3 ==> f[t] == q[t];
    }
  }

  /**
   * It gives a second window exactly when, in addition, all three tracks are
   * longer than `2n`: their notes `[n, 2n)`, `n` per track.
   */
  lemma SecondWindowShape(s: Song, n: nat)
    ensures |SongWindows(s, n)| <= 2
    ensures |SongWindows(s, n)| == 2 <==>
              |SongWindows(s, n)| >= 1 && forall t :: 0 <= t < TracksRead ==> LongerThan(Qualifying(s.tracks, n)[t], 2 * n)
    ensures |SongWindows(s, n)| == 2 ==>
              && |SongWindows(s, n)[1]| == TracksRead
              && forall t :: 0 <= t < TracksRead ==>
                   |SongWindows(s, n)[1][t]| == n && SongWindows(s, n)[1][t] == Qualifying(s.tracks, n)[t].notes[n..2 * n]
  {
    var q := Qualifying(s.tracks, n);
    var f := FirstThree(s.tracks, n);
    FirstWindowShape(s, n);
    if |f| == 3 {
      assert forall t :: 0 <= t < 3 ==> f[t] == q[t];
      var l := Qualifying(f, 2 * n);
      if |l| == 3 {
        AllQualify(f, 2 * n);
        QualifyingMembers(f, 2 * n);
        forall t | 0 <= t < 3
          ensures LongerThan(q[t], 2 * n) && SecondWindow(s.tracks, n)[t] == q[t].notes[n..2 * n]
        {
          assert l[t] == q[t] && l[t] in l;
          assert Slice(q[t].notes, n, 2 * n) == q[t].notes[n..2 * n];
        }
      } else if forall t :: 0 <= t < TracksRead ==> LongerThan(q[t], 2 * n) {
        NoneDropped(f, 2 * n);
        assert false;
      }
    }
  }

  /** When the filter keeps as many tracks as it is given, it kept all of them unchanged. */
  lemma {:induction false} AllQualify(ts: seq<Track>, m: nat)
    requires |Qualifying(ts, m)| == |ts|
    ensures Qualifying(ts, m) == ts
  {
    if ts != [] {
      var init := ts[..|ts| - 1];
      assert LongerThan(ts[|ts| - 1], m);
      AllQualify(init, m);
      assert ts == init + [ts[|ts| - 1]];
    }
  }

  /** When every track is long enough, the filter keeps them all. */
  lemma {:induction false} NoneDropped(ts: seq<Track>, m: nat)
    requires forall t :: 0 <= t < |ts| ==> LongerThan(ts[t], m)
    ensures Qualifying(ts, m) == ts
  {
    if ts != [] {
      var init := ts[..|ts| - 1];
      NoneDropped(init, m);
      assert ts == init + [ts[|ts| - 1]];
    }
  }

  /** Some song that emits a window has its `X.index` past the end of `y`. */
  predicate LabelMissing(songs: seq<Song>, ws: seq<seq<Sample>>, y: seq<int>)
    requires |ws| == |songs|
  {
    exists i | 0 <= i < |songs| :: |ws[i]| > 0 && FirstIndex(songs, songs[i]) >= |y|
  }

  /** A failing label selection comes from a song that emits a window and whose `X.index` is past the end of `y`. */
  lemma MissingOfLabelsErr(songs: seq<Song>, ws: seq<seq<Sample>>, y: seq<int>)
    requires |ws| == |songs| && Labels(y, Flatten<nat>(AllIndices(songs, ws), |songs|)).Err?
    ensures LabelMissing(songs, ws, y)
  {
    var wi := AllIndices(songs, ws);
    var inds := Flatten<nat>(wi, |songs|);
    var j :| 0 <= j < |inds| && inds[j] >= |y|;
    var p, d := FlattenOrigin(wi, |songs|, j);
    FlattenAt(wi, |songs|, p, d);
    AllIndicesAt(songs, ws, p);
    assert |ws[p]| > 0 && FirstIndex(songs, songs[p]) >= |y|;
  }

  /** A song that emits a window and whose `X.index` is past the end of `y` makes the label selection fail. */
  lemma LabelsErrOfMissing(songs: seq<Song>, ws: seq<seq<Sample>>, y: seq<int>)
    requires |ws| == |songs| && LabelMissing(songs, ws, y)
    ensures Labels(y, Flatten<nat>(AllIndices(songs, ws), |songs|)).Err?
  {
    var wi := AllIndices(songs, ws);
    var i :| 0 <= i < |songs| && |ws[i]| > 0 && FirstIndex(songs, songs[i]) >= |y|;
    AllIndicesAt(songs, ws, i);
    FlattenAt(wi, |songs|, i, 0);
    assert Flatten<nat>(wi, |songs|)[|Flatten<nat>(wi, i)|] >= |y|;
  }

  /** The result is an error exactly when some song that emits a window has its `X.index` past the end of `y`. */
  lemma EmitFails(songs: seq<Song>, ws: seq<seq<Sample>>, y: seq<int>, n: nat)
    requires |ws| == |songs|
    ensures Emit(songs, ws, y, n).Err? <==> LabelMissing(songs, ws, y)
    ensures Emit(songs, ws, y, n).Err? ==> Emit(songs, ws, y, n).error == IndexError
  {
    if Labels(y, Flatten<nat>(AllIndices(songs, ws), |songs|)).Err? {
      MissingOfLabelsErr(songs, ws, y);
    }
    if LabelMissing(songs, ws, y) {
      LabelsErrOfMissing(songs, ws, y);
    }
  }

  /** There is one label per sample, and as many samples as the songs emit windows. */
  lemma EmitCounts(songs: seq<Song>, ws: seq<seq<Sample>>, y: seq<int>, n: nat, b: nat)
    requires |ws| == |songs| && Emit(songs, ws, y, n).Ok?
    requires forall i :: 0 <= i < |songs| ==> |ws[i]| <= b
    ensures |Emit(songs, ws, y, n).value.samples| == |Emit(songs, ws, y, n).value.labels|
    ensures |Emit(songs, ws, y, n).value.samples| == |Flatten(ws, |songs|)| <= b * |songs|
  {
    AllIndicesShape(songs, ws);
    FlattenSameShape<Sample, nat>(ws, AllIndices(songs, ws), |songs|);
    FlattenBound(ws, |songs|, b);
  }

  /**
   * Window `d` of song `p` is sample `|Flatten(ws, p)| + d`, after the windows of
   * the songs before it, cut to `n` notes per track, with the label `y` holds at
   * the song's first position `X.index(song)`.
   */
  lemma EmitAt(songs: seq<Song>, ws: seq<seq<Sample>>, y: seq<int>, n: nat, p: nat, d: nat)
    requires |ws| == |songs| && Emit(songs, ws, y, n).Ok?
    requires p < |songs| && d < |ws[p]|
    ensures |Flatten(ws, p)| + d < |Emit(songs, ws, y, n).value.samples|
    ensures |Emit(songs, ws, y, n).value.samples| == |Emit(songs, ws, y, n).value.labels|
    ensures Emit(songs, ws, y, n).value.samples[|Flatten(ws, p)| + d] == Cut(ws[p][d], n)
    ensures FirstIndex(songs, songs[p]) < |y|
    ensures Emit(songs, ws, y, n).value.labels[|Flatten(ws, p)| + d] == y[FirstIndex(songs, songs[p])]
  {
    var wi := AllIndices(songs, ws);
    AllIndicesShape(songs, ws);
    AllIndicesAt(songs, ws, p);
    FlattenSameShape<Sample, nat>(ws, wi, |songs|);
    FlattenAt(ws, |songs|, p, d);
    FlattenAtAligned<Sample, nat>(ws, wi, |songs|, p, d);
  }

  /** Every sample is some window of some song. */
  lemma EmitOrigin(songs: seq<Song>, ws: seq<seq<Sample>>, y: seq<int>, n: nat, j: nat) returns (p: nat, d: nat)
    requires |ws| == |songs| && Emit(songs, ws, y, n).Ok?
    requires j < |Emit(songs, ws, y, n).value.samples|
    ensures p < |songs| && d < |ws[p]| && j == |Flatten(ws, p)| + d
  {
    p, d := FlattenOrigin(ws, |songs|, j);
  }

  /**
   * toArray2 raises exactly when some song that emits a window has its
   * `X.index` past the end of `y`; the exception is an IndexError.
   */
  lemma ToArray2Fails(songs: seq<Song>, y: seq<int>, n: nat)
    ensures ToArray2Spec(songs, y, n).Err? <==>
              exists i | 0 <= i < |songs| :: |SongWindows(songs[i], n)| > 0 && FirstIndex(songs, songs[i]) >= |y|
    ensures ToArray2Spec(songs, y, n).Err? ==> ToArray2Spec(songs, y, n).error == IndexError
  {
    EmitFails(songs, AllWindows(songs, n), y, n);
    forall i | 0 <= i < |songs|
      ensures AllWindows(songs, n)[i] == SongWindows(songs[i], n)
    {
      AllWindowsAt(songs, n, i);
    }
  }

  /** toArray2 cannot fail when `y` is at least as long as `X`. */
  lemma ToArray2Succeeds(songs: seq<Song>, y: seq<int>, n: nat)
    requires |y| >= |songs|
    ensures ToArray2Spec(songs, y, n).Ok?
  {
    ToArray2Fails(songs, y, n);
  }

  /** toArray2 emits at most two samples per song and exactly one label per sample. */
  lemma ToArray2Counts(songs: seq<Song>, y: seq<int>, n: nat)
    requires ToArray2Spec(songs, y, n).Ok?
    ensures |ToArray2Spec(songs, y, n).value.samples| == |ToArray2Spec(songs, y, n).value.labels|
    ensures |ToArray2Spec(songs, y, n).value.samples| <= 2 * |songs|
  {
    forall i | 0 <= i < |songs|
      ensures |AllWindows(songs, n)[i]| <= 2
    {
      AllWindowsAt(songs, n, i);
    }
    EmitCounts(songs, AllWindows(songs, n), y, n, 2);
  }

  /**
   * Window `d` of song `p` is emitted after the windows of the songs before it,
   * cut to `n` notes per track, with the label `y` holds at the song's first
   * position `X.index(song)`.
   */
  lemma ToArray2Emits(songs: seq<Song>, y: seq<int>, n: nat, p: nat, d: nat)
    requires ToArray2Spec(songs, y, n).Ok?
    requires p < |songs| && d < |AllWindows(songs, n)[p]|
    ensures |Flatten(AllWindows(songs, n), p)| + d < |ToArray2Spec(songs, y, n).value.samples|
    ensures |ToArray2Spec(songs, y, n).value.samples| == |ToArray2Spec(songs, y, n).value.labels|
    ensures ToArray2Spec(songs, y, n).value.samples[|Flatten(AllWindows(songs, n), p)| + d]
              == Cut(AllWindows(songs, n)[p][d], n)
    ensures FirstIndex(songs, songs[p]) < |y|
    ensures ToArray2Spec(songs, y, n).value.labels[|Flatten(AllWindows(songs, n), p)| + d]
              == y[FirstIndex(songs, songs[p])]
  {
    EmitAt(songs, AllWindows(songs, n), y, n, p, d);
  }

  /** Every sample toArray2 returns is a window of some song. */
  lemma ToArray2Origin(songs: seq<Song>, y: seq<int>, n: nat, j: nat) returns (p: nat, d: nat)
    requires ToArray2Spec(songs, y, n).Ok? && j < |ToArray2Spec(songs, y, n).value.samples|
    ensures p < |songs| && d < |SongWindows(songs[p], n)| && j == |Flatten(AllWindows(songs, n), p)| + d
  {
    p, d := EmitOrigin(songs, AllWindows(songs, n), y, n, j);
    AllWindowsAt(songs, n, p);
  }
}
