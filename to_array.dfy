/**
 * `toArray` (tf/lstm_conv2d.py): keeps each song with more than two tracks
 * whose three first tracks longer than NB_NOTES_READ notes can be found, cuts
 * those tracks to the notes starting at the song's start tick and to
 * NB_NOTES_READ notes, and selects the label of every kept song.
 */
module ToArray {
  import opened Lists
  import opened Results
  import opened Notes
  import opened Scan

  /** The notes from tick `start` on of each track, in order. */
  function FromTickAll(q: seq<Track>, start: int): (p: Sample)
    ensures |p| == |q| && forall t :: 0 <= t < |q| ==> p[t] == FromTick(q[t].notes, start)
  {
    if q == [] then [] else FromTickAll(q[..|q| - 1], start) + [FromTick(q[|q| - 1].notes, start)]
  }

  lemma FromTickAllSnoc(q: seq<Track>, tr: Track, start: int)
    ensures FromTickAll(q + [tr], start) == FromTickAll(q, start) + [FromTick(tr.notes, start)]
  {
    assert (q + [tr])[..|q|] == q;
  }

  /** The tracks toArray collects from a sorted song: the first three with more than `n` notes, tick-filtered. */
  function Picked(ts: seq<Track>, n: nat, start: int): (p: Sample)
    ensures |p| == |FirstThree(ts, n)|
  {
    FromTickAll(FirstThree(ts, n), start)
  }

  lemma PickedSnoc(ts: seq<Track>, tr: Track, n: nat, start: int)
    ensures Picked(ts + [tr], n, start) ==
              if LongerThan(tr, n) && |Picked(ts, n, start)| < 3
              then Picked(ts, n, start) + [FromTick(tr.notes, start)]
              else Picked(ts, n, start)
  {
    FirstThreeSnoc(ts, tr, n);
    FromTickAllSnoc(FirstThree(ts, n), tr, start);
  }

  /** One more scanned track, as the loop over the sorted song's tracks sees it. */
  lemma PickedStep(tracks: seq<Track>, k: nat, n: nat, start: int)
    requires k < |tracks|
    ensures Picked(tracks[..k + 1], n, start) ==
              if LongerThan(tracks[k], n) && |Picked(tracks[..k], n, start)| < 3
              then Picked(tracks[..k], n, start) + [FromTick(tracks[k].notes, start)]
              else Picked(tracks[..k], n, start)
  {
    assert tracks[..k + 1] == tracks[..k] + [tracks[k]];
    PickedSnoc(tracks[..k], tracks[k], n, start);
  }

  /**
   * toArray's loop body for one song: a song with more than two tracks is
   * sorted and its start tick read, which raises when the sorted song has no
   * first note; the song is collected when NB_TRACKS_READ tracks were taken.
   */
  function SongOutcome(s: Song, n: nat, sortByTick: Song -> Song): Outcome
  {
    if |s.tracks| <= 2 then Skipped
    else
      var sorted := sortByTick(s);
      match StartTick(sorted)
      case Err(_) => Raised
      case Ok(start) =>
        var tmp := Picked(sorted.tracks, n, start);
        if |tmp| == TracksRead then Collected(tmp) else Skipped
  }

  /** The outcomes of the first `i` songs, in order. */
  function Outcomes(songs: seq<Song>, n: nat, sortByTick: Song -> Song, i: nat := |songs|): (outs: seq<Outcome>)
    requires i <= |songs|
    ensures |outs| == i
  {
    if i == 0 then [] else Outcomes(songs, n, sortByTick, i - 1) + [SongOutcome(songs[i - 1], n, sortByTick)]
  }

  lemma {:induction false} OutcomeAt(songs: seq<Song>, n: nat, sortByTick: Song -> Song, i: nat, k: nat := |songs|)
    requires i < k <= |songs|
    ensures Outcomes(songs, n, sortByTick, k)[i] == SongOutcome(songs[i], n, sortByTick)
  {
    if i < k - 1 {
      OutcomeAt(songs, n, sortByTick, i, k - 1);
    }
  }

  /** What `toArray(X, y)` returns, or the exception it raises. */
  function ToArraySpec(songs: seq<Song>, y: seq<int>, n: nat, sortByTick: Song -> Song): Result<Windows>
  {
    Assemble(songs, Outcomes(songs, n, sortByTick), y, n)
  }

  lemma PickedAll(tracks: seq<Track>, n: nat, start: int)
    ensures Picked(tracks[..|tracks|], n, start) == Picked(tracks, n, start)
  {
    assert tracks[..|tracks|] == tracks;
  }

  /** One turn of the loop over the tracks: track `k` is taken while fewer than three were. */
  method TrackStep(tracks: seq<Track>, n: nat, start: int, k: nat, tmp: Sample, cmpt: nat) returns (tmp': Sample, cmpt': nat)
    requires k < |tracks| && tmp == Picked(tracks[..k], n, start) && cmpt == |tmp|
    ensures tmp' == Picked(tracks[..k + 1], n, start) && cmpt' == |tmp'|
  {
    var track := tracks[k];
    PickedStep(tracks, k, n, start);
    tmp', cmpt' := tmp, cmpt;
    if LongerThan(track, n) && cmpt < 3 {
      var tmpTrack := NotesFrom(track.notes, start);
      cmpt' := cmpt + 1;
      tmp' := tmp + [tmpTrack];
    }
  }

  /**
   * The loop over the tracks of one sorted song with its counter `cmpt`:
   * it collects the tick-filtered notes of the first three tracks longer than `n` notes.
   */
  method CollectTracks(tracks: seq<Track>, n: nat, start: int) returns (tmp: Sample, cmpt: nat)
    ensures tmp == Picked(tracks, n, start) && cmpt == |tmp|
  {
    tmp := [];
    cmpt := 0;
    var k := 0;
    while k < |tracks|
      invariant k <= |tracks|
      invariant tmp == Picked(tracks[..k], n, start)
      invariant cmpt == |tmp|
    {
      tmp, cmpt := TrackStep(tracks, n, start, k, tmp, cmpt);
      k := k + 1;
    }
    PickedAll(tracks, n, start);
  }

  /**
   * The body of toArray's loop for one song: whether reading its start tick
   * raises, and otherwise the tracks collected and their count `cmpt`.
   */
  method SongStep(song: Song, n: nat, sortByTick: Song -> Song, ghost o: Outcome) returns (crashed: bool, tmp: Sample, cmpt: nat)
    requires o == SongOutcome(song, n, sortByTick)
    ensures crashed == o.Raised?
    ensures !crashed ==> (cmpt == TracksRead <==> o.Collected?)
    ensures o.Collected? ==> tmp == o.sample
  {
    crashed, tmp, cmpt := false, [], 0;
    if |song.tracks| > 2 {
      var sorted := sortByTick(song);
      if |sorted.tracks| == 0 || |sorted.tracks[0].notes| == 0 {
        return true, [], 0;
      }
      var start := sorted.tracks[0].notes[0].duration;
      tmp, cmpt := CollectTracks(sorted.tracks, n, start);
    }
  }

  /** One turn of toArray's loop over the songs, on the lists built so far. */
  method ScanStep(songs: seq<Song>, n: nat, sortByTick: Song -> Song, i: nat, kept: seq<Sample>, inds: seq<nat>)
    returns (crashed: bool, kept': seq<Sample>, inds': seq<nat>)
    requires i < |songs|
    requires kept == SamplesUpTo(Outcomes(songs, n, sortByTick), i)
    requires inds == IndicesUpTo(songs, Outcomes(songs, n, sortByTick), i)
    ensures crashed == Outcomes(songs, n, sortByTick)[i].Raised?
    ensures kept' == SamplesUpTo(Outcomes(songs, n, sortByTick), i + 1)
    ensures inds' == IndicesUpTo(songs, Outcomes(songs, n, sortByTick), i + 1)
  {
    ghost var outs := Outcomes(songs, n, sortByTick);
    OutcomeAt(songs, n, sortByTick, i);
    var tmp, cmpt;
    crashed, tmp, cmpt := SongStep(songs[i], n, sortByTick, outs[i]);
    kept', inds' := kept, inds;
    if !crashed && cmpt == TracksRead {
      kept' := kept + [tmp];
      inds' := inds + [FirstIndex(songs, songs[i])];
    }
  }

  /**
   * toArray's loop over the songs: it stops at the first song whose start
   * tick cannot be read, and otherwise collects the sample and `X.index` of
   * every song that yields NB_TRACKS_READ tracks.
   */
  method ScanSongs(songs: seq<Song>, n: nat, sortByTick: Song -> Song) returns (crashed: bool, kept: seq<Sample>, inds: seq<nat>)
    ensures crashed == AnyRaised(Outcomes(songs, n, sortByTick))
    ensures !crashed ==> kept == SamplesUpTo(Outcomes(songs, n, sortByTick), |songs|)
    ensures !crashed ==> inds == IndicesUpTo(songs, Outcomes(songs, n, sortByTick), |songs|)
  {
    kept, inds := [], [];
    var i := 0;
    while i < |songs|
      invariant i <= |songs|
      invariant forall h :: 0 <= h < i ==> !Outcomes(songs, n, sortByTick)[h].Raised?
      invariant kept == SamplesUpTo(Outcomes(songs, n, sortByTick), i)
      invariant inds == IndicesUpTo(songs, Outcomes(songs, n, sortByTick), i)
    {
      crashed, kept, inds := ScanStep(songs, n, sortByTick, i, kept, inds);
      if crashed {
        return;
      }
      i := i + 1;
    }
    crashed := false;
  }

  /** toArray itself: the loop over the songs, then the cut to `n` notes and the label selection. */
  method ToArray(songs: seq<Song>, y: seq<int>, n: nat, sortByTick: Song -> Song) returns (r: Result<Windows>)
    ensures r == ToArraySpec(songs, y, n, sortByTick)
  {
    var crashed, kept, inds := ScanSongs(songs, n, sortByTick);
    if crashed {
      return Err(IndexError);
    }
    var labels := Labels(y, inds);
    if labels.Err? {
      return Err(labels.error);
    }
    return Ok(Windows(Truncated(kept, n), labels.value));
  }

  /** A song raises exactly when it has more than two tracks and its sorted form has no first note. */
  lemma SongRaises(s: Song, n: nat, sortByTick: Song -> Song)
    ensures SongOutcome(s, n, sortByTick).Raised? <==>
              |s.tracks| > 2 && (|sortByTick(s).tracks| == 0 || |sortByTick(s).tracks[0].notes| == 0)
  {
  }

  /**
   * A song is collected exactly when it has more than two tracks, its sorted
   * form has a first note, and at least NB_TRACKS_READ of its sorted tracks
   * have more than `n` notes.
   */
  lemma SongCollected(s: Song, n: nat, sortByTick: Song -> Song)
    ensures SongOutcome(s, n, sortByTick).Collected? <==>
              && |s.tracks| > 2
              && StartTick(sortByTick(s)).Ok?
              && |Qualifying(sortByTick(s).tracks, n)| >= TracksRead
  {
  }

  /**
   * A collected song yields NB_TRACKS_READ tracks: the first three of its
   * sorted tracks with more than `n` notes, in order, each holding only
   * notes of that track that start at or after the start tick.
   */
  lemma {:induction false} KeptSample(s: Song, n: nat, sortByTick: Song -> Song)
    requires SongOutcome(s, n, sortByTick).Collected?
    ensures var sorted := sortByTick(s);
      var start := sorted.tracks[0].notes[0].duration;
      var q := Qualifying(sorted.tracks, n);
      var sample := SongOutcome(s, n, sortByTick).sample;
      && |q| >= TracksRead
      && |sample| == TracksRead
      && forall t :: 0 <= t < TracksRead ==>
           && q[t] in sorted.tracks && LongerThan(q[t], n)
           && sample[t] == FromTick(q[t].notes, start)
           && forall x :: x in sample[t] ==> x in q[t].notes && x.tick >= start
  {
    var sorted := sortByTick(s);
    var start := StartTick(sorted).value;
    var q := Qualifying(sorted.tracks, n);
    QualifyingMembers(sorted.tracks, n);
    forall t | 0 <= t < TracksRead
      ensures forall x :: x in FromTick(q[t].notes, start) ==> x in q[t].notes && x.tick >= start
    {
      assert q[t] in q;
      FromTickMembers(q[t].notes, start);
    }
  }

  /**
   * Every sample toArray returns comes from a collected song and has exactly
   * NB_TRACKS_READ tracks, each at most `n` notes long.
   */
  lemma ToArrayShape(songs: seq<Song>, y: seq<int>, n: nat, sortByTick: Song -> Song, j: nat)
    requires ToArraySpec(songs, y, n, sortByTick).Ok?
    requires j < |ToArraySpec(songs, y, n, sortByTick).value.samples|
    ensures j < |KeptUpTo(Outcomes(songs, n, sortByTick), |songs|)|
    ensures KeptUpTo(Outcomes(songs, n, sortByTick), |songs|)[j] < |songs|
    ensures SongOutcome(songs[KeptUpTo(Outcomes(songs, n, sortByTick), |songs|)[j]], n, sortByTick).Collected?
    ensures |ToArraySpec(songs, y, n, sortByTick).value.samples[j]| == TracksRead
    ensures forall t :: 0 <= t < TracksRead ==> |ToArraySpec(songs, y, n, sortByTick).value.samples[j][t]| <= n
  {
    var outs := Outcomes(songs, n, sortByTick);
    AssembleKept(songs, outs, y, n);
    var p := KeptUpTo(outs, |songs|)[j];
    OutcomeAt(songs, n, sortByTick, p);
    KeptSample(songs[p], n, sortByTick);
  }

  /**
   * Every note of a sample toArray returns starts at or after the duration of
   * the first note of its song's first sorted track.
   */
  lemma ToArrayTicks(songs: seq<Song>, y: seq<int>, n: nat, sortByTick: Song -> Song, j: nat)
    requires ToArraySpec(songs, y, n, sortByTick).Ok?
    requires j < |ToArraySpec(songs, y, n, sortByTick).value.samples|
    ensures j < |KeptUpTo(Outcomes(songs, n, sortByTick), |songs|)|
    ensures KeptUpTo(Outcomes(songs, n, sortByTick), |songs|)[j] < |songs|
    ensures SongOutcome(songs[KeptUpTo(Outcomes(songs, n, sortByTick), |songs|)[j]], n, sortByTick).Collected?
    ensures forall t, x :: 0 <= t < |ToArraySpec(songs, y, n, sortByTick).value.samples[j]| &&
                           x in ToArraySpec(songs, y, n, sortByTick).value.samples[j][t] ==>
              x.tick >= sortByTick(songs[KeptUpTo(Outcomes(songs, n, sortByTick), |songs|)[j]]).tracks[0].notes[0].duration
  {
    var outs := Outcomes(songs, n, sortByTick);
    var w := ToArraySpec(songs, y, n, sortByTick).value;
    AssembleKept(songs, outs, y, n);
    var p := KeptUpTo(outs, |songs|)[j];
    OutcomeAt(songs, n, sortByTick, p);
    KeptSample(songs[p], n, sortByTick);
    forall t, x | 0 <= t < |w.samples[j]| && x in w.samples[j][t]
      ensures x.tick >= sortByTick(songs[p]).tracks[0].notes[0].duration
    {
      var track := SongOutcome(songs[p], n, sortByTick).sample[t];
      assert w.samples[j][t] == Take(track, n);
      TakeMembers(track, n);
    }
  }

  /**
   * toArray raises exactly when some song with more than two tracks has no
   * first note after sorting, or some collected song's `X.index` is past the
   * end of `y`.
   */
  lemma ToArrayFails(songs: seq<Song>, y: seq<int>, n: nat, sortByTick: Song -> Song)
    ensures ToArraySpec(songs, y, n, sortByTick).Err? <==>
      || (exists i :: 0 <= i < |songs| && SongOutcome(songs[i], n, sortByTick).Raised?)
      || (exists i :: 0 <= i < |songs| && SongOutcome(songs[i], n, sortByTick).Collected? && FirstIndex(songs, songs[i]) >= |y|)
  {
    var outs := Outcomes(songs, n, sortByTick);
    AssembleFails(songs, outs, y, n);
    forall i | 0 <= i < |songs|
      ensures outs[i] == SongOutcome(songs[i], n, sortByTick)
    {
      OutcomeAt(songs, n, sortByTick, i);
    }
  }
}
