/**
 * `toArray16` (tf/lstm_conv2d.py): keeps every song with at least
 * NB_TRACKS_READ tracks, collects all of its tracks longer than NB_NOTES_READ
 * notes (tick-filtered), replaces a track whose processing raises by a
 * placeholder of NB_NOTES_READ `[-1, -1, -1]` triples, and selects the labels.
 */
module ToArray16 {
  import opened Lists
  import opened Results
  import opened Notes
  import opened Scan

  /** The `empty` list: `n` notes `[-1, -1, -1]`. */
  function Placeholder(n: nat): (p: seq<Note>)
    ensures |p| == n && forall x :: x in p ==> x == Note(-1, -1, -1)
  {
    Repeat(Note(-1, -1, -1), n)
  }

  /**
   * What one track contributes inside the `try`: the placeholder when its
   * processing against start tick `start` raises (`raises(t, start)`: the
   * loader's comparison and note attributes are not part of this model), its
   * tick-filtered notes when it has more than `n` notes, nothing otherwise.
   */
  function TrackPart(t: Track, n: nat, start: int, raises: (Track, int) -> bool): seq<seq<Note>>
  {
    if raises(t, start) then [Placeholder(n)]
    else if LongerThan(t, n) then [FromTick(t.notes, start)]
    else []
  }

  /** The tracks toArray16 collects from a sorted song. */
  function AllTracks(ts: seq<Track>, n: nat, start: int, raises: (Track, int) -> bool): (p: Sample)
    ensures |p| <= |ts|
  {
    if ts == [] then []
    else AllTracks(ts[..|ts| - 1], n, start, raises) + TrackPart(ts[|ts| - 1], n, start, raises)
  }

  /** One more scanned track, as the loop over the sorted song's tracks sees it. */
  lemma AllTracksStep(tracks: seq<Track>, k: nat, n: nat, start: int, raises: (Track, int) -> bool)
    requires k < |tracks|
    ensures AllTracks(tracks[..k + 1], n, start, raises) == AllTracks(tracks[..k], n, start, raises) + TrackPart(tracks[k], n, start, raises)
  {
    assert tracks[..k + 1][..k] == tracks[..k];
  }

  /**
   * Each collected track is the placeholder for a track that raised, or the
   * notes from the start tick of a track with more than `n` notes that did not.
   */
  lemma {:induction false} AllTracksOrigin(ts: seq<Track>, n: nat, start: int, raises: (Track, int) -> bool)
    ensures forall p :: p in AllTracks(ts, n, start, raises) ==>
      exists t :: t in ts && (if raises(t, start) then p == Placeholder(n) else LongerThan(t, n) && p == FromTick(t.notes, start))
  {
    if ts != [] {
      var init, last := ts[..|ts| - 1], ts[|ts| - 1];
      AllTracksOrigin(init, n, start, raises);
      assert ts == init + [last];
      forall p | p in AllTracks(ts, n, start, raises)
        ensures exists t :: t in ts && (if raises(t, start) then p == Placeholder(n) else LongerThan(t, n) && p == FromTick(t.notes, start))
      {
        if p in AllTracks(init, n, start, raises) {
          var t :| t in init && (if raises(t, start) then p == Placeholder(n) else LongerThan(t, n) && p == FromTick(t.notes, start));
          assert t in ts;
        } else {
          assert p in TrackPart(last, n, start, raises);
          assert last in ts;
        }
      }
    }
  }

  /**
   * toArray16's loop body for one song: a song with at least NB_TRACKS_READ
   * tracks is sorted and its start tick read, which raises when the sorted
   * song has no first note; otherwise all its tracks are processed and the
   * song is always collected.
   */
  function SongOutcome(s: Song, n: nat, sortByTick: Song -> Song, raises: (Track, int) -> bool): Outcome
  {
    if |s.tracks| <= TracksRead - 1 then Skipped
    else
      var sorted := sortByTick(s);
      match StartTick(sorted)
      case Err(_) => Raised
      case Ok(start) => Collected(AllTracks(sorted.tracks, n, start, raises))
  }

  /** The outcomes of the first `i` songs, in order. */
  function Outcomes(songs: seq<Song>, n: nat, sortByTick: Song -> Song, raises: (Track, int) -> bool, i: nat := |songs|): (outs: seq<Outcome>)
    requires i <= |songs|
    ensures |outs| == i
  {
    if i == 0 then [] else Outcomes(songs, n, sortByTick, raises, i - 1) + [SongOutcome(songs[i - 1], n, sortByTick, raises)]
  }

  lemma {:induction false} OutcomeAt(songs: seq<Song>, n: nat, sortByTick: Song -> Song, raises: (Track, int) -> bool, i: nat, k: nat := |songs|)
    requires i < k <= |songs|
    ensures Outcomes(songs, n, sortByTick, raises, k)[i] == SongOutcome(songs[i], n, sortByTick, raises)
  {
    if i < k - 1 {
      OutcomeAt(songs, n, sortByTick, raises, i, k - 1);
    }
  }

  /** What `toArray16(X, y)` returns, or the exception it raises. */
  function ToArray16Spec(songs: seq<Song>, y: seq<int>, n: nat, sortByTick: Song -> Song, raises: (Track, int) -> bool): Result<Windows>
  {
    Assemble(songs, Outcomes(songs, n, sortByTick, raises), y, n)
  }

  /** The loop over the tracks of one sorted song, each processed inside `try ... except`. */
  method CollectTracks(tracks: seq<Track>, n: nat, start: int, raises: (Track, int) -> bool) returns (tmp: Sample)
    ensures tmp == AllTracks(tracks, n, start, raises)
  {
    var empty := Placeholder(n);
    tmp := [];
    var k := 0;
    while k < |tracks|
      invariant k <= |tracks|
      invariant tmp == AllTracks(tracks[..k], n, start, raises)
    {
      var track := tracks[k];
      AllTracksStep(tracks, k, n, start, raises);
      if raises(track, start) {
        tmp := tmp + [empty];
      } else if LongerThan(track, n) {
        var tmpTrack := NotesFrom(track.notes, start);
        tmp := tmp + [tmpTrack];
      }
      k := k + 1;
    }
    assert tracks[..k] == tracks;
  }

  /**
   * The body of toArray16's loop for one song: whether reading its start
   * tick raises, and otherwise the tracks collected from it.
   */
  method SongStep(song: Song, n: nat, sortByTick: Song -> Song, raises: (Track, int) -> bool, ghost o: Outcome) returns (crashed: bool, tmp: Sample)
    requires o == SongOutcome(song, n, sortByTick, raises)
    ensures crashed == o.Raised?
    ensures !crashed ==> (o.Collected? <==> |song.tracks| > TracksRead - 1)
    ensures o.Collected? ==> tmp == o.sample
  {
    crashed, tmp := false, [];
    if |song.tracks| > TracksRead - 1 {
      var sorted := sortByTick(song);
      if |sorted.tracks| == 0 || |sorted.tracks[0].notes| == 0 {
        return true, [];
      }
      var start := sorted.tracks[0].notes[0].duration;
      tmp := CollectTracks(sorted.tracks, n, start, raises);
    }
  }

  /** One turn of toArray16's loop over the songs, on the lists built so far. */
  method ScanStep(songs: seq<Song>, n: nat, sortByTick: Song -> Song, raises: (Track, int) -> bool, i: nat, kept: seq<Sample>, inds: seq<nat>)
    returns (crashed: bool, kept': seq<Sample>, inds': seq<nat>)
    requires i < |songs|
    requires kept == SamplesUpTo(Outcomes(songs, n, sortByTick, raises), i)
    requires inds == IndicesUpTo(songs, Outcomes(songs, n, sortByTick, raises), i)
    ensures crashed == Outcomes(songs, n, sortByTick, raises)[i].Raised?
    ensures kept' == SamplesUpTo(Outcomes(songs, n, sortByTick, raises), i + 1)
    ensures inds' == IndicesUpTo(songs, Outcomes(songs, n, sortByTick, raises), i + 1)
  {
    ghost var outs := Outcomes(songs, n, sortByTick, raises);
    OutcomeAt(songs, n, sortByTick, raises, i);
    var tmp;
    crashed, tmp := SongStep(songs[i], n, sortByTick, raises, outs[i]);
    kept', inds' := kept, inds;
    if !crashed && |songs[i].tracks| > TracksRead - 1 {
      kept' := kept + [tmp];
      inds' := inds + [FirstIndex(songs, songs[i])];
    }
  }

  /**
   * toArray16's loop over the songs: it stops at the first song whose start
   * tick cannot be read, and otherwise collects the sample and `X.index` of
   * every song with at least NB_TRACKS_READ tracks.
   */
  method ScanSongs(songs: seq<Song>, n: nat, sortByTick: Song -> Song, raises: (Track, int) -> bool)
    returns (crashed: bool, kept: seq<Sample>, inds: seq<nat>)
    ensures crashed == AnyRaised(Outcomes(songs, n, sortByTick, raises))
    ensures !crashed ==> kept == SamplesUpTo(Outcomes(songs, n, sortByTick, raises), |songs|)
    ensures !crashed ==> inds == IndicesUpTo(songs, Outcomes(songs, n, sortByTick, raises), |songs|)
  {
    kept, inds := [], [];
    var i := 0;
    while i < |songs|
      invariant i <= |songs|
      invariant forall h :: 0 <= h < i ==> !Outcomes(songs, n, sortByTick, raises)[h].Raised?
      invariant kept == SamplesUpTo(Outcomes(songs, n, sortByTick, raises), i)
      invariant inds == IndicesUpTo(songs, Outcomes(songs, n, sortByTick, raises), i)
    {
      crashed, kept, inds := ScanStep(songs, n, sortByTick, raises, i, kept, inds);
      if crashed {
        return;
      }
      i := i + 1;
    }
    crashed := false;
  }

  /** toArray16 itself: the loop over the songs, then the cut to `n` notes and the label selection. */
  method ToArray16(songs: seq<Song>, y: seq<int>, n: nat, sortByTick: Song -> Song, raises: (Track, int) -> bool)
    returns (r: Result<Windows>)
    ensures r == ToArray16Spec(songs, y, n, sortByTick, raises)
  {
    var crashed, kept, inds := ScanSongs(songs, n, sortByTick, raises);
    if crashed {
      return Err(IndexError);
    }
    var labels := Labels(y, inds);
    if labels.Err? {
      return Err(labels.error);
    }
    return Ok(Windows(Truncated(kept, n), labels.value));
  }

  /**
   * Unlike toArray, toArray16 collects every song with at least
   * NB_TRACKS_READ tracks whose start tick can be read, however few of its
   * tracks are long enough.
   */
  lemma SongCollected(s: Song, n: nat, sortByTick: Song -> Song, raises: (Track, int) -> bool)
    ensures SongOutcome(s, n, sortByTick, raises).Collected? <==>
              |s.tracks| >= TracksRead && StartTick(sortByTick(s)).Ok?
    ensures SongOutcome(s, n, sortByTick, raises).Raised? <==>
              |s.tracks| >= TracksRead && StartTick(sortByTick(s)).Err?
  {
  }

  /**
   * Every track of a toArray16 sample is either the NB_NOTES_READ-note
   * placeholder, standing for a track that raised, or at most `n` notes of a
   * track longer than `n`, all starting at or after the song's start tick;
   * a sample has at most as many tracks as its song.
   */
  lemma {:induction false} ToArray16Tracks(songs: seq<Song>, y: seq<int>, n: nat, sortByTick: Song -> Song, raises: (Track, int) -> bool, j: nat, t: nat)
    requires ToArray16Spec(songs, y, n, sortByTick, raises).Ok?
    requires j < |ToArray16Spec(songs, y, n, sortByTick, raises).value.samples|
    requires t < |ToArray16Spec(songs, y, n, sortByTick, raises).value.samples[j]|
    ensures var w := ToArray16Spec(songs, y, n, sortByTick, raises).value;
      var p := KeptUpTo(Outcomes(songs, n, sortByTick, raises), |songs|)[j];
      && p < |songs|
      && SongOutcome(songs[p], n, sortByTick, raises).Collected?
      && var sorted := sortByTick(songs[p]);
      && |w.samples[j]| <= |sorted.tracks|
      && |w.samples[j][t]| <= n
      && exists tr :: tr in sorted.tracks &&
           if raises(tr, sorted.tracks[0].notes[0].duration) then w.samples[j][t] == Placeholder(n)
           else && LongerThan(tr, n)
                && w.samples[j][t] == Take(FromTick(tr.notes, sorted.tracks[0].notes[0].duration), n)
  {
    var outs := Outcomes(songs, n, sortByTick, raises);
    var w := ToArray16Spec(songs, y, n, sortByTick, raises).value;
    AssembleKept(songs, outs, y, n);
    var p := KeptUpTo(outs, |songs|)[j];
    OutcomeAt(songs, n, sortByTick, raises, p);
    var sorted := sortByTick(songs[p]);
    var start := sorted.tracks[0].notes[0].duration;
    var all := AllTracks(sorted.tracks, n, start, raises);
    assert outs[p].sample == all;
    AllTracksOrigin(sorted.tracks, n, start, raises);
    assert all[t] in all;
    var tr :| tr in sorted.tracks &&
      (if raises(tr, start) then all[t] == Placeholder(n) else LongerThan(tr, n) && all[t] == FromTick(tr.notes, start));
    assert w.samples[j][t] == Take(all[t], n);
  }
}
