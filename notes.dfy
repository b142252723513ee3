/**
 * The note-event data the sequence pipeline reads (tf/lstm_conv2d.py): a song is
 * a list of tracks, a track a list of notes, a note a (pitch, tick, duration)
 * triple. Shared by the three windowing functions toArray, toArray16, toArray2.
 */
module Notes {
  import opened Lists
  import opened Results

  datatype Note = Note(note: int, tick: int, duration: int)
  datatype Track = Track(notes: seq<Note>)
  datatype Song = Song(tracks: seq<Track>)

  /** One network input: the kept tracks of a song, each a list of note triples. */
  type Sample = seq<seq<Note>>

  /** What a windowing function returns: the samples and, aligned with them, their labels. */
  datatype Windows = Windows(samples: seq<Sample>, labels: seq<int>)

  /** NB_TRACKS_READ. */
  const TracksRead: nat := 3

  /** The loader's `track > m` comparison, read as "the track has more than `m` notes". */
  predicate LongerThan(t: Track, m: nat)
  {
    |t.notes| > m
  }

  /** `song.tracks[0].notes[0].duration`, or the IndexError Python raises when there is no such note. */
  function StartTick(s: Song): Result<int>
  {
    if |s.tracks| == 0 || |s.tracks[0].notes| == 0 then Err(IndexError)
    else Ok(s.tracks[0].notes[0].duration)
  }

  /** The notes that start at or after `start`, in their order. */
  function FromTick(notes: seq<Note>, start: int): (r: seq<Note>)
    ensures |r| <= |notes|
  {
    if notes == [] then []
    else
      var rest := FromTick(notes[..|notes| - 1], start);
      if notes[|notes| - 1].tick >= start then rest + [notes[|notes| - 1]] else rest
  }

  /** One more scanned note, as the loop over `track.notes` sees it. */
  lemma FromTickStep(notes: seq<Note>, m: nat, start: int)
    requires m < |notes|
    ensures FromTick(notes[..m + 1], start) ==
              if notes[m].tick >= start then FromTick(notes[..m], start) + [notes[m]] else FromTick(notes[..m], start)
  {
    assert notes[..m + 1][..m] == notes[..m];
  }

  /** The tick filter keeps exactly the notes starting at or after `start`. */
  lemma {:induction false} FromTickMembers(notes: seq<Note>, start: int)
    ensures forall x :: x in FromTick(notes, start) <==> x in notes && x.tick >= start
  {
    if notes != [] {
      var init := notes[..|notes| - 1];
      FromTickMembers(init, start);
      assert notes == init + [notes[|notes| - 1]];
    }
  }

  /**
   * The loop `for note in track.notes: if note.tick >= start_tick:
   * tmp_track.append([note.note, note.tick, note.duration])`.
   */
  method NotesFrom(notes: seq<Note>, start: int) returns (kept: seq<Note>)
    ensures kept == FromTick(notes, start)
  {
    kept := [];
    var m := 0;
    while m < |notes|
      invariant m <= |notes|
      invariant kept == FromTick(notes[..m], start)
    {
      FromTickStep(notes, m, start);
      if notes[m].tick >= start {
        kept := kept + [notes[m]];
      }
      m := m + 1;
    }
    assert notes[..m] == notes;
  }

  /** The tracks with more than `m` notes, in their order. */
  function Qualifying(ts: seq<Track>, m: nat): (q: seq<Track>)
    ensures |q| <= |ts|
  {
    if ts == [] then []
    else
      var rest := Qualifying(ts[..|ts| - 1], m);
      if LongerThan(ts[|ts| - 1], m) then rest + [ts[|ts| - 1]] else rest
  }

  lemma QualifyingSnoc(ts: seq<Track>, t: Track, m: nat)
    ensures Qualifying(ts + [t], m) ==
              if LongerThan(t, m) then Qualifying(ts, m) + [t] else Qualifying(ts, m)
  {
    assert (ts + [t])[..|ts|] == ts;
  }

  /** The track filter keeps exactly the tracks with more than `m` notes. */
  lemma {:induction false} QualifyingMembers(ts: seq<Track>, m: nat)
    ensures forall t :: t in Qualifying(ts, m) <==> t in ts && LongerThan(t, m)
  {
    if ts != [] {
      var init := ts[..|ts| - 1];
      QualifyingMembers(init, m);
      assert ts == init + [ts[|ts| - 1]];
    }
  }

  /**
   * The tracks a counter `cmpt < 3` lets through: the first three with more
   * than `m` notes.
   */
  function FirstThree(ts: seq<Track>, m: nat): (q: seq<Track>)
    ensures |q| <= 3
  {
    Take(Qualifying(ts, m), 3)
  }

  /** Scanning one more track adds it to the first three exactly when it qualifies and fewer than three are taken. */
  lemma FirstThreeSnoc(ts: seq<Track>, t: Track, m: nat)
    ensures FirstThree(ts + [t], m) ==
              if LongerThan(t, m) && |FirstThree(ts, m)| < 3 then FirstThree(ts, m) + [t]
              else FirstThree(ts, m)
  {
    QualifyingSnoc(ts, t, m);
    var q := Qualifying(ts, m);
    if LongerThan(t, m) && |q| >= 3 {
      assert (q + [t])[..3] == q[..3];
    }
  }

  /** One sample of the final comprehension: every track cut to its first `n` notes. */
  function Cut(sample: Sample, n: nat): (r: Sample)
    ensures |r| == |sample| && forall j :: 0 <= j < |r| ==> r[j] == Take(sample[j], n)
  {
    if sample == [] then [] else Cut(sample[..|sample| - 1], n) + [Take(sample[|sample| - 1], n)]
  }

  /** The final comprehension `[[k for k in track[:n]] for track in song] for song in samples]`. */
  function Truncated(samples: seq<Sample>, n: nat): (r: seq<Sample>)
    ensures |r| == |samples|
    ensures forall i :: 0 <= i < |r| ==> r[i] == Cut(samples[i], n)
  {
    if samples == [] then [] else Truncated(samples[..|samples| - 1], n) + [Cut(samples[|samples| - 1], n)]
  }

  /** `np.array(y)[inds]`: an IndexError when some index is past the end of `y`. */
  function Labels(y: seq<int>, inds: seq<nat>): (r: Result<seq<int>>)
    ensures r.Ok? <==> forall j :: 0 <= j < |inds| ==> inds[j] < |y|
    ensures r.Err? ==> r.error == IndexError
    ensures r.Ok? ==> |r.value| == |inds| && forall j :: 0 <= j < |inds| ==> r.value[j] == y[inds[j]]
  {
    if exists j | 0 <= j < |inds| :: inds[j] >= |y| then Err(IndexError)
    else Ok(Gather(y, inds))
  }
}
