# Music-classifier data preparation, modelled in Dafny

The repository trains genre and artist classifiers on two kinds of input. Around the
training code sit a few small data transforms. This project models those transforms
and proves what they do.

- **Note-sequence windowing** (tf/lstm_conv2d.py). A song is a list of tracks, a
  track a list of `(note, tick, duration)` triples. `toArray`, `toArray16` and
  `toArray2` drop songs with too few tracks, pick tracks with more than
  `NB_NOTES_READ` notes, filter notes by a start tick (except `toArray2`), cut every
  track to `NB_NOTES_READ` notes, and select the labels of the kept songs through
  `X.index(song)`. `extend_y` turns binary labels into two-slot one-hot rows.
- **Feature-file assembly** (dense_features.py). `parse` reads one jSymbolic2 XML
  tree into one row of feature values per song. `get_data` joins the rows of two to
  four files and labels each row with its file's class id (0 to 3). `data_process`
  splits a permutation of the row positions 80/20 into training and test positions.
  `one_vs_all` turns labels into 0/1 indicators for one class. The final scoring
  loop of `run_model_one_vs_all` predicts, per test row, the first class of
  maximal model output and counts the correct predictions.

Modules:

- `Results`: `Option`, `Result` and the Python exceptions that escape
  (`IndexError`, `AttributeError`, and the `ValueError` of `np.concatenate`). It also has `Collect`, the "values, or the
  first exception" loop pattern.
- `Lists`: Python slicing, `list.index`, numpy fancy indexing and concatenation.
- `Notes`: the note, track and song datatypes, plus the filters shared by the three
  windowing functions.
- `Scan`: what `toArray` and `toArray16` do with the per-song outcomes of their loop.
- `ToArray`, `ToArray16`, `ToArray2`, `LabelEncoding` (`extend_y`).
- `FeatureFiles` (`parse`, `get_data`), `Split` (the index split of `data_process`),
  `OneVsAll` (`one_vs_all` and the scoring loop). In `FeatureFiles`,
  `FeatureValues`, `SongRows` and `ParseResults` are the per-item maps inside
  `SongRow`, `ParseSpec` and `GetData`; what they give is stated by `SongRowOk`,
  `ParseShape` and `ParsesLabelledBy`.

Each loop of the source is a `method` with its invariants. It is proved equal to a
specification function (`ToArraySpec`, `ParseSpec`, `Indicators`, `Count(Hits(..))`,
…), and the lemmas state what those functions promise. An exception that escapes
is an `Err` result. Two members have a precondition where Python would raise a
`ValueError`, because no call site can reach that case:

- `OneVsAll.Score` requires `classes > 0`, which excludes `max([])`. The scoring loop
  always runs with `N_CLASSES` class models, and that number is positive.
- `Lists.FirstIndex` requires `x in xs`, which excludes the `list.index` failure.
  Every `X.index(song)` is taken on a song drawn from `X` itself.

`extend_y` overwrites the slots of a list in place, so it works on an `array`.

Where the docstrings and the code disagree, the model follows the code:

- The docstrings of `toArray` and `toArray16` (tf/lstm_conv2d.py:44-45 and 77-78)
  say that the start point is the track that starts the latest. The code reads the
  **duration** of the first note of the first sorted track (lines 60 and 93), and
  so does `Notes.StartTick`.
- The docstring of `toArray16` promises all tracks and an output of 16 tracks per
  song (lines 76 and 83). The code has no track counter (lines 91-106). It keeps
  every song with at least three tracks, whatever number of tracks it collects, so
  samples can differ in their number of tracks.

The model also takes these readings and inputs:

- `NB_NOTES_READ` is the parameter `n`.
- `NB_TRACKS_READ` is `Notes.TracksRead` (3).
- The loader's `track > N` comparison is read as "the track has more than `N`
  notes" (`Notes.LongerThan`).
- `song.sort_by_tick()` is the uninterpreted parameter `sortByTick`.
- Whether processing a track against a start tick raises inside `toArray16`'s `try`
  is the parameter `raises(track, start)`. It depends on both the track and the
  start tick.
- The random permutation and the trained models' outputs (`predict(k, j)` for class
  `k` on test row `j`) are inputs.

## Model

| member | source | states |
|---|---|---|
| LabelEncoding.ExtendY | tf/lstm_conv2d.py:24-32 | one row per label, row `i` is the one-hot row of `y[i]` (array overwritten slot by slot) |
| LabelEncoding.OneHot | tf/lstm_conv2d.py:27-30 | a row has two slots holding one 1 and one 0 |
| LabelEncoding.OneHotCases | tf/lstm_conv2d.py:27-30 | the row is `[0, 1]` iff the label is 1, and `[1, 0]` iff it is not |
| LabelEncoding.HotSlot | tf/lstm_conv2d.py:175 | `tf.argmax(y_true, dimension=1)`: the slot of a two-slot row that holds the larger value; the rows of `y_true` come from `extend_y`, are one-hot and never tie, so the tie rule chosen here never decides anything |
| LabelEncoding.HotSlotOfOneHot | tf/lstm_conv2d.py:175 | reading the hot slot back gives 1 for label 1 and 0 for any other label |
| LabelEncoding.RowsOf | tf/lstm_conv2d.py:31 | `np.array(temp)` keeps the rows in slot order |
| Lists.Take | tf/lstm_conv2d.py:72 | `track[:n]` is a prefix of length `min(n, len)` |
| Lists.TakeMembers | tf/lstm_conv2d.py:72 | the cut keeps only notes of the track |
| Lists.Slice | tf/lstm_conv2d.py:129 | `s[lo:hi]` with Python's clamping: element `i` is `s[lo + i]`, length `hi - lo` when in range |
| Lists.FirstIndex | tf/lstm_conv2d.py:71 | `X.index(song)` is a position holding the song, and no earlier position does |
| Lists.Repeat | dense_features.py:65 | `[y for _ in ...]`: `n` copies of the value |
| Lists.Gather | tf/lstm_conv2d.py:73 | `np.array(y)[inds]`: entry `j` is `y[inds[j]]` |
| Lists.Flatten | dense_features.py:81-82 | `np.concatenate` of the first `k` lists, and the successive appends of tf/lstm_conv2d.py:133-137: the lists one after the other |
| Lists.FlattenAt | tf/lstm_conv2d.py:136-137 | item `d` of list `p` sits right after the items of the lists before `p` |
| Lists.FlattenOrigin | tf/lstm_conv2d.py:136-137 | every item of the concatenation is some item of some list |
| Lists.FlattenSameShape | dense_features.py:81-82 | lists of equal lengths concatenate to equal lengths |
| Lists.FlattenAtAligned | dense_features.py:81-82 | in two such concatenations, item `d` of list `p` is at the same offset |
| Lists.FlattenBound | tf/lstm_conv2d.py:132-137 | at most `b` items per list give at most `b * k` items |
| Results.Collect | dense_features.py:60-64 | the values of the first `k` steps, or the exception of the first failing one |
| Results.CollectOk | dense_features.py:60-64 | a loop that stops at the first exception succeeds iff every step does, and returns the step values in order |
| Results.CollectErr | dense_features.py:60-64 | a failing loop raises the exception of its first failing step |
| Results.CollectStep | dense_features.py:64 | one more value appends that value |
| Results.CollectSticky | dense_features.py:60-64 | once a step raised, the loop's outcome is that exception |
| Notes.Labels | tf/lstm_conv2d.py:73 | the label selection succeeds iff every index is in range (else IndexError), and label `j` is `y[inds[j]]` |
| Notes.StartTick | tf/lstm_conv2d.py:60 | the duration of the first note of the first track, or IndexError when there is no such note |
| Notes.FromTick | tf/lstm_conv2d.py:64-66 | the tick filter never adds notes |
| Notes.FromTickStep | tf/lstm_conv2d.py:64-66 | one more note is appended iff its tick is at least the start tick |
| Notes.FromTickMembers | tf/lstm_conv2d.py:64-66 | the filter keeps exactly the notes with `tick >= start_tick` |
| Notes.NotesFrom | tf/lstm_conv2d.py:64-66 | the note loop computes the tick filter |
| Notes.LongerThan | tf/lstm_conv2d.py:63 | `track > N`, read as the track having more than `N` notes |
| Notes.Qualifying | tf/lstm_conv2d.py:63 | the track filter never adds tracks |
| Notes.QualifyingSnoc | tf/lstm_conv2d.py:63 | one more track is kept iff it has more than `n` notes |
| Notes.QualifyingMembers | tf/lstm_conv2d.py:63 | the filter keeps exactly the tracks with more than `n` notes |
| Notes.FirstThree | tf/lstm_conv2d.py:63-67 | the counter `cmpt < 3` lets at most three tracks through |
| Notes.FirstThreeSnoc | tf/lstm_conv2d.py:63-68 | a track is added iff it qualifies and fewer than three were taken |
| Notes.Cut | tf/lstm_conv2d.py:72 | every track of a sample is cut to its first `n` notes, tracks kept in order |
| Notes.Truncated | tf/lstm_conv2d.py:72 | every sample is cut, samples kept in order |
| Scan.Assemble | tf/lstm_conv2d.py:70-73 | IndexError when a song raised; otherwise the collected samples cut to `n` notes per track and the labels at their `X.index`, or the IndexError of a label past the end of `y` |
| Scan.KeptUpTo | tf/lstm_conv2d.py:55-71 | the kept positions are positions of collected songs |
| Scan.SamplesUpTo | tf/lstm_conv2d.py:70 | one sample per kept song |
| Scan.IndicesUpTo | tf/lstm_conv2d.py:71 | one `X.index` entry per kept song |
| Scan.KeptExact | tf/lstm_conv2d.py:55-71 | the kept positions are exactly the collected songs, each once, in input order |
| Scan.UpToAligned | tf/lstm_conv2d.py:70-71 | sample `j` and index `j` come from the same song |
| Scan.KeptPosition | tf/lstm_conv2d.py:70-71 | every collected song is among the kept positions |
| Scan.MissingOfLabelsErr | tf/lstm_conv2d.py:71-73 | a failing label selection comes from a collected song whose `X.index` is past the end of `y` |
| Scan.LabelsErrOfMissing | tf/lstm_conv2d.py:71-73 | such a song makes the label selection raise |
| Scan.AssembleFails | tf/lstm_conv2d.py:55-73 | the call raises (IndexError) iff some song raised or some kept song has no label |
| Scan.AssembleKept | tf/lstm_conv2d.py:55-73 | on success: one sample and one label per collected song, in input order; the sample is the song's, cut to `n`; the label is `y` at the song's first occurrence |
| Scan.AssembleDistinct | tf/lstm_conv2d.py:71-73 | for pairwise distinct songs each label is `y` at the song's own position |
| Scan.AssembleSucceeds | tf/lstm_conv2d.py:73 | no song raised and `y` covers every song: the call succeeds |
| ToArray.SongOutcome | tf/lstm_conv2d.py:56-69 | a song with at most two tracks is skipped; otherwise it raises without a start tick, and is collected iff three tracks were picked |
| ToArray.ToArraySpec | tf/lstm_conv2d.py:42-73 | `toArray(X, y)`: the per-song outcomes assembled into samples and labels, or the exception |
| ToArray.FromTickAll | tf/lstm_conv2d.py:61-68 | track `t` of a sample is the tick-filtered track `t` |
| ToArray.Picked | tf/lstm_conv2d.py:61-68 | a song yields as many tracks as the counter let through |
| ToArray.PickedSnoc | tf/lstm_conv2d.py:63-68 | one more track is appended, filtered, iff it qualifies and fewer than three were taken |
| ToArray.PickedStep | tf/lstm_conv2d.py:61-68 | the same step as the track loop sees it |
| ToArray.Outcomes | tf/lstm_conv2d.py:55-71 | the per-song results of the song loop, one per song, in input order |
| ToArray.OutcomeAt | tf/lstm_conv2d.py:55-71 | the outcome of song `i` depends on that song only |
| ToArray.TrackStep | tf/lstm_conv2d.py:62-68 | one turn of the track loop keeps `tmp` the picked tracks and `cmpt` their count |
| ToArray.CollectTracks | tf/lstm_conv2d.py:61-68 | the track loop collects the first three qualifying tracks, tick-filtered, and counts them |
| ToArray.SongStep | tf/lstm_conv2d.py:56-69 | the song body raises iff the song's start tick cannot be read, and is kept iff `cmpt == NB_TRACKS_READ` |
| ToArray.ScanStep | tf/lstm_conv2d.py:55-71 | one turn of the song loop extends `X_train_tmp` and `indsTrain` as the outcomes say |
| ToArray.ScanSongs | tf/lstm_conv2d.py:55-71 | the song loop stops at the first raising song, and otherwise builds the samples and indices of all kept songs |
| ToArray.ToArray | tf/lstm_conv2d.py:42-73 | `toArray` returns, or raises, what `ToArraySpec` says |
| ToArray.SongRaises | tf/lstm_conv2d.py:58-60 | a song raises iff it has more than two tracks and its sorted form has no first note |
| ToArray.SongCollected | tf/lstm_conv2d.py:58-69 | a song is kept iff it has more than two tracks, a start tick, and at least three qualifying tracks |
| ToArray.KeptSample | tf/lstm_conv2d.py:60-69 | a kept song yields exactly three tracks: the first three qualifying tracks in order, each holding only its own notes with `tick >= start_tick` |
| ToArray.ToArrayShape | tf/lstm_conv2d.py:63-72 | every returned sample comes from a kept song and has three tracks of at most `n` notes |
| ToArray.ToArrayTicks | tf/lstm_conv2d.py:60-72 | every returned note starts at or after the duration of its song's first sorted note |
| ToArray.ToArrayFails | tf/lstm_conv2d.py:58-73 | `toArray` raises iff some song has no start tick, or some kept song's `X.index` is past the end of `y` |
| ToArray16.Placeholder | tf/lstm_conv2d.py:88 | `empty` is `n` triples `[-1, -1, -1]` |
| ToArray16.TrackPart | tf/lstm_conv2d.py:95-104 | one track contributes the placeholder when it raises, its tick-filtered notes when it has more than `n` notes, nothing otherwise |
| ToArray16.SongOutcome | tf/lstm_conv2d.py:90-106 | a song with fewer than three tracks is skipped; otherwise it raises without a start tick, and is otherwise collected with all its track parts |
| ToArray16.ToArray16Spec | tf/lstm_conv2d.py:75-108 | `toArray16(X, y)`: the per-song outcomes assembled into samples and labels, or the exception |
| ToArray16.AllTracks | tf/lstm_conv2d.py:94-104 | a song yields at most as many tracks as it has |
| ToArray16.AllTracksStep | tf/lstm_conv2d.py:94-104 | one more track contributes the placeholder, its filtered notes, or nothing |
| ToArray16.AllTracksOrigin | tf/lstm_conv2d.py:94-104 | each collected track is the placeholder for a raising track, or the filtered notes of a track with more than `n` notes |
| ToArray16.Outcomes | tf/lstm_conv2d.py:89-106 | the per-song results of the song loop, one per song, in input order |
| ToArray16.OutcomeAt | tf/lstm_conv2d.py:89-106 | the outcome of song `i` depends on that song only |
| ToArray16.CollectTracks | tf/lstm_conv2d.py:94-104 | the `try` loop over the tracks computes `AllTracks` |
| ToArray16.SongStep | tf/lstm_conv2d.py:90-104 | the song body raises iff the start tick cannot be read, and is kept iff the song has at least three tracks |
| ToArray16.ScanStep | tf/lstm_conv2d.py:89-106 | one turn of the song loop extends the lists as the outcomes say |
| ToArray16.ScanSongs | tf/lstm_conv2d.py:89-106 | the song loop stops at the first raising song, and otherwise builds the samples and indices |
| ToArray16.ToArray16 | tf/lstm_conv2d.py:75-108 | `toArray16` returns, or raises, what `ToArray16Spec` says |
| ToArray16.SongCollected | tf/lstm_conv2d.py:91-106 | a song is kept iff it has at least three tracks and a start tick, with no count check; it raises iff it has at least three tracks and no start tick |
| ToArray16.ToArray16Tracks | tf/lstm_conv2d.py:88-107 | every returned track is the placeholder of a raising track, or at most `n` tick-filtered notes of a track longer than `n`; a sample has at most its song's track count |
| ToArray2.NotesOf | tf/lstm_conv2d.py:124-125 | track `t` of the window is all notes of track `t` |
| ToArray2.Middles | tf/lstm_conv2d.py:129 | track `t` of the second window is notes `[n, 2n)` of track `t` |
| ToArray2.FirstWindow | tf/lstm_conv2d.py:123-127 | the first window has as many tracks as the counter let through |
| ToArray2.SecondWindow | tf/lstm_conv2d.py:128-131 | the second window has one track per picked track longer than `2n` |
| ToArray2.FirstWindowSnoc | tf/lstm_conv2d.py:123-127 | one more track is appended iff it qualifies and fewer than three were taken |
| ToArray2.SecondWindowSnoc | tf/lstm_conv2d.py:128-131 | its middle is appended iff, in addition, it is longer than `2n` |
| ToArray2.WindowsStep | tf/lstm_conv2d.py:120-131 | the same two steps as the track loop sees them |
| ToArray2.SongWindows | tf/lstm_conv2d.py:132-137 | a song emits at most two windows |
| ToArray2.AllWindows | tf/lstm_conv2d.py:132-137 | the windows each song emits, one list per song, in input order |
| ToArray2.AllIndices | tf/lstm_conv2d.py:132-137 | for each song, its `X.index(song)` once per window it emits |
| ToArray2.AllWindowsAt | tf/lstm_conv2d.py:114-137 | the windows of song `i` depend on that song only |
| ToArray2.AllIndicesAt | tf/lstm_conv2d.py:134-137 | song `i` gets one `X.index` entry per window |
| ToArray2.AllIndicesShape | tf/lstm_conv2d.py:132-137 | every song has as many index entries as windows |
| ToArray2.CopyNotes | tf/lstm_conv2d.py:124-125 | the note loop copies the track |
| ToArray2.CollectWindows | tf/lstm_conv2d.py:120-131 | the track loop builds both windows, with `cmpt` and `cmpt2` their track counts |
| ToArray2.SongStep | tf/lstm_conv2d.py:119-137 | the song body appends the song's windows and one index per window |
| ToArray2.CollectAll | tf/lstm_conv2d.py:114-137 | the song loop concatenates every song's windows and indices in input order |
| ToArray2.ToArray2 | tf/lstm_conv2d.py:111-139 | `toArray2` returns, or raises, what `ToArray2Spec` says |
| ToArray2.FirstWindowShape | tf/lstm_conv2d.py:119-134 | a song emits a first window iff it has three tracks and three of them are longer than `n`; the window is those three tracks' unfiltered notes |
| ToArray2.SecondWindowShape | tf/lstm_conv2d.py:128-137 | a song emits a second window iff it emits a first one and all three tracks are longer than `2n`; the window is their notes `[n, 2n)` |
| ToArray2.AllQualify | tf/lstm_conv2d.py:128 | a filter that keeps as many tracks as it is given keeps them all |
| ToArray2.NoneDropped | tf/lstm_conv2d.py:128 | when every track is long enough the filter keeps them all |
| ToArray2.Emit | tf/lstm_conv2d.py:132-139 | all windows in song order, cut to `n` notes per track, labelled `y` at `X.index(song)`, or the IndexError of a label past the end of `y` |
| ToArray2.ToArray2Spec | tf/lstm_conv2d.py:111-139 | `toArray2(X, y)`: the windows of every song emitted and labelled, or the exception |
| ToArray2.MissingOfLabelsErr | tf/lstm_conv2d.py:134-139 | a failing label selection comes from an emitting song whose `X.index` is past the end of `y` |
| ToArray2.LabelsErrOfMissing | tf/lstm_conv2d.py:134-139 | such a song makes the label selection raise |
| ToArray2.EmitFails | tf/lstm_conv2d.py:134-139 | the result raises (IndexError) iff an emitting song has no label |
| ToArray2.EmitCounts | tf/lstm_conv2d.py:132-139 | one label per sample, and as many samples as windows emitted |
| ToArray2.EmitAt | tf/lstm_conv2d.py:132-139 | window `d` of song `p` is emitted after the earlier songs' windows, cut to `n`, labelled `y` at the song's first occurrence |
| ToArray2.EmitOrigin | tf/lstm_conv2d.py:132-139 | every sample is a window of some song |
| ToArray2.ToArray2Fails | tf/lstm_conv2d.py:134-139 | `toArray2` raises iff some song that emits a window has its `X.index` past the end of `y` |
| ToArray2.ToArray2Succeeds | tf/lstm_conv2d.py:139 | it cannot raise when `y` is at least as long as `X` |
| ToArray2.ToArray2Counts | tf/lstm_conv2d.py:132-139 | at most two samples per song, and as many labels as samples |
| ToArray2.ToArray2Emits | tf/lstm_conv2d.py:132-139 | both windows of a song follow the earlier songs' windows, are cut to `n`, and carry the same song's label |
| ToArray2.ToArray2Origin | tf/lstm_conv2d.py:132-139 | every returned sample is a window of some song |
| FeatureFiles.Rest | dense_features.py:60 | `X[1:]`: everything but the first child |
| FeatureFiles.Features | dense_features.py:62 | `song[1:]`: the features of a song, its first child skipped |
| FeatureFiles.CommaToDot | dense_features.py:63 | same length; every `','` becomes `'.'`, every other character stays |
| FeatureFiles.CommaToDotClean | dense_features.py:63 | no comma is left and no other character moves |
| FeatureFiles.FeatureValue | dense_features.py:63 | a feature reads iff it has a second child with text; else IndexError (no second child) or AttributeError (no text) |
| FeatureFiles.SongRow | dense_features.py:61-64 | the values of a song's features, its first child skipped, or the error of its first failing feature |
| FeatureFiles.ParseSpec | dense_features.py:53-65 | `parse(X, y)`: the root's first child skipped, one row per song, `y` once per song, or the first feature error |
| FeatureFiles.ReadSong | dense_features.py:61-64 | the feature loop reads the song's row, or raises at the first failing feature |
| FeatureFiles.ReadSongs | dense_features.py:59-64 | the song loop reads every row, or raises at the first failing song |
| FeatureFiles.Parse | dense_features.py:53-65 | `parse` returns, or raises, what `ParseSpec` says |
| FeatureFiles.SongRowOk | dense_features.py:62-64 | a song's row exists iff all its features read, and is their values in order |
| FeatureFiles.ParseShape | dense_features.py:59-65 | `parse` succeeds iff every feature reads (first children of the root and of each song skipped); then one row per song, one value per feature, and `y` once per song |
| FeatureFiles.ParseFirstError | dense_features.py:59-64 | a failing `parse` raises the error of the first failing feature; everything before it reads |
| FeatureFiles.Sources | dense_features.py:73-79 | X1 and X2 get class ids 0 and 1; X3 and X4, when given, get 2 and 3, in that order |
| FeatureFiles.RowGroups | dense_features.py:81 | the row lists of the files, in order |
| FeatureFiles.LabelGroups | dense_features.py:82 | the label lists of the files, in order |
| FeatureFiles.OffsetRows | dense_features.py:81 | the offset of file `p` is the number of rows of the files before it |
| FeatureFiles.EmptyBesideRows | dense_features.py:81 | one parsed file has no rows while another has some: `np.concatenate` then joins a 1-D and a 2-D array |
| FeatureFiles.Join | dense_features.py:81-82 | the concatenation of the parsed files: the first parse error, else a ValueError when an empty file sits beside a non-empty one, else all rows and all labels in file order |
| FeatureFiles.JoinFails | dense_features.py:73-83 | joining raises iff some file raised or an empty file sits beside a non-empty one; a parse error is the first failing file's, otherwise the error is ValueError |
| FeatureFiles.JoinOrigin | dense_features.py:81 | every joined row is a row of some file, at that file's offset |
| FeatureFiles.JoinAt | dense_features.py:81-82 | row `d` of file `p` sits at that file's offset plus `d`, labelled with file `p`'s class id |
| FeatureFiles.JoinRowAt | dense_features.py:81 | row `d` of file `p` sits at that file's offset plus `d` in `X_tot` |
| FeatureFiles.JoinLabelAt | dense_features.py:82 | the matching entry of `y_tot` is file `p`'s class id |
| FeatureFiles.GroupsAligned | dense_features.py:81-82 | one label per row in each file gives row and label lists of equal lengths |
| FeatureFiles.JoinCounts | dense_features.py:81-82 | the joined rows and labels have equal lengths |
| FeatureFiles.JoinFrom | dense_features.py:81-82 | every joined row is a file's row, labelled with that file's class id |
| FeatureFiles.ParsesLabelledBy | dense_features.py:65-79 | every parsed file has one label per row, equal to its class id |
| FeatureFiles.GetDataFails | dense_features.py:68-83 | `get_data` raises iff parsing a given file raises or a given file has no songs while another has some; a parse error is the first failing file's, otherwise the error is ValueError |
| FeatureFiles.EmptyFileRaises | dense_features.py:81 | a file with one song joined with a file holding only its header child raises ValueError |
| FeatureFiles.GetData | dense_features.py:68-83 | `get_data`: the files parsed in order with class ids 0 to 3, then joined |
| FeatureFiles.Files | dense_features.py:73-79 | the parse results of the given files, X1 to X4, each with its class id |
| FeatureFiles.GetDataRows | dense_features.py:68-83 | row `d` of file `p` lands after the rows of the files before it, labelled with file `p`'s class id |
| FeatureFiles.GetDataCounts | dense_features.py:81-83 | `X_tot` and `y_tot` have the same length |
| FeatureFiles.GetDataOrigin | dense_features.py:68-83 | every row of `X_tot` is a row of one of the files, and its `y_tot` entry is that file's class id |
| Split.TrainSize | dense_features.py:105 | the training size is `floor(8n/10)`: at most `n` and the largest `m` with `10m <= 8n` |
| Split.DataSplit | dense_features.py:104-109 | train and test sets have sizes `m` and `n - m`; entry `j` of each set is the row and the label at the same position `perm[...]` |
| Split.Pairs | dense_features.py:106-109 | each row paired with its own label |
| Split.TrainIndices | dense_features.py:105 | `train_inds`: the first `TrainSize(n)` entries of the permutation |
| Split.TestIndices | dense_features.py:105 | `test_inds`: the remaining entries |
| Split.IndicesPartition | dense_features.py:105 | every row position is in exactly one of `train_inds`, `test_inds` |
| Split.IndicesDistinct | dense_features.py:104-105 | neither index list holds a position twice |
| Split.IndicesBounded | dense_features.py:105 | `train_inds + test_inds == inds`, and every index is a row position |
| Split.GatherConcat | dense_features.py:106-109 | indexing by `a + b` is indexing by `a`, then by `b` |
| Split.GatherPrefix | dense_features.py:106-109 | indices below `m` pick the same rows from a prefix of length `m` |
| Split.RemoveLast | dense_features.py:104 | a permutation of `0..n-1` without `n-1` is a permutation of `0..n-2` |
| Split.GatherAroundLast | dense_features.py:106-109 | one step of the permutation proof: the last row splits off |
| Split.GatherPermutation | dense_features.py:106-109 | indexing by a permutation keeps every row exactly as often |
| Split.PairsGather | dense_features.py:106-109 | indexing X and y by the same list keeps each row with its label |
| Split.SplitKeepsRows | dense_features.py:104-109 | train and test sets together hold every (row, label) pair of the data exactly as often as the data does |
| OneVsAll.Indicators | dense_features.py:271-274 | one indicator per label |
| OneVsAll.IndicatorsAt | dense_features.py:271-274 | entry `k` is 1 iff label `k` is the class, and 0 iff it is not |
| OneVsAll.IndicatorsCount | dense_features.py:271-274 | the indicators add up to the number of labels equal to the class |
| OneVsAll.IndicatorLoop | dense_features.py:271-274 | the append loop computes the indicators |
| OneVsAll.OneVsAll | dense_features.py:262-275 | `one_vs_all` returns the indicators of both label lists |
| OneVsAll.Max | dense_features.py:330 | `max(pred)` of a non-empty list of outputs |
| OneVsAll.Prediction | dense_features.py:330 | `pred.index(max(pred))` |
| OneVsAll.MaxIsMaximum | dense_features.py:330 | `max(pred)` is one of the outputs and none exceeds it |
| OneVsAll.PredictionIsFirstArgMax | dense_features.py:330 | the prediction is a class whose output is maximal, and every earlier class's output is strictly smaller |
| OneVsAll.Outputs | dense_features.py:327-329 | one output per class model |
| OneVsAll.RowOutputs | dense_features.py:327-329 | the inner loop collects the outputs of the class models in class order |
| OneVsAll.Hits | dense_features.py:326-331 | entry `j` is true iff test row `j` is predicted as its label |
| OneVsAll.Correct | dense_features.py:331 | `prediction == y_test[j]` for test row `j` |
| OneVsAll.Count | dense_features.py:331 | the number of `int(True)` terms the score adds up |
| OneVsAll.CountIsCardinality | dense_features.py:331 | the count is the number of true entries, so at most the length |
| OneVsAll.ScoreCounts | dense_features.py:325-331 | the final score is the number of correctly predicted test rows, between 0 and `len(y_test)` |
| OneVsAll.Score | dense_features.py:325-331 | the scoring loop computes that count |

## Left out

- TensorFlow graph construction and training, Keras model creation and fitting, GBM
  and t-SNE: library numerics with no behaviour of their own to state.
- `standardize` (`StandardScaler`): floating-point library code. `Split` is generic
  over the row type, so the split holds whatever the rows are.
- Feature values stay strings. The `float(...)` conversion of `parse` is not
  modelled, so a text that does not parse as a number is not an error here.
- Split.TrainSize: `int(0.8 * n)` is modelled as `floor(8n / 10)`. The double
  nearest 0.8 is slightly above 0.8, so the two agree for every row count the
  scripts can see. Floating-point rounding itself is not modelled.
- `np.random.permutation` is the input `perm`. `DataSplit` requires it to be a
  permutation of the row positions, which is what numpy promises.
- The models' outputs in the scoring loop are the input `predict(k, j)`, a real
  number per class and test row. The final `score / len(y_test)` and its print are
  not modelled; the score itself is.
- numpy array conversion: `np.array(..., dtype=np.float32)` of the note triples and
  the error numpy gives for ragged lists are not modelled. Samples stay nested sequences and rows are joined as lists.
- `song.sort_by_tick()`: the loader's code is not part of this model, so the sorted
  song is `sortByTick(song)`, an arbitrary function. Its write-back into the
  caller's list of songs is not modelled, and `X.index(song)` is taken on the
  songs as given, with value equality standing for Python's comparison.
- The loader's `track > N` comparison is taken as "the track has more than `N`
  notes", since the loader's code is not part of this model. Which tracks raise
  inside `toArray16`'s `try` is the oracle `raises(track, start)`.
- ToArray.ToArrayFails: the "iff" assumes that processing a track (the loader's
  `track > N`, the note attributes, the tick comparison) never raises. In `toArray`
  that code runs outside any `try` (lines 61-68), so such an exception would escape;
  the loader's code is not part of this model. Nor does it include the ValueError
  numpy raises at line 72 when the tick-filtered tracks of a kept song differ in
  length, so that `np.array(..., dtype=np.float32)` meets a ragged list.
- ToArray2.ToArray2Fails: the same assumption, for the track loop of `toArray2`
  (lines 120-131), which also runs outside any `try`.
- FeatureFiles.JoinFails, FeatureFiles.GetDataFails: only the `np.concatenate` ValueError of an empty file
  beside a non-empty one is modelled. The ValueErrors of `float(...)` on a text that
  is not a number, of rows of different lengths, and of files whose feature counts
  differ are not.
- `NB_NOTES_READ` (`dataload.MIN_SIZE`) is the parameter `n`, and `N_CLASSES` is the
  parameter `classes`.
- XML loading (`ET.parse`), element tags, attributes and tails: an element is its
  text and its children only.
- Model saving, plotting, printing and timing: I/O.
