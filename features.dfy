/**
 * Reading the feature files of dense_features.py: `parse` turns one
 * jSymbolic2 XML tree into one row of feature values per song, and
 * `get_data` joins the rows of two to four files, labelling each row with
 * the class of the file it came from.
 */
module FeatureFiles {
  import opened Results
  import opened Lists

  /** An XML element: its text, if any, and its children in document order. */
  datatype Element = Element(text: Option<string>, children: seq<Element>)

  /** Python's `s[1:]`: everything but the first item, nothing for an empty list. */
  function Rest<T>(s: seq<T>): seq<T>
  {
    if s == [] then [] else s[1..]
  }

  /** `text.replace(',', '.')`: every comma becomes a dot. */
  function CommaToDot(t: string): (r: string)
    ensures |r| == |t|
    ensures forall i :: 0 <= i < |t| ==> r[i] == if t[i] == ',' then '.' else t[i]
  {
    if t == [] then [] else CommaToDot(t[..|t| - 1]) + [if t[|t| - 1] == ',' then '.' else t[|t| - 1]]
  }

  /** No comma is left, and every other character is where it was. */
  lemma CommaToDotClean(t: string)
    ensures ',' !in CommaToDot(t)
    ensures forall i :: 0 <= i < |t| && t[i] != ',' ==> CommaToDot(t)[i] == t[i]
  {
  }

  /**
   * The value of one feature element: the text of its second child with commas
   * turned into dots. The text is kept as a string (see README).
   */
  function FeatureValue(feature: Element): (r: Result<string>)
    ensures r.Ok? <==> |feature.children| >= 2 && feature.children[1].text.Some?
    ensures r.Err? && |feature.children| < 2 ==> r.error == IndexError
    ensures r.Err? && |feature.children| >= 2 ==> r.error == AttributeError
    ensures r.Ok? ==> r.value == CommaToDot(feature.children[1].text.value)
  {
    if |feature.children| < 2 then Err(IndexError)
    else match feature.children[1].text
      case None => Err(AttributeError)
      case Some(t) => Ok(CommaToDot(t))
  }

  /** The value, or the error, of each feature in turn. */
  function FeatureValues(features: seq<Element>): (r: seq<Result<string>>)
    ensures |r| == |features| && forall j :: 0 <= j < |features| ==> r[j] == FeatureValue(features[j])
  {
    seq(|features|, j requires 0 <= j < |features| => FeatureValue(features[j]))
  }

  /** The features of a song element: its children but the first. */
  function Features(song: Element): seq<Element>
  {
    Rest(song.children)
  }

  /** The row of one song: its feature values, or the error of the first failing feature. */
  function SongRow(song: Element): Result<seq<string>>
  {
    Collect(FeatureValues(Features(song)), |Features(song)|)
  }

  /** The row, or the error, of each song in turn. */
  function SongRows(songs: seq<Element>): (r: seq<Result<seq<string>>>)
    ensures |r| == |songs| && forall i :: 0 <= i < |songs| ==> r[i] == SongRow(songs[i])
  {
    seq(|songs|, i requires 0 <= i < |songs| => SongRow(songs[i]))
  }

  /** `(out, [y for _ in X[1:]])`. */
  datatype Parsed = Parsed(rows: seq<seq<string>>, labels: seq<int>)

  /** What `parse(X, y)` returns or raises: the first child of the root and of each song are skipped. */
  function ParseSpec(root: Element, y: int): Result<Parsed>
  {
    var songs := Rest(root.children);
    match Collect(SongRows(songs), |songs|)
    case Err(e) => Err(e)
    case Ok(rows) => Ok(Parsed(rows, Repeat(y, |songs|)))
  }

  /** The inner loop: the values of one song's features, or the first error. */
  method ReadSong(song: Element) returns (r: Result<seq<string>>)
    ensures r == SongRow(song)
  {
    var features := Features(song);
    var row: seq<string> := [];
    for j := 0 to |features|
      invariant Collect(FeatureValues(features), j) == Ok(row)
    {
      var v := FeatureValue(features[j]);
      if v.Err? {
        CollectSticky(FeatureValues(features), j + 1, v.error);
        return Err(v.error);
      }
      row := row + [v.value];
    }
    return Ok(row);
  }

  /** The outer loop: the rows of the songs, or the first error. */
  method ReadSongs(songs: seq<Element>) returns (r: Result<seq<seq<string>>>)
    ensures r == Collect(SongRows(songs), |songs|)
  {
    var out: seq<seq<string>> := [];
    for i := 0 to |songs|
      invariant Collect(SongRows(songs), i) == Ok(out)
    {
      var row := ReadSong(songs[i]);
      if row.Err? {
        CollectSticky(SongRows(songs), i + 1, row.error);
        return Err(row.error);
      }
      CollectStep(SongRows(songs), i, out, row.value);
      out := out + [row.value];
    }
    return Ok(out);
  }

  /** `parse(X, y)`: one row per song, read feature by feature; the first failing feature ends the call. */
  method Parse(root: Element, y: int) returns (r: Result<Parsed>)
    ensures r == ParseSpec(root, y)
  {
    var songs := Rest(root.children);
    var out := ReadSongs(songs);
    if out.Err? {
      return Err(out.error);
    }
    return Ok(Parsed(out.value, Repeat(y, |songs|)));
  }

  /** Every feature of the song reads without error. */
  predicate SongReads(song: Element)
  {
    forall j :: 0 <= j < |Features(song)| ==> FeatureValue(Features(song)[j]).Ok?
  }

  /** A song's row is its feature values in order when they all read. */
  lemma SongRowOk(song: Element)
    ensures SongRow(song).Ok? <==> SongReads(song)
    ensures SongRow(song).Ok? ==>
              |SongRow(song).value| == |Features(song)|
              && forall j :: 0 <= j < |Features(song)| ==> FeatureValue(Features(song)[j]) == Ok(SongRow(song).value[j])
  {
    CollectOk(FeatureValues(Features(song)), |Features(song)|);
  }

  /**
   * `parse` succeeds exactly when every feature of every song (first children
   * skipped) has a second child with text; it then returns one row per song,
   * one value per feature, and the label `y` once per song.
   */
  lemma ParseShape(root: Element, y: int)
    ensures ParseSpec(root, y).Ok? <==> forall i :: 0 <= i < |Rest(root.children)| ==> SongReads(Rest(root.children)[i])
    ensures ParseSpec(root, y).Ok? ==>
              var songs := Rest(root.children);
              var p := ParseSpec(root, y).value;
              && |p.rows| == |p.labels| == |songs|
              && (forall i :: 0 <= i < |songs| ==> p.labels[i] == y)
              && (forall i :: 0 <= i < |songs| ==>
                    |p.rows[i]| == |Features(songs[i])|
                    && forall j :: 0 <= j < |p.rows[i]| ==> FeatureValue(Features(songs[i])[j]) == Ok(p.rows[i][j]))
  {
    var songs := Rest(root.children);
    CollectOk(SongRows(songs), |songs|);
    forall i | 0 <= i < |songs|
      ensures SongRow(songs[i]).Ok? <==> SongReads(songs[i])
    {
      SongRowOk(songs[i]);
    }
    if ParseSpec(root, y).Ok? {
      var p := ParseSpec(root, y).value;
      forall i | 0 <= i < |songs|
        ensures |p.rows[i]| == |Features(songs[i])|
        ensures forall j :: 0 <= j < |p.rows[i]| ==> FeatureValue(Features(songs[i])[j]) == Ok(p.rows[i][j])
      {
        SongRowOk(songs[i]);
      }
    }
  }

  /**
   * A failing `parse` raises the error of the first failing feature: every
   * feature of the songs before it and every earlier feature of its own song
   * read without error.
   */
  lemma ParseFirstError(root: Element, y: int) returns (i: nat, j: nat)
    requires ParseSpec(root, y).Err?
    ensures i < |Rest(root.children)| && j < |Features(Rest(root.children)[i])|
    ensures FeatureValue(Features(Rest(root.children)[i])[j]) == Err(ParseSpec(root, y).error)
    ensures forall h :: 0 <= h < i ==> SongReads(Rest(root.children)[h])
    ensures forall h :: 0 <= h < j ==> FeatureValue(Features(Rest(root.children)[i])[h]).Ok?
  {
    var songs := Rest(root.children);
    i := CollectErr(SongRows(songs), |songs|);
    forall h | 0 <= h < i
      ensures SongReads(songs[h])
    {
      SongRowOk(songs[h]);
    }
    j := CollectErr(FeatureValues(Features(songs[i])), |Features(songs[i])|);
  }

  /** One input file and the class id its rows get. */
  datatype Source = Source(root: Element, classId: int)

  /** `X1`, `X2` and whichever of `X3`, `X4` are given, with class ids 0, 1, 2, 3. */
  function Sources(x1: Element, x2: Element, x3: Option<Element>, x4: Option<Element>): (r: seq<Source>)
    ensures |r| == 2 + (if x3.Some? then 1 else 0) + (if x4.Some? then 1 else 0)
    ensures r[0] == Source(x1, 0) && r[1] == Source(x2, 1)
    ensures x3.Some? ==> r[2] == Source(x3.value, 2)
    ensures x4.Some? ==> r[|r| - 1] == Source(x4.value, 3)
  {
    [Source(x1, 0), Source(x2, 1)]
    + (if x3.Some? then [Source(x3.value, 2)] else [])
    + (if x4.Some? then [Source(x4.value, 3)] else [])
  }

  /** The parse, or the error, of each file in turn. */
  function ParseResults(srcs: seq<Source>): (r: seq<Result<Parsed>>)
    ensures |r| == |srcs| && forall i :: 0 <= i < |srcs| ==> r[i] == ParseSpec(srcs[i].root, srcs[i].classId)
  {
    seq(|srcs|, i requires 0 <= i < |srcs| => ParseSpec(srcs[i].root, srcs[i].classId))
  }

  /** The rows of each parsed file. */
  function RowGroups(ps: seq<Parsed>): (r: seq<seq<seq<string>>>)
    ensures |r| == |ps| && forall i :: 0 <= i < |ps| ==> r[i] == ps[i].rows
  {
    if ps == [] then [] else RowGroups(ps[..|ps| - 1]) + [ps[|ps| - 1].rows]
  }

  /** The labels of each parsed file. */
  function LabelGroups(ps: seq<Parsed>): (r: seq<seq<int>>)
    ensures |r| == |ps| && forall i :: 0 <= i < |ps| ==> r[i] == ps[i].labels
  {
    if ps == [] then [] else LabelGroups(ps[..|ps| - 1]) + [ps[|ps| - 1].labels]
  }

  /**
   * One file parsed to no rows while another parsed to some: `np.array([])` is
   * one-dimensional, a list of rows two-dimensional, and `np.concatenate`
   * refuses to mix them.
   */
  predicate EmptyBesideRows(rs: seq<Result<Parsed>>)
  {
    exists i, j | 0 <= i < |rs| && 0 <= j < |rs| ::
      rs[i].Ok? && rs[j].Ok? && |rs[i].value.rows| == 0 && |rs[j].value.rows| > 0
  }

  /**
   * The parsed files' rows one after the other, their labels alongside; the
   * first file's error, or the ValueError of concatenating an empty file with
   * a non-empty one.
   */
  function Join(rs: seq<Result<Parsed>>): Result<Parsed>
  {
    match Collect(rs, |rs|)
    case Err(e) => Err(e)
    case Ok(ps) =>
      if EmptyBesideRows(rs) then Err(ValueError)
      else Ok(Parsed(Flatten(RowGroups(ps), |ps|), Flatten(LabelGroups(ps), |ps|)))
  }

  /** `get_data(X1, X2, X3, X4)`: parse each given file with its class id, then join the results. */
  function GetData(x1: Element, x2: Element, x3: Option<Element>, x4: Option<Element>): Result<Parsed>
  {
    Join(ParseResults(Sources(x1, x2, x3, x4)))
  }

  /** The number of rows in the files before file `p`. */
  function Offset(rs: seq<Result<Parsed>>, p: nat): nat
    requires p <= |rs|
  {
    if p == 0 then 0 else Offset(rs, p - 1) + (if rs[p - 1].Ok? then |rs[p - 1].value.rows| else 0)
  }

  /** When every file parsed, the rows before file `p` are the first `p` files' rows. */
  lemma {:induction false} OffsetRows(rs: seq<Result<Parsed>>, ps: seq<Parsed>, p: nat)
    requires |ps| == |rs| && p <= |rs|
    requires forall i :: 0 <= i < |rs| ==> rs[i] == Ok(ps[i])
    ensures Offset(rs, p) == |Flatten(RowGroups(ps), p)|
  {
    if p > 0 {
      OffsetRows(rs, ps, p - 1);
    }
  }

  /**
   * Joining raises exactly when some file's parse raised, or when an empty
   * file is joined with a non-empty one. A parse error comes first and is the
   * first failing file's; otherwise the error is the ValueError.
   */
  lemma JoinFails(rs: seq<Result<Parsed>>)
    ensures Join(rs).Err? <==> (exists i | 0 <= i < |rs| :: rs[i].Err?) || EmptyBesideRows(rs)
    ensures (exists i | 0 <= i < |rs| :: rs[i].Err?) ==>
              exists i | 0 <= i < |rs| :: rs[i] == Err(Join(rs).error) && forall h :: 0 <= h < i ==> rs[h].Ok?
    ensures Join(rs).Err? && (forall i :: 0 <= i < |rs| ==> rs[i].Ok?) ==> Join(rs).error == ValueError
  {
    CollectOk(rs, |rs|);
    if Collect(rs, |rs|).Err? {
      var i := CollectErr(rs, |rs|);
    }
  }

  /** Every joined row is some row `d` of some file `p`, at offset `Offset(rs, p) + d`. */
  lemma JoinOrigin(rs: seq<Result<Parsed>>, j: nat) returns (p: nat, d: nat)
    requires Join(rs).Ok? && j < |Join(rs).value.rows|
    ensures p < |rs| && rs[p].Ok? && d < |rs[p].value.rows|
    ensures j == Offset(rs, p) + d
  {
    CollectOk(rs, |rs|);
    var ps := Collect(rs, |rs|).value;
    p, d := FlattenOrigin(RowGroups(ps), |ps|, j);
    OffsetRows(rs, ps, p);
  }

  /** Every parsed file has one label per row, and that label is its source's class id. */
  predicate LabelledBy(rs: seq<Result<Parsed>>, srcs: seq<Source>)
    requires |rs| == |srcs|
  {
    forall i :: 0 <= i < |rs| && rs[i].Ok? ==>
      |rs[i].value.rows| == |rs[i].value.labels|
      && forall d :: 0 <= d < |rs[i].value.labels| ==> rs[i].value.labels[d] == srcs[i].classId
  }

  /** Row `d` of file `p` lands at offset `Offset(rs, p) + d` of the joined rows, labelled with the class id of file `p`. */
  lemma JoinAt(rs: seq<Result<Parsed>>, srcs: seq<Source>, p: nat, d: nat)
    requires |rs| == |srcs| && Join(rs).Ok? && LabelledBy(rs, srcs)
    requires p < |rs| && rs[p].Ok? && d < |rs[p].value.rows|
    ensures Offset(rs, p) + d < |Join(rs).value.rows|
    ensures Offset(rs, p) + d < |Join(rs).value.labels|
    ensures Join(rs).value.rows[Offset(rs, p) + d] == rs[p].value.rows[d]
    ensures Join(rs).value.labels[Offset(rs, p) + d] == srcs[p].classId
  {
    JoinRowAt(rs, p, d);
    JoinLabelAt(rs, srcs, p, d);
  }

  /** The rows half of `JoinAt`. */
  lemma JoinRowAt(rs: seq<Result<Parsed>>, p: nat, d: nat)
    requires Join(rs).Ok?
    requires p < |rs| && rs[p].Ok? && d < |rs[p].value.rows|
    ensures Offset(rs, p) + d < |Join(rs).value.rows|
    ensures Join(rs).value.rows[Offset(rs, p) + d] == rs[p].value.rows[d]
  {
    CollectOk(rs, |rs|);
    var ps := Collect(rs, |rs|).value;
    OffsetRows(rs, ps, p);
    FlattenAt(RowGroups(ps), |ps|, p, d);
    assert rs[p] == Ok(ps[p]);
  }

  /** The labels half of `JoinAt`. */
  lemma JoinLabelAt(rs: seq<Result<Parsed>>, srcs: seq<Source>, p: nat, d: nat)
    requires |rs| == |srcs| && Join(rs).Ok? && LabelledBy(rs, srcs)
    requires p < |rs| && rs[p].Ok? && d < |rs[p].value.rows|
    ensures Offset(rs, p) + d < |Join(rs).value.labels|
    ensures Join(rs).value.labels[Offset(rs, p) + d] == srcs[p].classId
  {
    CollectOk(rs, |rs|);
    var ps := Collect(rs, |rs|).value;
    OffsetRows(rs, ps, p);
    GroupsAligned(rs, srcs, ps);
    FlattenAtAligned(RowGroups(ps), LabelGroups(ps), |ps|, p, d);
    assert rs[p] == Ok(ps[p]);
  }

  /** Files labelled one label per row give row and label groups of equal lengths. */
  lemma GroupsAligned(rs: seq<Result<Parsed>>, srcs: seq<Source>, ps: seq<Parsed>)
    requires |rs| == |srcs| == |ps| && LabelledBy(rs, srcs)
    requires forall i :: 0 <= i < |rs| ==> rs[i] == Ok(ps[i])
    ensures forall i :: 0 <= i < |ps| ==> |RowGroups(ps)[i]| == |LabelGroups(ps)[i]|
  {
    forall i | 0 <= i < |ps|
      ensures |RowGroups(ps)[i]| == |LabelGroups(ps)[i]|
    {
      assert rs[i].Ok?;
    }
  }

  /** Files labelled one label per row join to as many labels as rows. */
  lemma JoinCounts(rs: seq<Result<Parsed>>, srcs: seq<Source>)
    requires |rs| == |srcs| && Join(rs).Ok? && LabelledBy(rs, srcs)
    ensures |Join(rs).value.rows| == |Join(rs).value.labels|
  {
    CollectOk(rs, |rs|);
    var ps := Collect(rs, |rs|).value;
    GroupsAligned(rs, srcs, ps);
    FlattenSameShape(RowGroups(ps), LabelGroups(ps), |ps|);
  }

  /** Every joined row is a row of some file, labelled with that file's class id. */
  lemma JoinFrom(rs: seq<Result<Parsed>>, srcs: seq<Source>, j: nat) returns (p: nat, d: nat)
    requires |rs| == |srcs| && Join(rs).Ok? && LabelledBy(rs, srcs)
    requires j < |Join(rs).value.rows|
    ensures p < |rs| && rs[p].Ok? && d < |rs[p].value.rows|
    ensures j < |Join(rs).value.labels|
    ensures Join(rs).value.rows[j] == rs[p].value.rows[d]
    ensures Join(rs).value.labels[j] == srcs[p].classId
  {
    p, d := JoinOrigin(rs, j);
    JoinAt(rs, srcs, p, d);
  }

  /** Each parsed file is labelled with its source's class id. */
  lemma ParsesLabelledBy(srcs: seq<Source>)
    ensures LabelledBy(ParseResults(srcs), srcs)
  {
    forall i | 0 <= i < |srcs| && ParseSpec(srcs[i].root, srcs[i].classId).Ok?
      ensures |ParseSpec(srcs[i].root, srcs[i].classId).value.rows| == |ParseSpec(srcs[i].root, srcs[i].classId).value.labels|
      ensures forall d :: 0 <= d < |ParseSpec(srcs[i].root, srcs[i].classId).value.labels| ==>
                ParseSpec(srcs[i].root, srcs[i].classId).value.labels[d] == srcs[i].classId
    {
      ParseShape(srcs[i].root, srcs[i].classId);
    }
  }

  /**
   * `get_data` raises exactly when parsing one of the given files raises, with
   * the first such file's error, or when one given file has no songs and
   * another has some, with the ValueError of `np.concatenate`.
   */
  lemma GetDataFails(x1: Element, x2: Element, x3: Option<Element>, x4: Option<Element>)
    ensures GetData(x1, x2, x3, x4).Err? <==>
              (exists i | 0 <= i < |Files(x1, x2, x3, x4)| :: Files(x1, x2, x3, x4)[i].Err?)
              || EmptyBesideRows(Files(x1, x2, x3, x4))
    ensures (exists i | 0 <= i < |Files(x1, x2, x3, x4)| :: Files(x1, x2, x3, x4)[i].Err?) ==>
              exists i | 0 <= i < |Files(x1, x2, x3, x4)| ::
                && Files(x1, x2, x3, x4)[i] == Err(GetData(x1, x2, x3, x4).error)
                && forall h :: 0 <= h < i ==> Files(x1, x2, x3, x4)[h].Ok?
    ensures GetData(x1, x2, x3, x4).Err? && (forall i :: 0 <= i < |Files(x1, x2, x3, x4)| ==> Files(x1, x2, x3, x4)[i].Ok?) ==>
              GetData(x1, x2, x3, x4).error == ValueError
  {
    JoinFails(Files(x1, x2, x3, x4));
  }

  /**
   * A file with one song (no features) joined with a file that has only its
   * header child: `np.concatenate` of a 2-D and a 1-D array raises ValueError.
   */
  lemma EmptyFileRaises()
    ensures GetData(Element(None, [Element(None, []), Element(None, [])]), Element(None, [Element(None, [])]), None, None)
              == Err(ValueError)
  {
    var x1 := Element(None, [Element(None, []), Element(None, [])]);
    var x2 := Element(None, [Element(None, [])]);
    var song := Element(None, []);
    assert Rest(x1.children) == [song];
    assert SongRow(song) == Ok([]);
    assert SongRows([song]) == [Ok([])];
    assert Collect(SongRows([song]), 0) == Ok([]);
    var empty: seq<seq<string>> := [];
    assert empty + [[]] == [[]];
    assert Collect(SongRows([song]), 1) == Ok([[]]);
    assert Repeat(0, 1) == [0];
    assert Collect(SongRows(Rest(x1.children)), |Rest(x1.children)|) == Ok([[]]);
    assert ParseSpec(x1, 0) == Ok(Parsed([[]], [0]));
    assert |x2.children| == 1;
    assert Rest(x2.children) == [];
    assert ParseSpec(x2, 1) == Ok(Parsed([], []));
    assert Files(x1, x2, None, None)[0].value.rows == [[]];
    var rs := Files(x1, x2, None, None);
    assert EmptyBesideRows(rs) by {
      assert rs[1].Ok? && |rs[1].value.rows| == 0;
    }
    JoinFails(rs);
    assert GetData(x1, x2, None, None) == Join(rs);
  }

  /** The parse, or the error, of each given file, with its class id: what `get_data` joins. */
  function Files(x1: Element, x2: Element, x3: Option<Element>, x4: Option<Element>): seq<Result<Parsed>>
  {
    ParseResults(Sources(x1, x2, x3, x4))
  }

  /**
   * On success, row `d` of file `p` sits after the rows of the files before
   * it, and its label is file `p`'s class id.
   */
  lemma GetDataRows(x1: Element, x2: Element, x3: Option<Element>, x4: Option<Element>, p: nat, d: nat)
    requires GetData(x1, x2, x3, x4).Ok?
    requires p < |Files(x1, x2, x3, x4)| && Files(x1, x2, x3, x4)[p].Ok? && d < |Files(x1, x2, x3, x4)[p].value.rows|
    ensures Offset(Files(x1, x2, x3, x4), p) + d < |GetData(x1, x2, x3, x4).value.rows|
    ensures Offset(Files(x1, x2, x3, x4), p) + d < |GetData(x1, x2, x3, x4).value.labels|
    ensures GetData(x1, x2, x3, x4).value.rows[Offset(Files(x1, x2, x3, x4), p) + d] == Files(x1, x2, x3, x4)[p].value.rows[d]
    ensures GetData(x1, x2, x3, x4).value.labels[Offset(Files(x1, x2, x3, x4), p) + d] == Sources(x1, x2, x3, x4)[p].classId
  {
    ParsesLabelledBy(Sources(x1, x2, x3, x4));
    JoinAt(Files(x1, x2, x3, x4), Sources(x1, x2, x3, x4), p, d);
  }

  /** On success `X_tot` and `y_tot` have the same length: one class id per row. */
  lemma GetDataCounts(x1: Element, x2: Element, x3: Option<Element>, x4: Option<Element>)
    requires GetData(x1, x2, x3, x4).Ok?
    ensures |GetData(x1, x2, x3, x4).value.rows| == |GetData(x1, x2, x3, x4).value.labels|
  {
    ParsesLabelledBy(Sources(x1, x2, x3, x4));
    JoinCounts(Files(x1, x2, x3, x4), Sources(x1, x2, x3, x4));
  }

  /** On success every row of the result is a row of one of the files, labelled with that file's class id. */
  lemma GetDataOrigin(x1: Element, x2: Element, x3: Option<Element>, x4: Option<Element>, j: nat) returns (p: nat, d: nat)
    requires GetData(x1, x2, x3, x4).Ok? && j < |GetData(x1, x2, x3, x4).value.rows|
    ensures p < |Files(x1, x2, x3, x4)| && Files(x1, x2, x3, x4)[p].Ok? && d < |Files(x1, x2, x3, x4)[p].value.rows|
    ensures j < |GetData(x1, x2, x3, x4).value.labels|
    ensures GetData(x1, x2, x3, x4).value.rows[j] == Files(x1, x2, x3, x4)[p].value.rows[d]
    ensures GetData(x1, x2, x3, x4).value.labels[j] == Sources(x1, x2, x3, x4)[p].classId
  {
    ParsesLabelledBy(Sources(x1, x2, x3, x4));
    p, d := JoinFrom(Files(x1, x2, x3, x4), Sources(x1, x2, x3, x4), j);
  }
}
