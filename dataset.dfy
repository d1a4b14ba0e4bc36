/** The labelled URL table: the CSV file, a DataFrame read from it, the
    relabelling of special hosts (`auto_label_special_urls`) and the cleaning
    that turns the table into training examples (`load_and_train_model`). */
module Dataset {
  import opened Wrappers
  import opened Errors
  import opened Heuristic
  import opened Overrides

  /** The four columns the core reads; other columns are not represented. */
  datatype Column = UrlColumn | SslColumn | DnsColumn | LabelColumn

  const Required: set<Column> := {UrlColumn, SslColumn, DnsColumn, LabelColumn}

  /** A feature cell as `pd.to_numeric(errors='coerce')` sees it: empty, a
      number, or a text that does not read as a number. */
  datatype Cell = Missing | Number(value: int) | NonNumeric(raw: string)

  /** One CSV record; an empty field is `None` / `Missing`. */
  datatype Row = Row(url: Option<string>, ssl: Cell, dns: Cell, labelValue: Option<string>)

  /** A DataFrame: which of the four columns exist, and the rows in order. */
  datatype Frame = Frame(columns: set<Column>, rows: seq<Row>)

  /** The feature vector, in the trained column order
      `[ssl_certificate_valid, dns_lookup]`. */
  datatype Features = Features(ssl: int, dns: int)

  /** A field of an absent column is empty. */
  predicate Fits(columns: set<Column>, r: Row) {
    && (UrlColumn !in columns ==> r.url.None?)
    && (SslColumn !in columns ==> r.ssl.Missing?)
    && (DnsColumn !in columns ==> r.dns.Missing?)
    && (LabelColumn !in columns ==> r.labelValue.None?)
  }

  ghost predicate WellFormed(f: Frame) {
    forall i :: 0 <= i < |f.rows| ==> Fits(f.columns, f.rows[i])
  }

  /** The rows of `xs` that satisfy `p`, in order. */
  function Filter(xs: seq<Row>, p: Row -> bool): (ys: seq<Row>)
    ensures |ys| <= |xs|
    ensures forall y :: y in ys <==> y in xs && p(y)
    ensures forall k :: 0 <= k < |ys| ==> p(ys[k])
  {
    if xs == [] then []
    else if p(xs[0]) then [xs[0]] + Filter(xs[1..], p)
    else Filter(xs[1..], p)
  }

  // ---------------------------------------------------------------------
  // auto_label_special_urls

  /** The `auto_label` value of one row. An empty url cell gets none. */
  function AutoLabel(parse: string -> Url, url: Option<string>): Option<string> {
    if url.None? then None else ClassifySpecial(parse(url.value).hostname)
  }

  /** The row with its label replaced by its `auto_label`, when it has one. */
  function Relabel(parse: string -> Url, r: Row): Row {
    match AutoLabel(parse, r.url)
    case Some(forced) => r.(labelValue := Some(forced))
    case None => r
  }

  /** Writing the new label column; a row without an `auto_label` reads its
      old label, which is a KeyError when the table has no label column. */
  function AssignLabels(parse: string -> Url, f: Frame): Result<Frame, Error> {
    if LabelColumn !in f.columns && exists i | 0 <= i < |f.rows| :: AutoLabel(parse, f.rows[i].url).None? then
      Err(MissingKey("label"))
    else
      Ok(Frame(if |f.rows| > 0 then f.columns + {LabelColumn} else f.columns,
               seq(|f.rows|, i requires 0 <= i < |f.rows| => Relabel(parse, f.rows[i]))))
  }

  /** `auto_label_special_urls` as written: `urlparse` raises on an empty url
      cell, so one such row fails the whole relabelling. */
  function AutoLabeledAsWritten(parse: string -> Url, f: Frame): (r: Result<Frame, Error>)
    ensures (exists i | 0 <= i < |f.rows| :: f.rows[i].url.None?) ==> r.Err?
  {
    if UrlColumn !in f.columns then Err(MissingKey("url"))
    else if exists i | 0 <= i < |f.rows| :: f.rows[i].url.None? then Err(UrlNotText)
    else AssignLabels(parse, f)
  }

  /** `auto_label_special_urls` with an empty url cell given no `auto_label`,
      so that the row reaches `dropna`, which is what the cleaning intends. */
  function AutoLabeled(parse: string -> Url, f: Frame): Result<Frame, Error> {
    if UrlColumn !in f.columns then Err(MissingKey("url"))
    else AssignLabels(parse, f)
  }

  /** Relabelling fails exactly for a missing url column, or for a missing
      label column when some row is not overridden. Otherwise it keeps the
      row count, the order and every column but the label; a row it
      overrides becomes `Malicious`, every other row keeps its label; and no
      column appears except a label column written over a non-empty table. */
  lemma AutoLabeledEffect(parse: string -> Url, f: Frame)
    ensures AutoLabeled(parse, f).Err? <==>
      UrlColumn !in f.columns ||
      (LabelColumn !in f.columns && exists i | 0 <= i < |f.rows| :: AutoLabel(parse, f.rows[i].url).None?)
    ensures AutoLabeled(parse, f).Ok? ==>
      var g := AutoLabeled(parse, f).value;
      && |g.rows| == |f.rows|
      && g.columns == (if f.rows == [] then f.columns else f.columns + {LabelColumn})
      && forall i :: 0 <= i < |f.rows| ==>
           && g.rows[i].url == f.rows[i].url && g.rows[i].ssl == f.rows[i].ssl && g.rows[i].dns == f.rows[i].dns
           && (f.rows[i].url.Some? && IsSpecialHost(parse(f.rows[i].url.value).hostname) ==> g.rows[i].labelValue == Some(Malicious))
           && (f.rows[i].url.None? || !IsSpecialHost(parse(f.rows[i].url.value).hostname) ==> g.rows[i].labelValue == f.rows[i].labelValue)
  {
  }

  /** A one-row table whose url cell is empty: relabelling as written raises,
      while the corrected relabelling passes the row on to `dropna`, which
      removes it. */
  lemma EmptyUrlCellFindings(parse: string -> Url)
    ensures var f := Frame(Required, [Row(None, Number(1), Number(1), Some(Safe))]);
      && AutoLabeledAsWritten(parse, f) == Err(UrlNotText)
      && AutoLabeled(parse, f) == Ok(f)
      && TrainingRows(parse, f) == Ok([])
  {
    var f := Frame(Required, [Row(None, Number(1), Number(1), Some(Safe))]);
    assert f.rows[0].url.None?;
    assert Relabel(parse, f.rows[0]) == f.rows[0];
    var g := AutoLabeled(parse, f).value;
    assert g.rows == [Relabel(parse, f.rows[0])];
    assert g.columns == f.columns;
  }

  /** The corrected relabelling never fails on a table that has the url and
      label columns. */
  lemma AutoLabeledTotal(parse: string -> Url, f: Frame)
    requires UrlColumn in f.columns && LabelColumn in f.columns
    ensures AutoLabeled(parse, f).Ok?
  {
  }

  /** Relabelling twice is relabelling once. */
  lemma AutoLabeledIdempotent(parse: string -> Url, f: Frame)
    requires AutoLabeled(parse, f).Ok?
    ensures AutoLabeled(parse, AutoLabeled(parse, f).value) == AutoLabeled(parse, f)
  {
    var g := AutoLabeled(parse, f).value;
    AutoLabeledEffect(parse, f);
    if LabelColumn !in g.columns {
      assert f.rows == [];
    }
    assert AutoLabeled(parse, g).Ok?;
    var h := AutoLabeled(parse, g).value;
    assert h.rows == g.rows by {
      forall i | 0 <= i < |g.rows| ensures h.rows[i] == g.rows[i] {
        assert g.rows[i] == Relabel(parse, f.rows[i]);
      }
    }
  }

  /** Relabelling keeps every field of an absent column empty. */
  lemma AutoLabeledWellFormed(parse: string -> Url, f: Frame)
    requires WellFormed(f) && AutoLabeled(parse, f).Ok?
    ensures WellFormed(AutoLabeled(parse, f).value)
  {
    var g := AutoLabeled(parse, f).value;
    forall i | 0 <= i < |g.rows| ensures Fits(g.columns, g.rows[i]) {
      assert Fits(f.columns, f.rows[i]);
      if LabelColumn !in f.columns {
        assert AutoLabel(parse, f.rows[i].url).Some?;
      }
    }
  }

  // ---------------------------------------------------------------------
  // Cleaning: schema check, dropna, to_numeric

  /** None of the four required fields is empty (`dropna(subset=...)` keeps it). */
  predicate Complete(r: Row) {
    r.url.Some? && !r.ssl.Missing? && !r.dns.Missing? && r.labelValue.Some?
  }

  /** Both features read as numbers (`to_numeric(...).dropna()` keeps it). */
  predicate NumericRow(r: Row) {
    r.ssl.Number? && r.dns.Number?
  }

  /** Both cleaning steps keep the row. */
  predicate Usable(r: Row) {
    Complete(r) && NumericRow(r)
  }

  /** The rows left after relabelling, the schema check and `dropna`. */
  function TrainingRows(parse: string -> Url, f: Frame): Result<seq<Row>, Error> {
    match AutoLabeled(parse, f)
    case Err(e) => Err(e)
    case Ok(g) => if Required <= g.columns then Ok(Filter(g.rows, Complete)) else Err(SchemaError)
  }

  /** The rows the model is trained on, or the exception training raises. */
  function Examples(parse: string -> Url, f: Frame): (r: Result<seq<Row>, Error>)
    ensures r.Ok? ==> forall k :: 0 <= k < |r.value| ==> Usable(r.value[k])
  {
    match TrainingRows(parse, f)
    case Err(e) => Err(e)
    case Ok(rows) => Ok(Filter(rows, NumericRow))
  }

  /** `X`: the feature vectors of the kept rows, in order. */
  function FeatureRows(rows: seq<Row>): seq<Features>
    requires forall k :: 0 <= k < |rows| ==> rows[k].ssl.Number? && rows[k].dns.Number?
  {
    seq(|rows|, k requires 0 <= k < |rows| => Features(rows[k].ssl.value, rows[k].dns.value))
  }

  /** `y`: the labels of the kept rows, in order. */
  function Labels(rows: seq<Row>): seq<string>
    requires forall k :: 0 <= k < |rows| ==> rows[k].labelValue.Some?
  {
    seq(|rows|, k requires 0 <= k < |rows| => rows[k].labelValue.value)
  }

  /** The positions, from `from` on, of the rows of `xs` that satisfy `p` --
      the DataFrame index that survives a filter. */
  function IndicesFrom(xs: seq<Row>, p: Row -> bool, from: nat): seq<nat>
    requires from <= |xs|
    decreases |xs| - from
  {
    if from == |xs| then []
    else if p(xs[from]) then [from] + IndicesFrom(xs, p, from + 1)
    else IndicesFrom(xs, p, from + 1)
  }

  /** One position per row the filter keeps. */
  lemma {:induction false} IndicesFromLength(xs: seq<Row>, p: Row -> bool, from: nat)
    requires from <= |xs|
    decreases |xs| - from
    ensures |IndicesFrom(xs, p, from)| == |Filter(xs[from..], p)|
  {
    if from < |xs| {
      IndicesFromLength(xs, p, from + 1);
      assert xs[from..][1..] == xs[from + 1..];
    }
  }

  /** The k-th kept row is the row at the k-th position. */
  lemma {:induction false} IndicesFromPoint(xs: seq<Row>, p: Row -> bool, from: nat, k: nat)
    requires from <= |xs| && k < |IndicesFrom(xs, p, from)|
    decreases |xs| - from
    ensures from <= IndicesFrom(xs, p, from)[k] < |xs|
    ensures k < |Filter(xs[from..], p)| && Filter(xs[from..], p)[k] == xs[IndicesFrom(xs, p, from)[k]]
  {
    IndicesFromLength(xs, p, from);
    assert xs[from..][1..] == xs[from + 1..];
    if p(xs[from]) {
      if k > 0 { IndicesFromPoint(xs, p, from + 1, k - 1); }
    } else {
      IndicesFromPoint(xs, p, from + 1, k);
    }
  }

  /** The filter keeps the order of the rows. */
  lemma {:induction false} IndicesFromIncreasing(xs: seq<Row>, p: Row -> bool, from: nat)
    requires from <= |xs|
    decreases |xs| - from
    ensures forall j, k :: 0 <= j < k < |IndicesFrom(xs, p, from)| ==> IndicesFrom(xs, p, from)[j] < IndicesFrom(xs, p, from)[k]
  {
    if from < |xs| {
      IndicesFromIncreasing(xs, p, from + 1);
      var rest := IndicesFrom(xs, p, from + 1);
      forall k | 0 <= k < |rest| ensures from < rest[k] {
        IndicesFromPoint(xs, p, from + 1, k);
      }
    }
  }

  /** Every row that satisfies `p` is kept. */
  lemma {:induction false} IndicesFromComplete(xs: seq<Row>, p: Row -> bool, from: nat, i: nat)
    requires from <= i < |xs| && p(xs[i])
    decreases i - from
    ensures i in IndicesFrom(xs, p, from)
  {
    if from < i {
      IndicesFromComplete(xs, p, from + 1, i);
    }
  }
  /** Filtering twice is filtering once by both conditions. */
  lemma {:induction false} FilterFilter(xs: seq<Row>, p: Row -> bool, q: Row -> bool, both: Row -> bool)
    requires forall x :: both(x) == (p(x) && q(x))
    ensures Filter(Filter(xs, p), q) == Filter(xs, both)
  {
    if xs != [] {
      FilterFilter(xs[1..], p, q, both);
    }
  }

  /** `X` and `y` line up as `dataset.loc[X.index, 'label']` makes them: the
      k-th example is the relabelled source row at position `ix[k]`, where
      `ix` increases with k and holds every position whose relabelled row is
      usable; `X[k]` is that row's features and `y[k]` its label. */
  lemma ExamplesAligned(parse: string -> Url, f: Frame)
    requires Examples(parse, f).Ok?
    ensures var kept := Examples(parse, f).value;
      var ix := IndicesFrom(AutoLabeled(parse, f).value.rows, Usable, 0);
      && |ix| == |kept|
      && (forall j, k :: 0 <= j < k < |ix| ==> ix[j] < ix[k])
      && (forall i :: 0 <= i < |f.rows| && Usable(Relabel(parse, f.rows[i])) ==> i in ix)
      && forall k :: 0 <= k < |kept| ==>
           && ix[k] < |f.rows|
           && kept[k] == Relabel(parse, f.rows[ix[k]])
           && FeatureRows(kept)[k] == Features(f.rows[ix[k]].ssl.value, f.rows[ix[k]].dns.value)
           && Some(Labels(kept)[k]) == Relabel(parse, f.rows[ix[k]]).labelValue
  {
    var g := AutoLabeled(parse, f).value;
    AutoLabeledEffect(parse, f);
    assert forall i :: 0 <= i < |f.rows| ==> g.rows[i] == Relabel(parse, f.rows[i]);
    var kept := Examples(parse, f).value;
    FilterFilter(g.rows, Complete, NumericRow, Usable);
    assert g.rows[0..] == g.rows;
    assert kept == Filter(g.rows[0..], Usable);
    var ix := IndicesFrom(g.rows, Usable, 0);
    IndicesFromLength(g.rows, Usable, 0);
    IndicesFromIncreasing(g.rows, Usable, 0);
    forall i | 0 <= i < |f.rows| && Usable(Relabel(parse, f.rows[i])) ensures i in ix {
      IndicesFromComplete(g.rows, Usable, 0, i);
    }
    forall k | 0 <= k < |kept|
      ensures ix[k] < |f.rows| && kept[k] == Relabel(parse, f.rows[ix[k]])
    {
      IndicesFromPoint(g.rows, Usable, 0, k);
    }
  }

  /** Cleaning fails when the url, ssl or dns column is absent, and when the
      label column is absent and not created by relabelling a non-empty,
      wholly overridden table. */
  lemma CleaningNeedsColumns(parse: string -> Url, f: Frame)
    ensures !({UrlColumn, SslColumn, DnsColumn} <= f.columns) ==> TrainingRows(parse, f).Err?
    ensures LabelColumn !in f.columns && TrainingRows(parse, f).Ok? ==>
      f.rows != [] && forall i :: 0 <= i < |f.rows| ==> AutoLabel(parse, f.rows[i].url) == Some(Malicious)
  {
    AutoLabeledEffect(parse, f);
    if LabelColumn !in f.columns && TrainingRows(parse, f).Ok? {
      forall i | 0 <= i < |f.rows| ensures AutoLabel(parse, f.rows[i].url) == Some(Malicious) {
        assert AutoLabel(parse, f.rows[i].url).Some?;
      }
    }
  }

  /** A training example is exactly a relabelled source row with no empty
      required field and two numeric features; its label travels with it. */
  lemma ExamplesAreUsableRows(parse: string -> Url, f: Frame)
    requires Examples(parse, f).Ok?
    ensures forall r :: r in Examples(parse, f).value <==>
      exists i :: 0 <= i < |f.rows| && r == Relabel(parse, f.rows[i]) && Usable(r)
  {
    var g := AutoLabeled(parse, f).value;
    AutoLabeledEffect(parse, f);
    forall r ensures r in Examples(parse, f).value <==>
      exists i :: 0 <= i < |f.rows| && r == Relabel(parse, f.rows[i]) && Usable(r)
    {
      if r in Examples(parse, f).value {
        var i :| 0 <= i < |g.rows| && g.rows[i] == r;
        assert r == Relabel(parse, f.rows[i]);
      }
      if exists i :: 0 <= i < |f.rows| && r == Relabel(parse, f.rows[i]) && Usable(r) {
        var i :| 0 <= i < |f.rows| && r == Relabel(parse, f.rows[i]) && Usable(r);
        assert g.rows[i] == r;
      }
    }
  }

  /** A store holding only the header has nothing to train on. */
  lemma HeaderOnlyHasNoExamples(parse: string -> Url)
    ensures Examples(parse, Frame(Required, [])) == Ok([])
  {
  }

  // ---------------------------------------------------------------------
  // Appending a record

  /** One new record for `url`, as `check_url_safety` builds it. */
  function NewRecord(url: string, features: Features, choice: string): Row {
    Row(Some(url), Number(features.ssl), Number(features.dns), Some(choice))
  }

  /** `url in dataset['url'].values`. */
  predicate HasUrl(f: Frame, url: string) {
    exists i | 0 <= i < |f.rows| :: f.rows[i].url == Some(url)
  }

  /** `pd.concat([dataset, pd.DataFrame([new_data])])`: the row goes last and
      the four columns all exist afterwards. */
  function Appended(f: Frame, r: Row): (g: Frame)
    ensures |g.rows| == |f.rows| + 1 && g.rows[..|f.rows|] == f.rows && g.rows[|f.rows|] == r
  {
    Frame(f.columns + Required, f.rows + [r])
  }

  lemma AppendedWellFormed(f: Frame, r: Row)
    requires WellFormed(f)
    ensures WellFormed(Appended(f, r))
  {
    var g := Appended(f, r);
    forall i | 0 <= i < |g.rows| ensures Fits(g.columns, g.rows[i]) {
      if i < |f.rows| { assert Fits(f.columns, f.rows[i]); }
    }
  }

  /** After a record is appended to a table read from the file and the file
      is read back, cleaning always succeeds, and the new record is among the
      training examples exactly when its URL survives the round trip -- with
      its own label, or `Malicious` when its host is overridden. */
  lemma AppendedRecordIsTrainedOn(parse: string -> Url, f: Frame, url: string, features: Features, choice: string)
    requires AsRead(f) && (choice == Safe || choice == Malicious)
    ensures var g := RoundTrip(Appended(f, NewRecord(url, features, choice)));
      && Examples(parse, g).Ok?
      && (Relabel(parse, NewRecord(url, features, choice)) in Examples(parse, g).value <==> url !in NaStrings)
      && (url !in NaStrings && !IsSpecialHost(parse(url).hostname) ==>
            NewRecord(url, features, choice) in Examples(parse, g).value)
  {
    var r := NewRecord(url, features, choice);
    RoundTripAppended(f, r);
    var g := Appended(f, ReadBackRow(r));
    AutoLabeledTotal(parse, g);
    if url !in NaStrings {
      assert ReadBackRow(r) == r;
      KeptRecordIsTrainedOn(parse, f, r);
    } else {
      LostRecordIsNotTrainedOn(parse, f, r);
    }
  }

  /** A complete, numeric record appended to any table is a training example. */
  lemma KeptRecordIsTrainedOn(parse: string -> Url, f: Frame, r: Row)
    requires Usable(r)
    ensures Examples(parse, Appended(f, r)).Ok?
    ensures Relabel(parse, r) in Examples(parse, Appended(f, r)).value
  {
    var g := Appended(f, r);
    AutoLabeledTotal(parse, g);
    AutoLabeledEffect(parse, g);
    ExamplesAreUsableRows(parse, g);
    assert g.rows[|f.rows|] == r;
    assert Usable(Relabel(parse, r));
  }

  /** A record whose URL is an NA text is read back without a url, and the
      table it came from holds no such URL, so nothing trains on it. */
  lemma LostRecordIsNotTrainedOn(parse: string -> Url, f: Frame, r: Row)
    requires AsRead(f) && r.url.Some? && r.url.value in NaStrings
    ensures Examples(parse, Appended(f, ReadBackRow(r))).Ok?
    ensures Relabel(parse, r) !in Examples(parse, Appended(f, ReadBackRow(r))).value
  {
    var g := Appended(f, ReadBackRow(r));
    AutoLabeledTotal(parse, g);
    ExamplesAreUsableRows(parse, g);
    forall i | 0 <= i < |g.rows| ensures Relabel(parse, g.rows[i]).url != r.url {
      if i < |f.rows| {
        assert ReadBackRow(f.rows[i]) == f.rows[i];
        assert g.rows[i] == f.rows[i];
      } else {
        assert g.rows[i] == ReadBackRow(r);
      }
    }
  }

  // ---------------------------------------------------------------------
  // Writing the table out and reading it back

  /** The field texts that `read_csv` reads back as NaN (pandas' default
      `na_values`), the empty field among them. */
  const NaStrings: set<string> :=
    {"", "#N/A", "#N/A N/A", "#NA", "-1.#IND", "-1.#QNAN", "-NaN", "-nan", "1.#IND", "1.#QNAN",
     "<NA>", "N/A", "NA", "NULL", "NaN", "None", "n/a", "nan", "null"}

  /** A text field as `read_csv` reads it back. */
  function ReadBackText(t: Option<string>): Option<string> {
    if t.Some? && t.value in NaStrings then None else t
  }

  /** A record as `read_csv` reads back what `to_csv` wrote. */
  function ReadBackRow(r: Row): Row {
    r.(url := ReadBackText(r.url), labelValue := ReadBackText(r.labelValue))
  }

  /** A table as `read_csv` produces it: no text cell holds an NA string. */
  predicate AsRead(f: Frame) {
    forall i :: 0 <= i < |f.rows| ==> ReadBackRow(f.rows[i]) == f.rows[i]
  }

  /** `to_csv` followed by `read_csv`: NA strings come back as empty cells. */
  function RoundTrip(f: Frame): (g: Frame)
    ensures AsRead(g)
  {
    Frame(f.columns, seq(|f.rows|, i requires 0 <= i < |f.rows| => ReadBackRow(f.rows[i])))
  }

  /** A table that was read from the file is written back unchanged. */
  lemma RoundTripOfReadTable(f: Frame)
    requires AsRead(f)
    ensures RoundTrip(f) == f
  {
  }

  lemma RoundTripWellFormed(f: Frame)
    requires WellFormed(f)
    ensures WellFormed(RoundTrip(f))
  {
    forall i | 0 <= i < |f.rows| ensures Fits(f.columns, ReadBackRow(f.rows[i])) {
      assert Fits(f.columns, f.rows[i]);
    }
  }

  /** Appending to a table read from the file and writing it out changes
      only the new record, whose NA texts become empty cells. */
  lemma RoundTripAppended(f: Frame, r: Row)
    requires AsRead(f)
    ensures RoundTrip(Appended(f, r)) == Appended(f, ReadBackRow(r))
  {
    var g := Appended(f, r);
    assert RoundTrip(g).rows == Appended(f, ReadBackRow(r)).rows by {
      forall i | 0 <= i < |g.rows| ensures RoundTrip(g).rows[i] == Appended(f, ReadBackRow(r)).rows[i] {
        if i < |f.rows| { assert g.rows[i] == f.rows[i]; }
      }
    }
  }

  /** A new record comes back from the file as written exactly when its URL
      is not an NA text. */
  lemma ReadBackRecord(url: string, features: Features, choice: string)
    requires choice == Safe || choice == Malicious
    ensures ReadBackRow(NewRecord(url, features, choice)) == NewRecord(url, features, choice) <==> url !in NaStrings
    ensures ReadBackRow(NewRecord(url, features, choice)).url == ReadBackText(Some(url))
  {
    assert choice !in NaStrings;
  }

  /** A URL typed as "" or "NA" is written out and read back as an empty url cell. */
  lemma NaUrlIsLost()
    ensures ReadBackRow(NewRecord("", Features(1, 1), Safe)).url == None
    ensures ReadBackRow(NewRecord("NA", Features(1, 1), Safe)).url == None
  {
  }

  // ---------------------------------------------------------------------
  // The state: the CSV file and a DataFrame read from it

  /** The CSV file behind the dataset; `None` when it does not exist. */
  class CsvStore {
    var contents: Option<Frame>

    ghost predicate Valid()
      reads this
    {
      contents.Some? ==> WellFormed(contents.value) && AsRead(contents.value)
    }

    constructor (contents: Option<Frame>)
      requires contents.Some? ==> WellFormed(contents.value) && AsRead(contents.value)
      ensures Valid() && this.contents == contents
    {
      this.contents := contents;
    }

    /** `pd.read_csv`. */
    method Read() returns (r: Result<Frame, Error>)
      ensures contents.None? ==> r == Err(FileNotFound)
      ensures contents.Some? ==> r == Ok(contents.value)
    {
      if contents.None? {
        r := Err(FileNotFound);
      } else {
        r := Ok(contents.value);
      }
    }

    /** `to_csv`: the whole file is rewritten; what a later `read_csv` gets
        back is the table with its NA texts turned into empty cells. */
    method Write(f: Frame)
      requires WellFormed(f)
      modifies this
      ensures Valid() && contents == Some(RoundTrip(f))
    {
      RoundTripWellFormed(f);
      contents := Some(RoundTrip(f));
    }
  }

  /** A DataFrame that the cleaning steps change in place. */
  class Table {
    var columns: set<Column>
    var rows: seq<Row>

    function Snapshot(): Frame
      reads this
    {
      Frame(columns, rows)
    }

    ghost predicate Valid()
      reads this
    {
      WellFormed(Snapshot())
    }

    constructor (f: Frame)
      requires WellFormed(f)
      ensures Valid() && Snapshot() == f
    {
      columns := f.columns;
      rows := f.rows;
    }

    /** `auto_label_special_urls(df)` with an empty url cell given no override.
        On failure the table is as before; on success only the label column
        changes (and is created over a non-empty table that lacked it). */
    method AutoLabelSpecialUrls(parse: string -> Url) returns (o: Outcome<Error>)
      requires Valid()
      modifies this
      ensures Valid()
      ensures o.Fail? <==> AutoLabeled(parse, old(Snapshot())).Err?
      ensures o.Fail? ==> o.error == AutoLabeled(parse, old(Snapshot())).error && Snapshot() == old(Snapshot())
      ensures o.Pass? ==> Snapshot() == AutoLabeled(parse, old(Snapshot())).value
      ensures o.Pass? ==> |rows| == |old(rows)| && columns <= old(columns) + {LabelColumn}
      ensures o.Pass? ==> forall i :: 0 <= i < |rows| ==>
        rows[i].url == old(rows[i].url) && rows[i].ssl == old(rows[i].ssl) && rows[i].dns == old(rows[i].dns)
    {
      AutoLabeledEffect(parse, Snapshot());
      var result := AutoLabeled(parse, Snapshot());
      match result
      case Err(e) =>
        o := Fail(e);
      case Ok(g) =>
        AutoLabeledWellFormed(parse, Snapshot());
        columns, rows := g.columns, g.rows;
        o := Pass;
    }

    /** `dropna(subset=[url, ssl_certificate_valid, dns_lookup, label], inplace=True)`. */
    method DropMissing()
      requires Valid() && Required <= columns
      modifies this
      ensures Valid() && columns == old(columns)
      ensures rows == Filter(old(rows), Complete)
      ensures forall r :: r in rows <==> r in old(rows) && Complete(r)
    {
      rows := Filter(rows, Complete);
    }
  }
}
