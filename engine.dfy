/** The classification engine: feature extraction, the trained-model state
    (`model`, `X`, `label_encoder`), training (`load_and_train_model`),
    inference (`predict_url`) and the check-and-maybe-add flow
    (`check_url_safety`). */
module Engine {
  import opened Wrappers
  import opened Errors
  import opened Text
  import opened Heuristic
  import opened Overrides
  import opened LabelEncoding
  import opened Dataset

  /** A fitted classifier: a feature vector to a class index. */
  type Classifier = Features -> int

  /** `extract_features`: both probes are handed the netloc; an empty netloc
      scores 0 without probing. */
  function ExtractFeatures(u: Url, probeTls: string -> bool, probeDns: string -> bool): (f: Features)
    ensures 0 <= f.ssl <= 1 && 0 <= f.dns <= 1
    ensures u.netloc == "" ==> f == Features(0, 0)
    ensures u.netloc != "" ==> (f.ssl == 1 <==> probeTls(u.netloc)) && (f.dns == 1 <==> probeDns(u.netloc))
  {
    Features(if u.netloc != "" && probeTls(u.netloc) then 1 else 0,
             if u.netloc != "" && probeDns(u.netloc) then 1 else 0)
  }

  // ---------------------------------------------------------------------
  // Operator labels

  predicate IsValidLabel(s: string) {
    s == Safe || s == Malicious
  }

  /** A typed label, as `strip().capitalize()` turns it. */
  function NormalizeLabel(reply: string): string {
    Capitalize(Strip(reply))
  }

  /** A reply is accepted as `Safe` or `Malicious` exactly when, trimmed of
      whitespace, it spells that word in any letter case. */
  lemma NormalizeLabelIff(reply: string)
    ensures NormalizeLabel(reply) == Safe <==> Lower(Strip(reply)) == "safe"
    ensures NormalizeLabel(reply) == Malicious <==> Lower(Strip(reply)) == "malicious"
    ensures IsValidLabel(NormalizeLabel(reply)) <==> Lower(Strip(reply)) in {"safe", "malicious"}
  {
    var t := Strip(reply);
    LowerOfCapitalize(t);
    CapitalizeOfLower(t);
    assert Lower(Safe) == "safe";
    assert Lower(Malicious) == "malicious";
    assert Capitalize("safe") == Safe;
    assert Capitalize("malicious") == Malicious;
  }

  lemma NormalizeLabelExamples()
    ensures NormalizeLabel(" safe") == Safe
    ensures NormalizeLabel("MALICIOUS") == Malicious
    ensures !IsValidLabel(NormalizeLabel("unsafe"))
  {
    assert Strip(" safe") == "safe" by {
      assert StripLeft(" safe") == StripLeft("safe");
    }
    NormalizeLabelIff(" safe");
    assert Strip("MALICIOUS") == "MALICIOUS";
    NormalizeLabelIff("MALICIOUS");
    assert Strip("unsafe") == "unsafe";
    NormalizeLabelIff("unsafe");
    assert Lower("unsafe") == "unsafe";
  }

  /** The label prompt loop: the first reply is normalised, then the operator
      is asked again until a reply normalises to `Safe` or `Malicious`.
      Returns that label and how many replies it read; running out of replies
      is `input()` raising. */
  method PromptLabel(replies: seq<string>) returns (r: Result<(string, nat), Error>)
    ensures r.Ok? ==> IsValidLabel(r.value.0)
    ensures r.Ok? ==> 0 < r.value.1 <= |replies| && r.value.0 == NormalizeLabel(replies[r.value.1 - 1])
    ensures r.Ok? ==> forall j :: 0 <= j < r.value.1 - 1 ==> !IsValidLabel(NormalizeLabel(replies[j]))
    ensures r.Err? ==> r.error == EndOfInput
    ensures r.Err? <==> forall j :: 0 <= j < |replies| ==> !IsValidLabel(NormalizeLabel(replies[j]))
    ensures r.Ok? ==> AcceptedLabel(replies) == Some(r.value.0)
    ensures r.Err? <==> AcceptedLabel(replies).None?
  {
    AcceptedLabelNone(replies);
    if |replies| == 0 {
      return Err(EndOfInput);
    }
    var chosen := NormalizeLabel(replies[0]);
    var used := 1;
    while !IsValidLabel(chosen)
      invariant 1 <= used <= |replies|
      invariant chosen == NormalizeLabel(replies[used - 1])
      invariant forall j :: 0 <= j < used - 1 ==> !IsValidLabel(NormalizeLabel(replies[j]))
      decreases |replies| - used
    {
      if used == |replies| {
        return Err(EndOfInput);
      }
      chosen := NormalizeLabel(replies[used]);
      used := used + 1;
    }
    AcceptedLabelIsFirstValid(replies, used);
    r := Ok((chosen, used));
  }

  /** The label the prompt loop settles on: the normalised first reply that
      is `Safe` or `Malicious`, if there is one. */
  function AcceptedLabel(replies: seq<string>): (r: Option<string>)
    ensures r.Some? ==> IsValidLabel(r.value)
  {
    if replies == [] then None
    else if IsValidLabel(NormalizeLabel(replies[0])) then Some(NormalizeLabel(replies[0]))
    else AcceptedLabel(replies[1..])
  }

  /** When reply `n - 1` is the first acceptable one, it is the accepted label. */
  lemma {:induction false} AcceptedLabelIsFirstValid(replies: seq<string>, n: nat)
    requires 0 < n <= |replies| && IsValidLabel(NormalizeLabel(replies[n - 1]))
    requires forall j :: 0 <= j < n - 1 ==> !IsValidLabel(NormalizeLabel(replies[j]))
    ensures AcceptedLabel(replies) == Some(NormalizeLabel(replies[n - 1]))
  {
    if n > 1 {
      AcceptedLabelIsFirstValid(replies[1..], n - 1);
    }
  }

  /** No label is accepted exactly when no reply is acceptable. */
  lemma {:induction false} AcceptedLabelNone(replies: seq<string>)
    ensures AcceptedLabel(replies).None? <==> forall j :: 0 <= j < |replies| ==> !IsValidLabel(NormalizeLabel(replies[j]))
  {
    if replies != [] {
      AcceptedLabelNone(replies[1..]);
      assert forall j :: 1 <= j < |replies| ==> replies[1..][j - 1] == replies[j];
    }
  }

  /** `input(...).strip().lower() == 'y'`. */
  predicate WantsToAdd(reply: string) {
    Lower(Strip(reply)) == "y"
  }

  // ---------------------------------------------------------------------
  // Reports

  /** What `check_url_safety` returns once it reaches the prediction. */
  datatype Report =
    | ClassifiedSafe(url: string)
    | ClassifiedOther(url: string, prediction: string)
    | ErrorReport(error: Error)

  /** The prediction's outcome turned into a report: a failure is reported,
      never raised; every label other than `Safe` gets the warning. */
  function ReportOf(url: string, prediction: Result<string, Error>): (r: Report)
    ensures r.ErrorReport? <==> prediction.Err?
    ensures r.ClassifiedSafe? <==> prediction == Ok(Safe)
  {
    match prediction
    case Err(e) => ErrorReport(e)
    case Ok(p) => if p == Safe then ClassifiedSafe(url) else ClassifiedOther(url, p)
  }

  /** The message prefix each report starts with. */
  function Prefix(r: Report): string {
    match r
    case ClassifiedSafe(_) => "\U{2705} The URL '"
    case ClassifiedOther(_, _) => "\U{26A0}\U{FE0F} The URL '"
    case ErrorReport(_) => "\U{274C} Error: "
  }

  /** The message starts with the error mark exactly when the prediction
      failed, and with the check mark exactly when it is `Safe`. */
  lemma ReportPrefixes(url: string, prediction: Result<string, Error>)
    ensures Prefix(ReportOf(url, prediction)) == "\U{274C} Error: " <==> prediction.Err?
    ensures Prefix(ReportOf(url, prediction)) == "\U{2705} The URL '" <==> prediction == Ok(Safe)
  {
  }

  /** Lines 95-105 of `load_and_train_model` on a DataFrame read from the
      file: relabel special hosts, check the columns, drop rows with an empty
      required field, then keep the rows whose features are numeric. */
  method Clean(parse: string -> Url, f: Frame) returns (r: Result<seq<Row>, Error>)
    requires WellFormed(f)
    ensures r == Examples(parse, f)
    ensures r.Ok? ==> forall k :: 0 <= k < |r.value| ==> Usable(r.value[k])
  {
    var dataset := new Table(f);
    var relabelled := dataset.AutoLabelSpecialUrls(parse);
    if relabelled.Fail? {
      return Err(relabelled.error);
    }
    if !(Required <= dataset.columns) {
      return Err(SchemaError);
    }
    dataset.DropMissing();
    var kept := Filter(dataset.rows, NumericRow);
    assert forall k :: 0 <= k < |kept| ==> kept[k] in kept && kept[k] in dataset.rows;
    r := Ok(kept);
  }

  // ---------------------------------------------------------------------
  // The engine state

  /** The globals `model`, `X` and `label_encoder.classes_` as a value,
      together with the labels the encoder was last fitted on. */
  datatype TrainedState = TrainedState(model: Option<Classifier>, trainedX: Option<seq<Features>>,
                                       classes: seq<string>, labels: seq<string>)

  /** A model is only ever stored together with `X`, and the classes are
      those of the labels the encoder was fitted on. */
  predicate Consistent(s: TrainedState) {
    (s.model.Some? ==> s.trainedX.Some?) && s.classes == Classes(s.labels)
  }

  /** What `load_and_train_model` makes of state `s` given the file's
      contents, and what it raises. */
  function Train(parse: string -> Url, fit: (seq<Features>, seq<nat>) -> Classifier,
                 s: TrainedState, contents: Option<Frame>): (r: (TrainedState, Outcome<Error>))
    ensures Consistent(s) ==> Consistent(r.0)
    ensures r.1.Fail? ==> r.0.model == s.model
    ensures r.1.Pass? && contents.Some? ==> r.0.model.Some?
  {
    match contents
    case None => (s, Pass)
    case Some(f) =>
      match Examples(parse, f)
      case Err(e) => (s, Fail(e))
      case Ok(kept) =>
        var labels := Labels(kept);
        var next := TrainedState(s.model, Some(FeatureRows(kept)), Classes(labels), labels);
        if kept == [] then (next, Fail(NoValidData))
        else (next.(model := Some(fit(FeatureRows(kept), FitTransform(labels).1))), Pass)
  }

  /** Training again on the same file changes nothing more. */
  lemma TrainAgainIsTrainOnce(parse: string -> Url, fit: (seq<Features>, seq<nat>) -> Classifier,
                              s: TrainedState, contents: Option<Frame>)
    ensures Train(parse, fit, Train(parse, fit, s, contents).0, contents) == Train(parse, fit, s, contents)
  {
  }

  /** When a record for `url` is appended to a table read from the file and
      the file is read back, training can fail only with "No valid data"; it
      passes and leaves a model when the URL survives the round trip. */
  lemma TrainAfterAppendPasses(parse: string -> Url, fit: (seq<Features>, seq<nat>) -> Classifier,
                               s: TrainedState, f: Frame, url: string, features: Features, choice: string)
    requires AsRead(f) && IsValidLabel(choice)
    ensures var r := Train(parse, fit, s, Some(RoundTrip(Appended(f, NewRecord(url, features, choice)))));
      && (r.1.Fail? ==> r.1 == Fail(NoValidData))
      && (url !in NaStrings ==> r.1 == Pass && r.0.model.Some?)
  {
    AppendedRecordIsTrainedOn(parse, f, url, features, choice);
  }

  class Engine {
    /** `urlparse`, the two network probes and the (split, fit) step of the
        random forest, supplied from outside. */
    const parse: string -> Url
    const probeTls: string -> bool
    const probeDns: string -> bool
    const fit: (seq<Features>, seq<nat>) -> Classifier

    /** The globals `model`, `X` and `label_encoder.classes_`. */
    var model: Option<Classifier>
    var trainedX: Option<seq<Features>>
    var classes: seq<string>
    /** The labels the encoder was last fitted on. */
    ghost var trainedLabels: seq<string>

    ghost function State(): TrainedState
      reads this
    {
      TrainedState(model, trainedX, classes, trainedLabels)
    }

    ghost predicate Valid()
      reads this
    {
      Consistent(State())
    }

    constructor (parse: string -> Url, probeTls: string -> bool, probeDns: string -> bool,
                 fit: (seq<Features>, seq<nat>) -> Classifier)
      ensures Valid()
      ensures this.parse == parse && this.probeTls == probeTls && this.probeDns == probeDns && this.fit == fit
      ensures model.None? && trainedX.None? && classes == []
    {
      this.parse, this.probeTls, this.probeDns, this.fit := parse, probeTls, probeDns, fit;
      model, trainedX, classes := None, None, [];
      trainedLabels := [];
    }

    /** `load_and_train_model`. A missing file changes nothing and raises
        nothing. A failure while relabelling or checking the columns leaves the
        state as it was. Otherwise `X` and the encoder are replaced by those of
        the cleaned rows -- even when there are none, which then raises "No
        valid data" with the old model kept -- and the model is refitted. */
    method LoadAndTrain(store: CsvStore) returns (o: Outcome<Error>)
      requires Valid() && store.Valid()
      modifies this
      ensures Valid()
      ensures (State(), o) == Train(parse, fit, old(State()), store.contents)
      ensures store.contents.None? ==> o == Pass && unchanged(this)
      ensures store.contents.Some? && Examples(parse, store.contents.value).Err? ==>
        o == Fail(Examples(parse, store.contents.value).error) && unchanged(this)
      ensures store.contents.Some? && Examples(parse, store.contents.value).Ok? ==>
        var kept := Examples(parse, store.contents.value).value;
        && trainedX == Some(FeatureRows(kept))
        && trainedLabels == Labels(kept)
        && (kept == [] ==> o == Fail(NoValidData) && model == old(model))
        && (kept != [] ==> o == Pass && model == Some(fit(FeatureRows(kept), FitTransform(Labels(kept)).1)))
    {
      if store.contents.None? {
        return Pass;
      }
      var read := store.Read();
      var cleaned := Clean(parse, read.value);
      if cleaned.Err? {
        return Fail(cleaned.error);
      }
      var kept := cleaned.value;
      trainedX := Some(FeatureRows(kept));
      var encoded := FitTransform(Labels(kept));
      classes := encoded.0;
      trainedLabels := Labels(kept);
      if |kept| == 0 {
        return Fail(NoValidData);
      }
      model := Some(fit(trainedX.value, encoded.1));
      o := Pass;
    }

    /** `predict_url`. Untrained: an error. An overridden host: `Malicious`,
        whatever the classifier would say. Otherwise the classifier's index
        for the URL's features, decoded; a decoded label is one the encoder
        was fitted on. */
    function Predict(url: string): (r: Result<string, Error>)
      requires Valid()
      reads this
      ensures model.None? || trainedX.None? ==> r == Err(ModelNotTrained)
      ensures model.Some? && IsSpecialHost(parse(url).hostname) ==> r == Ok(Malicious)
      ensures r.Ok? && !IsSpecialHost(parse(url).hostname) ==> r.value in trainedLabels
      ensures r.Err? ==> r.error == ModelNotTrained || r.error.UnseenLabel?
      ensures model.Some? && !IsSpecialHost(parse(url).hostname) ==>
        (r.Ok? <==> 0 <= model.value(ExtractFeatures(parse(url), probeTls, probeDns)) < |classes|)
      ensures model.Some? && !IsSpecialHost(parse(url).hostname) ==>
        forall l :: Encode(classes, l) == Some(model.value(ExtractFeatures(parse(url), probeTls, probeDns))) ==> r == Ok(l)
      ensures r.Ok? && !IsSpecialHost(parse(url).hostname) ==>
        Encode(classes, r.value) == Some(model.value(ExtractFeatures(parse(url), probeTls, probeDns)))
    {
      if model.None? || trainedX.None? then Err(ModelNotTrained)
      else if IsSpecialHost(parse(url).hostname) then Ok(Malicious)
      else
        var index := model.value(ExtractFeatures(parse(url), probeTls, probeDns));
        if 0 <= index < |classes| then
          EncodeDecode(classes, index);
          Decode(classes, index)
        else Decode(classes, index)
    }

    /** The steps of `check_url_safety` from state `s` and file contents `c`:
        whether it raises before the prediction (`Pass` when it gets there),
        the file afterwards, and the state afterwards. */
    function CheckFlow(s: TrainedState, c: Option<Frame>, url: string, replies: seq<string>):
      (Outcome<Error>, Option<Frame>, TrainedState)
    {
      var first := if s.model.None? then Train(parse, fit, s, c) else (s, Pass);
      var s1 := first.0;
      if first.1.Fail? then (first.1, c, s1)
      else if c.None? then (Fail(FileNotFound), c, s1)
      else if UrlColumn !in c.value.columns then (Fail(MissingKey("url")), c, s1)
      else if HasUrl(c.value, url) then (Pass, c, s1)
      else if replies == [] then (Fail(EndOfInput), c, s1)
      else if !WantsToAdd(replies[0]) then (Pass, c, s1)
      else match AcceptedLabel(replies[1..])
        case None => (Fail(EndOfInput), c, s1)
        case Some(choice) =>
          var c2 := Some(RoundTrip(Appended(c.value, NewRecord(url, ExtractFeatures(parse(url), probeTls, probeDns), choice))));
          var second := Train(parse, fit, s1, c2);
          (second.1, c2, second.0)
    }

    /** `check_url_safety`: follows `CheckFlow`. When it gets to the
        prediction, the report is the prediction of the final model;
        a failure of the prediction is reported, never raised. */
    method CheckUrlSafety(store: CsvStore, url: string, replies: seq<string>) returns (r: Result<Report, Error>)
      requires Valid() && store.Valid()
      modifies this, store
      ensures Valid() && store.Valid()
      ensures var flow := CheckFlow(old(State()), old(store.contents), url, replies);
        && store.contents == flow.1
        && State() == flow.2
        && (flow.0.Fail? ==> r == Err(flow.0.error))
        && (flow.0.Pass? ==> r == Ok(ReportOf(url, Predict(url))))
    {
      if model.None? {
        var trained := LoadAndTrain(store);
        if trained.Fail? {
          return Err(trained.error);
        }
      }
      var read := store.Read();
      if read.Err? {
        return Err(read.error);
      }
      var dataset := read.value;
      if UrlColumn !in dataset.columns {
        return Err(MissingKey("url"));
      }
      if !HasUrl(dataset, url) {
        // Shown to the operator only; it decides nothing here.
        var advisory := PreliminaryHeuristicCheck(parse(url));
        if |replies| == 0 {
          return Err(EndOfInput);
        }
        if WantsToAdd(replies[0]) {
          var answer := PromptLabel(replies[1..]);
          if answer.Err? {
            return Err(answer.error);
          }
          var chosen := answer.value.0;
          var features := ExtractFeatures(parse(url), probeTls, probeDns);
          var record := NewRecord(url, features, chosen);
          AppendedWellFormed(dataset, record);
          store.Write(Appended(dataset, record));
          var retrained := LoadAndTrain(store);
          if retrained.Fail? {
            return Err(retrained.error);
          }
        }
      }
      r := Ok(ReportOf(url, Predict(url)));
    }

    /** A URL already in the file leaves the file as it is. */
    lemma KnownUrlKeepsFile(s: TrainedState, c: Option<Frame>, url: string, replies: seq<string>)
      requires c.Some? && HasUrl(c.value, url)
      ensures CheckFlow(s, c, url, replies).1 == c
    {
    }

    /** The operator adds the URL: the first training (if any) passed, the
        file has a url column without this URL, the first reply is `y` and a
        later reply is an acceptable label. */
    predicate Adds(s: TrainedState, c: Option<Frame>, url: string, replies: seq<string>) {
      && (s.model.None? ==> Train(parse, fit, s, c).1.Pass?)
      && c.Some? && UrlColumn in c.value.columns && !HasUrl(c.value, url)
      && |replies| > 0 && WantsToAdd(replies[0]) && AcceptedLabel(replies[1..]).Some?
    }

    /** The file changes exactly when the operator adds the URL. */
    lemma AppendsExactlyWhenAdded(s: TrainedState, c: Option<Frame>, url: string, replies: seq<string>)
      ensures CheckFlow(s, c, url, replies).1 != c <==> Adds(s, c, url, replies)
    {
      if Adds(s, c, url, replies) {
        var record := NewRecord(url, ExtractFeatures(parse(url), probeTls, probeDns), AcceptedLabel(replies[1..]).value);
        var g := RoundTrip(Appended(c.value, record));
        assert CheckFlow(s, c, url, replies).1 == Some(g);
        assert |g.rows| == |c.value.rows| + 1;
      }
    }

    /** When the operator adds the URL the file then holds exactly one record
        more, for this URL, with its features and the accepted label, as
        `read_csv` reads them back: the url cell is empty when the URL is an
        NA text. */
    lemma AppendsTheChosenRecord(s: TrainedState, c: Option<Frame>, url: string, replies: seq<string>)
      requires Adds(s, c, url, replies) && AsRead(c.value)
      ensures var record := NewRecord(url, ExtractFeatures(parse(url), probeTls, probeDns), AcceptedLabel(replies[1..]).value);
        && CheckFlow(s, c, url, replies).1 == Some(Appended(c.value, ReadBackRow(record)))
        && (ReadBackRow(record) == record <==> url !in NaStrings)
    {
      var record := NewRecord(url, ExtractFeatures(parse(url), probeTls, probeDns), AcceptedLabel(replies[1..]).value);
      assert CheckFlow(s, c, url, replies).1 == Some(RoundTrip(Appended(c.value, record)));
      RoundTripAppended(c.value, record);
      ReadBackRecord(url, ExtractFeatures(parse(url), probeTls, probeDns), AcceptedLabel(replies[1..]).value);
    }

    /** `check_url_safety` raises exactly when the first training raises, the
        file is missing, it has no url column, the operator runs out of
        replies for an unseen URL, or the retraining after an append raises;
        the last happens only with "No valid data" and only for a URL that
        is read back as an empty cell. It never raises for the prediction. */
    lemma RaisesExactly(s: TrainedState, c: Option<Frame>, url: string, replies: seq<string>)
      requires c.Some? ==> AsRead(c.value)
      ensures var first := if s.model.None? then Train(parse, fit, s, c) else (s, Pass);
        CheckFlow(s, c, url, replies).0.Fail? <==>
          || first.1.Fail?
          || c.None?
          || UrlColumn !in c.value.columns
          || (!HasUrl(c.value, url) &&
              (replies == [] || (WantsToAdd(replies[0]) && AcceptedLabel(replies[1..]).None?)))
          || (Adds(s, c, url, replies) && Train(parse, fit, first.0, CheckFlow(s, c, url, replies).1).1.Fail?)
      ensures Adds(s, c, url, replies) && CheckFlow(s, c, url, replies).0.Fail? ==>
        url in NaStrings && CheckFlow(s, c, url, replies).0 == Fail(NoValidData)
      ensures var o := CheckFlow(s, c, url, replies).0;
        o.Fail? ==> o.error != ModelNotTrained && !o.error.UnseenLabel?
    {
      var first := if s.model.None? then Train(parse, fit, s, c) else (s, Pass);
      if Adds(s, c, url, replies) {
        TrainAfterAppendPasses(parse, fit, first.0, c.value, url,
                               ExtractFeatures(parse(url), probeTls, probeDns), AcceptedLabel(replies[1..]).value);
      }
    }

    /** When the operator adds the URL, the state is what training makes of
        the file as read back, and a model is always in place. */
    lemma AppendRetrains(s: TrainedState, c: Option<Frame>, url: string, replies: seq<string>)
      requires Adds(s, c, url, replies)
      ensures var first := if s.model.None? then Train(parse, fit, s, c).0 else s;
        CheckFlow(s, c, url, replies).2 == Train(parse, fit, first, CheckFlow(s, c, url, replies).1).0
      ensures CheckFlow(s, c, url, replies).2.model.Some?
    {
    }

    /** With a model in place and no append, the state is left as it was. */
    lemma NoAppendKeepsTrainedState(s: TrainedState, c: Option<Frame>, url: string, replies: seq<string>)
      requires s.model.Some? && CheckFlow(s, c, url, replies).1 == c
      ensures CheckFlow(s, c, url, replies).2 == s
    {
    }
  }

  /** Training fixes the whole engine state: two engines trained from the same
      file with the same fitting step give the same verdict for every URL.
      `fit` is a function here, so this says nothing about the random seed
      that makes the real fit repeatable. */
  method ReproducibleTraining(parse: string -> Url, probeTls: string -> bool, probeDns: string -> bool,
                              fit: (seq<Features>, seq<nat>) -> Classifier, contents: Frame, url: string)
    returns (first: Result<string, Error>, second: Result<string, Error>)
    requires WellFormed(contents) && AsRead(contents)
    ensures first == second
  {
    var store := new CsvStore(Some(contents));
    var one := new Engine(parse, probeTls, probeDns, fit);
    var _ := one.LoadAndTrain(store);
    first := one.Predict(url);
    var two := new Engine(parse, probeTls, probeDns, fit);
    var _ := two.LoadAndTrain(store);
    second := two.Predict(url);
  }
}
