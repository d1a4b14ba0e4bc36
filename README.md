# antiphishX classification core in Dafny

antiphishX labels URLs `Safe` or `Malicious`. For each URL it takes two
network signals: whether a TLS handshake succeeds and whether the name
resolves. It keeps a CSV table of labelled URLs, trains a random forest on
that table, and asks the operator to label a URL it has not seen. This
project models the decision logic of `anitphishx.py` and proves properties of
it:

- the advisory heuristic (`preliminary_heuristic_check`);
- the hostname override that forces `Malicious` (`classify_special`, inlined
  again in `predict_url`);
- relabelling the table (`auto_label_special_urls`);
- the cleaning and label encoding done by `load_and_train_model`;
- the model-state checks, override and decoding of `predict_url`;
- in `check_url_safety`: the label prompt loop, appending one record, and
  turning prediction errors into a report instead of raising them.

Modules:

- `Text`: Python's `lower`, `strip`, `capitalize`, substring `in` and
  `endswith`.
- `Heuristic`: the parsed URL record and the heuristic.
- `Overrides`: the override rule.
- `LabelEncoding`: scikit-learn's `LabelEncoder`. The classes are the
  distinct labels, sorted. Encoding gives a label's index and decoding gives
  the label back.
- `Dataset`: values for rows and tables, the relabelling and cleaning
  functions, `CsvStore` (the CSV file, a class) and `Table` (a DataFrame that
  the cleaning changes in place, a class).
- `Errors`: the one error type, one constructor per exception the core raises.
- `Engine`: feature extraction, label normalisation, the prompt loop, the
  trained state as a value with `Train` (what training makes of it), and the
  `Engine` class. That class holds the globals `model`, `X` and
  `label_encoder.classes_` and has the methods `LoadAndTrain`, `Predict` and
  `CheckUrlSafety`. `CheckFlow` states the steps of `check_url_safety` as a
  function of the state, the file, the URL and the replies, and
  `CheckUrlSafety` is proved to follow it.

`urlparse`, the two probes and the random-forest fit are given to `Engine` as
functions:

- `parse: string -> Url`, where `Url` is the record `(scheme, netloc, hostname)`;
- `probeTls`, `probeDns: string -> bool`;
- `fit: (seq<Features>, seq<nat>) -> Classifier`, where a classifier maps a
  feature vector to a class index.

The operator's answers are one sequence of reply lines, read one per `input()`
call.

The model follows what the code does, including behaviour a reader of the
function names might not expect. The one exception is the defect under
"## Findings": the engine-level members use the corrected relabelling, and
"## Left out" names each of them. The behaviours it follows:

- The heuristic reads the netloc, which keeps the port and any credentials,
  not the hostname. So `https://example.com:443` is flagged
  (`Heuristic.PortHidesTld`).
- Both probes are given the netloc, not the hostname.
- The override is a suffix match on `.loclx.io` and a substring match on
  `127.0.0.1` and `localhost`. A bare `loclx.io` is not overridden.
- Missing columns are not always the schema error:
  - a missing `url` column raises a KeyError while relabelling;
  - a missing `label` column raises a KeyError, unless every row of a
    non-empty table is overridden, in which case relabelling creates the
    column.
- A missing backing file does not raise during training. The later
  `read_csv` in `check_url_safety` raises instead.
- Writing the table and reading it back is not lossless: a URL that is an
  empty text or one of pandas' NA texts (`NA`, `null`, `nan`, ...) comes
  back as an empty cell, so its record is never trained on and the URL is
  never found in the table.
- An invalid typed label is not an error. The operator is asked again.
- Appends are not de-duplicated. A new row is written only for a URL that is
  not in the table yet.

## Model

| member | source | states |
|---|---|---|
| `Heuristic.PreliminaryHeuristicCheck` | anitphishx.py:53-67 | the verdict is one of exactly two strings, "Likely Safe 🔐" or "⚠️ Likely Malicious based on heuristics" |
| `Heuristic.AnyContainedMeans` | anitphishx.py:59-60 | the `any(...)` over the tunnel list holds iff some listed name is a substring |
| `Heuristic.AnySuffixMeans` | anitphishx.py:61-62 | the `any(...)` over the TLD list holds iff the domain ends with some listed suffix |
| `Heuristic.HeuristicSafeIff` | anitphishx.py:53-67 | "Likely Safe" iff the lower-cased scheme is `https`, the lower-cased netloc contains none of the seven tunnel/shortener names, and it ends in one of the seven TLDs |
| `Heuristic.HeuristicCaseInsensitive` | anitphishx.py:55-56 | two URLs whose scheme and netloc agree up to letter case get the same verdict |
| `Heuristic.NonHttpsIsMalicious` | anitphishx.py:56-58 | any scheme other than https is flagged |
| `Heuristic.TunnelIsMalicious` | anitphishx.py:59-64 | a netloc containing any tunnel/shortener name is flagged |
| `Heuristic.PortHidesTld` | anitphishx.py:55-62 | `https://example.com:443` is flagged, because the netloc with its port ends in no TLD |
| `Heuristic.ExampleDotComIsSafe` | anitphishx.py:53-65 | `https://example.com` is judged likely safe |
| `Heuristic.BitLyIsMalicious` | anitphishx.py:53-67 | `http://bit.ly/abc` is flagged |
| `Overrides.ClassifySpecial` | anitphishx.py:72-77 | the only label it ever returns is `Malicious` |
| `Overrides.ClassifySpecialIff` | anitphishx.py:75-77 | `Malicious` iff the hostname ends with `.loclx.io` or contains `127.0.0.1` or `localhost`; otherwise no label |
| `Overrides.BareLoclxNotSpecial` | anitphishx.py:75 | the bare hostname `loclx.io` is not overridden |
| `Overrides.SubdomainOfLoclxIsSpecial` | anitphishx.py:75 | `foo.loclx.io` is overridden |
| `Overrides.OverrideImpliesHeuristicMalicious` | anitphishx.py:59-75 | if the hostname occurs in the lower-cased netloc, every overridden URL is also flagged by the heuristic |
| `LabelEncoding.Classes` | anitphishx.py:106 | the classes are strictly ascending (so distinct) and are exactly the labels that occur |
| `LabelEncoding.Encode` | anitphishx.py:106 | a found index points at the label; not found means the label is no class |
| `LabelEncoding.Decode` | anitphishx.py:134 | a decoded value is a class; decoding fails exactly for an index outside the classes |
| `LabelEncoding.FitTransform` | anitphishx.py:106 | one code per label, and every code decodes back to its own label |
| `LabelEncoding.DecodeEncode` | anitphishx.py:133-134 | decode(encode(l)) = l for every class l |
| `LabelEncoding.EncodeDecode` | anitphishx.py:106 | encode(decode(i)) = i for every class index i |
| `LabelEncoding.TwoLabelTable` | anitphishx.py:106 | `Malicious` gets code 0 and `Safe` gets code 1 |
| `Dataset.AutoLabeledAsWritten` | anitphishx.py:72-80 | relabelling as written fails on any table that has an empty url cell |
| `Dataset.EmptyUrlCellFindings` | anitphishx.py:73-102 | a row with an empty url makes the as-written relabelling raise; the corrected one keeps the row, and `dropna` then removes it |
| `Dataset.AutoLabeledEffect` | anitphishx.py:79-82 | fails iff the url column is absent, or the label column is absent and some row is not overridden; otherwise keeps row count, order, url and feature cells, sets overridden rows to `Malicious`, keeps other labels, and adds no column except a label column over a non-empty table |
| `Dataset.AutoLabeledTotal` | anitphishx.py:79-80 | never fails when the url and label columns exist |
| `Dataset.AutoLabeledIdempotent` | anitphishx.py:79-82 | relabelling twice is the same as relabelling once |
| `Dataset.AutoLabeledWellFormed` | anitphishx.py:79-81 | relabelling keeps every field of an absent column empty |
| `Dataset.Examples` | anitphishx.py:102-104 | every training example has all four fields and two numeric features |
| `Dataset.ExamplesAligned` | anitphishx.py:102-105 | the k-th example, `X[k]` and `y[k]` all come from the same source row, at position `ix[k]`. `ix` increases with k and holds every position whose relabelled row is usable. So order and multiplicity are kept, and `dataset.loc[X.index, 'label']` pairs each feature vector with its own row's label |
| `Dataset.IndicesFromLength` | anitphishx.py:102-104 | the surviving DataFrame index has one entry per kept row |
| `Dataset.IndicesFromPoint` | anitphishx.py:102-104 | the k-th kept row is the source row at the k-th surviving index |
| `Dataset.IndicesFromIncreasing` | anitphishx.py:102-104 | filtering keeps the row order |
| `Dataset.IndicesFromComplete` | anitphishx.py:102-104 | every row that passes the filter is kept |
| `Dataset.FilterFilter` | anitphishx.py:102-104 | `dropna` followed by the numeric filter keeps exactly the rows that pass both |
| `Dataset.CleaningNeedsColumns` | anitphishx.py:96-100 | cleaning fails if the url, ssl or dns column is absent; without a label column it succeeds only over a non-empty, wholly overridden table |
| `Dataset.ExamplesAreUsableRows` | anitphishx.py:102-105 | a training example is exactly a relabelled source row with no empty required field and two numeric features, and it keeps its own label |
| `Dataset.HeaderOnlyHasNoExamples` | anitphishx.py:102-109 | a header-only store leaves no rows to train on |
| `Dataset.Appended` | anitphishx.py:165 | the old rows come first, unchanged, and the new row comes last |
| `Dataset.AppendedWellFormed` | anitphishx.py:165 | appending keeps every field of an absent column empty |
| `Dataset.AppendedRecordIsTrainedOn` | anitphishx.py:157-168 | with the corrected relabelling: after an append and the round trip through the file, cleaning always succeeds; the new record is a training example iff its URL is not an NA text, with its own label unless its host is overridden |
| `Dataset.CsvStore.Read` | anitphishx.py:147 | reading a missing file is FileNotFound; otherwise it returns the stored table |
| `Dataset.CsvStore.Write` | anitphishx.py:166 | the file then holds the written table as `read_csv` reads it back (`RoundTrip`) |
| `Dataset.RoundTrip` | anitphishx.py:166 | what comes back from the file holds no NA text |
| `Dataset.RoundTripOfReadTable` | anitphishx.py:147-166 | a table read from the file is written back unchanged |
| `Dataset.RoundTripAppended` | anitphishx.py:165-166 | appending to a read table and writing it out changes only the new record, whose NA texts become empty cells |
| `Dataset.ReadBackRecord` | anitphishx.py:158-166 | a new record comes back as written iff its URL is not an NA text |
| `Dataset.NaUrlIsLost` | anitphishx.py:158-166 | a URL typed as "" or "NA" is read back as an empty url cell |
| `Dataset.KeptRecordIsTrainedOn` | anitphishx.py:102-105 | a complete, numeric record appended to any table is a training example (corrected relabelling) |
| `Dataset.LostRecordIsNotTrainedOn` | anitphishx.py:102-105 | a record read back without its NA url is not trained on |
| `Dataset.Table.AutoLabelSpecialUrls` | anitphishx.py:71-82 | on failure the DataFrame is unchanged; on success it becomes the relabelled table, with the same rows in the same order and the same url and feature cells |
| `Dataset.Table.DropMissing` | anitphishx.py:102 | the rows left are exactly those with no empty required field, in order |
| `Engine.ExtractFeatures` | anitphishx.py:22-50 | both features are 0 or 1; an empty netloc gives (0, 0); otherwise each feature is 1 iff its probe succeeds on the netloc |
| `Engine.NormalizeLabelIff` | anitphishx.py:153-155 | a reply becomes `Safe` (or `Malicious`) iff, stripped and lower-cased, it is `safe` (or `malicious`) |
| `Engine.NormalizeLabelExamples` | anitphishx.py:153-154 | `" safe"` becomes `Safe`, `"MALICIOUS"` becomes `Malicious`, and `"unsafe"` is rejected |
| `Engine.PromptLabel` | anitphishx.py:153-155 | returns a label in {Safe, Malicious}: the normalised form of the first acceptable reply, with every earlier reply rejected; fails iff no reply is acceptable |
| `Engine.AcceptedLabel` | anitphishx.py:153-155 | the label the prompt settles on is `Safe` or `Malicious` |
| `Engine.AcceptedLabelIsFirstValid` | anitphishx.py:153-155 | the accepted label is the normalised first acceptable reply |
| `Engine.AcceptedLabelNone` | anitphishx.py:153-155 | no label is accepted iff no reply is acceptable |
| `Engine.ReportOf` | anitphishx.py:170-177 | a prediction error becomes an error report; only the prediction `Safe` gets the safe report |
| `Engine.ReportPrefixes` | anitphishx.py:170-177 | the message starts with "❌ Error: " iff the prediction failed, and with "✅ The URL '" iff it is `Safe` |
| `Engine.Train` | anitphishx.py:86-113 | training keeps the state consistent (a model only together with `X`, the classes those of the fitted labels); a failure keeps the old model; success with a file leaves a model |
| `Engine.TrainAgainIsTrainOnce` | anitphishx.py:86-113 | training again on the same file changes nothing more |
| `Engine.TrainAfterAppendPasses` | anitphishx.py:157-168 | with the corrected relabelling: training on the file read back after an append can only fail with "No valid data", and passes and leaves a model when the URL is not an NA text |
| `Engine.Clean` | anitphishx.py:95-105 | the in-place relabelling, the column check and `dropna`, followed by the numeric filter, compute exactly the training examples, each of them usable |
| `Engine.Engine.constructor` | anitphishx.py:14-17 | no model, no `X` and no classes at start |
| `Engine.Engine.LoadAndTrain` | anitphishx.py:86-113 | the new state and the outcome are those of `Train`. In detail: missing file: no change. Relabel or schema failure: raised, no change. Otherwise `X`, the classes and the labels are replaced by those of the examples; no examples raises "No valid data" and keeps the old model; else the model is refitted on the examples |
| `Engine.Engine.Predict` | anitphishx.py:122-134 | untrained: ModelNotTrained. Overridden host: `Malicious`, whatever the classifier says. Otherwise the result is the class whose code the classifier returns for the URL's features: for every class `l` encoded as that index the result is `l`, and a result encodes back to that index; decoding fails iff the index is no class |
| `Engine.Engine.CheckUrlSafety` | anitphishx.py:138-177 | the file, the new state and any exception are exactly those of `CheckFlow`: train when there is no model, read the file, look the URL up, ask, prompt, append, retrain. Once the prediction is reached, the report is the final model's prediction |
| `Engine.Engine.KnownUrlKeepsFile` | anitphishx.py:148 | a URL already in the table leaves the file unchanged |
| `Engine.Engine.AppendsExactlyWhenAdded` | anitphishx.py:141-166 | the file changes iff the first training (if any) passed, the file has a url column without this URL, the first reply is `y` and a later reply is acceptable |
| `Engine.Engine.AppendsTheChosenRecord` | anitphishx.py:157-166 | when the URL is added, the file gains exactly one record, this URL with its features and the accepted label, as read back; the record comes back as written iff the URL is not an NA text |
| `Engine.Engine.RaisesExactly` | anitphishx.py:138-177 | raises iff the first training raises, the file is missing, it has no url column, the replies run out for an unseen URL, or the retraining after an append raises. The last happens only with "No valid data", for a URL read back as an empty cell. It never raises for the prediction |
| `Engine.Engine.AppendRetrains` | anitphishx.py:157-168 | when the operator adds the URL, the state is what training makes of the file as read back, and a model is in place |
| `Engine.Engine.NoAppendKeepsTrainedState` | anitphishx.py:141-168 | with a model in place and no append, the trained state is unchanged |
| `Engine.ReproducibleTraining` | anitphishx.py:86-113 | training fixes the whole engine state: two engines trained from the same file with the same fitting function give the same prediction (the random seed itself is not modelled, since `fit` is a function) |

## Left out

- Dataset.Table.AutoLabelSpecialUrls: uses the corrected relabelling, so it does not raise the AttributeError that line 79 raises on an empty url cell (see "## Findings").
- Engine.Clean: built on the corrected relabelling. A table with an empty url cell is cleaned instead of raising the AttributeError of line 79.
- Engine.Train: built on the corrected relabelling. Training on a file with an empty url cell does not raise the line 79 AttributeError.
- Engine.Engine.LoadAndTrain: follows `Engine.Train`, so it does not raise the AttributeError on an empty url cell.
- Engine.Engine.CheckUrlSafety: follows `CheckFlow`, which trains through `Engine.Train`. So the AttributeError out of lines 142 and 168, for a file with an empty url cell, is not modelled.
- Dataset.AppendedRecordIsTrainedOn: holds for the corrected relabelling only. In the program as written, cleaning after an append raises when another row has an empty url cell.
- Engine.TrainAfterAppendPasses: holds for the corrected relabelling only, for the same reason.
- Engine.Engine.RaisesExactly: holds for the corrected relabelling only. As written, a file with an empty url cell also raises the AttributeError at line 142 or 168. That includes a cell read back from a URL typed as an NA text.
- Engine.Engine.AppendsExactlyWhenAdded: holds for the corrected relabelling only; as written, a file with an empty url cell makes the first training at line 142 raise, so nothing is appended.
- Engine.Engine.AppendsTheChosenRecord: describes `CheckFlow`, which trains through the corrected relabelling, for the same reason.
- Engine.Engine.AppendRetrains: holds for the corrected relabelling only; as written, retraining on a file with an empty url cell raises instead.
- Dataset.KeptRecordIsTrainedOn: holds for the corrected relabelling only, for the same reason as `Dataset.AppendedRecordIsTrainedOn`.
- The TLS and DNS probes (`ssl_certificate_valid`, `dns_lookup`) are function
  parameters that take the netloc. Their sockets, 3-second timeouts and
  `except` clauses are not modelled. For an empty netloc, the model scores 0
  without calling the probe, as the code does.
- The probes run twice for a new URL, once for the record and once for the
  prediction. The model gives the same answer both times, while the network
  might not.
- `urlparse` is the parameter `parse`. The one parsing failure that is
  modelled is an empty (NaN) url cell.
- The random forest, `train_test_split`, `accuracy_score` and
  `classification_report` are replaced by the `fit` parameter. Errors raised
  inside these libraries are not modelled. Two examples: a split of a single
  row, and a report whose class count differs from the encoder's.
- Engine.Engine.LoadAndTrain: its report of accuracy and per-class metrics is not
  modelled (floating point, printed only).
- File I/O: `os.path.exists`, `read_csv` and `to_csv` are `CsvStore.contents`
  read and reassigned. CSV type inference is abstracted into the cell kinds
  Missing, Number (integers only) and NonNumeric. Columns other than the four
  required ones are not represented. The write/read round trip models only
  pandas' default NA texts in the url and label fields. Other conversions
  are not modelled: an NA text in a feature column, and a url column read
  back as numbers.
- Relabelling an empty table is modelled as no change. What pandas'
  row-wise `apply` does on a frame with no rows is not modelled.
- Console output: prints, the blockchain messages and ANSI colours are not
  modelled. The report text is kept only as its prefix (`Engine.Prefix`). The
  heuristic verdict is computed but only shown, as in the code.
- The `__main__` block and the credits have no logic to model.
- `Text`: only ASCII letters change case, and only the ASCII whitespace of
  `str.isspace` is stripped. Python's full Unicode case mapping and titlecase
  are not modelled.

## Findings

| source | as written | input that shows it | evidently intended | confidence | as-written member | corrected member |
|---|---|---|---|---|---|---|
| anitphishx.py:73-79 | `auto_label_special_urls` calls `urlparse` on every url cell before the `dropna` at line 102. `urlparse` raises AttributeError on an empty (NaN) cell, so training fails | a CSV row `,1,1,Safe` under the full header (`Dataset.EmptyUrlCellFindings`) | a row with an empty url is dropped by the cleaning, like any other row with an empty required field | medium, not executed | `Dataset.AutoLabeledAsWritten` | `Dataset.AutoLabeled` |

The program can reach this on its own: a URL typed as "" or an NA text is
written out and read back as an empty url cell (`Dataset.NaUrlIsLost`), and
every later training then raises. The engine uses the corrected relabelling: an empty url cell gets no
override. `Dataset.AutoLabeledTotal` and `Dataset.EmptyUrlCellFindings` prove
that such a row no longer fails relabelling and is removed by `dropna`.
