# HeartGuard dashboard, feature encoders and sound service, in Dafny

HeartGuard classifies heart sounds. A web dashboard lists the recorded
sounds, lets a clinician choose one together with the patient's gender and
the auscultation site, and asks a small service for a diagnosis. The
service lists the sound files, streams one back, and runs a pickled
scikit-learn pipeline whose custom transformers turn the request into
feature columns.

This project models the decision logic of the three programs:

- `dashboard.dfy` (module `Dashboard`): the dashboard page of
  `frontend/app/page.tsx`. It is the class `DashboardPage`, with the
  page's five state fields and one method per event that overwrites them:
  - the catalog response at mount;
  - the three selects;
  - the analyze button, which starts a request;
  - the success or failure of that request.

  The pure rendering decisions are functions beside the class: the
  disabled button, the favorable colouring and the upper-cased label.
- `location_encoding.dfy` (module `LocationEncoding`): the
  `LocationFeatureExtraction` transformer of `extraction.py`. It is the
  site-code table with the pandas steps `map`, `get_dummies`, `reindex`,
  `drop` and `concat`. It is proved to agree with an independent one-hot
  reference definition.
- `sound_features.dfy` (module `SoundFeatures`): the column shape of
  `SoundFeatureExtraction.transform`:
  - the renaming of labels;
  - the loop that builds the 84 feature keys;
  - the dropped id column and the appended feature columns.
- `backend.dfy` (module `Backend`): the logic of `main.py`:
  - the ids `get_sounds` derives from the directory listing;
  - the path `listen_boosted_sound` builds from an id, and its 404;
  - request validation with the `"Heart Sound ID"` alias;
  - `predict`, which echoes the id.
- `end_to_end.dfy` (module `EndToEnd`): how the pieces meet:
  - the body the page posts is accepted by the service;
  - the response echoes the page's selection;
  - the one-row frame the service builds has the expected columns;
  - the page's site names are compared with the encoder's codes.
- `text.dfy`, `frames.dfy`, `results.dfy`, `wire.dfy` hold the helpers:
  - ASCII case mapping, decimal rendering, Python `str.replace`,
    `str.split` and `str.join`;
  - a DataFrame as column labels plus rows;
  - `Option` and `Result`;
  - JSON objects.

Abstract inputs stand for I/O:
- the directory listing is a sequence of names;
- the files that exist are a set of paths;
- the classifier is a function parameter;
- each network response is an event method on the page.

## Model

| member | source | states |
|---|---|---|
| Dashboard.DashboardPage.constructor | frontend/app/page.tsx:18-25 | A fresh page has no sounds, no selection, gender M, location "Apex" (the first offered site) and an idle, empty prediction; the page invariant holds |
| Dashboard.DashboardPage.CatalogLoaded | frontend/app/page.tsx:27-32 | The catalog becomes the response list; the first id is selected when there is one, otherwise the selection stays ""; nothing else changes; the invariant (no sounds means no selection, otherwise a listed sound is selected) is kept |
| Dashboard.DashboardPage.CatalogFailed | frontend/app/page.tsx:33 | A failed catalog load yields the fixed alert text and changes no state field |
| Dashboard.DashboardPage.SelectSound | frontend/app/page.tsx:91-100 | Choosing a listed id sets the selection to it and leaves the other fields alone |
| Dashboard.DashboardPage.SelectGender | frontend/app/page.tsx:107-114 | Choosing a gender sets it and leaves the other fields alone |
| Dashboard.DashboardPage.SelectLocation | frontend/app/page.tsx:118-124 | Choosing one of the offered sites sets it and leaves the other fields alone |
| Dashboard.DashboardPage.StartAnalyze | frontend/app/page.tsx:36-43 | From any status the prediction becomes an empty "loading" one, which disables the button; the returned body holds the gender, location and selected id of that moment, "" when the catalog is empty; the form is unchanged |
| Dashboard.DashboardPage.Click | frontend/app/page.tsx:161-163 | A click while loading does nothing and sends nothing; otherwise it starts an analysis and returns its body, so a second request never starts while one is in flight |
| Dashboard.DashboardPage.AnalyzeSucceeded | frontend/app/page.tsx:44 | The answer is stored verbatim with status success; the form fields are unchanged |
| Dashboard.DashboardPage.AnalyzeFailed | frontend/app/page.tsx:45-46 | The fixed message "Hata oluştu" is stored with status error; the form fields are unchanged |
| Dashboard.ReportBody | frontend/app/page.tsx:184-195 | The placeholder is shown exactly in idle, a label exactly in success (the result upper-cased), and nothing in loading or error |
| Dashboard.FavorableIffShownNormal | frontend/app/page.tsx:176-191 | A result gets the favorable colour exactly when its upper-cased display is "NORMAL" |
| Dashboard.ReportTone | frontend/app/page.tsx:174-190 | The card is coloured favorably exactly when it shows "NORMAL", unfavorably exactly when it shows any other label, and neutrally exactly when it shows no label |
| Dashboard.ButtonDisabled | frontend/app/page.tsx:163 | The button is disabled exactly while loading, and then the card is neutral and shows nothing |
| Dashboard.RequestBody | frontend/app/page.tsx:39-43 | The posted body has exactly the keys "Gender", "Location" and "Heart Sound ID", all strings, holding the gender's value, the location and the selected id |
| Dashboard.FavorableIgnoresCase | frontend/app/page.tsx:176 | Upper- or lower-casing a result first does not change whether it is favorable |
| Dashboard.FavorableExamples | frontend/app/page.tsx:176 | "Normal", "normal" and "NORMAL" are favorable; "Murmur", "Abnormal" and the error message are not |
| Dashboard.ValidLocationsDistinct | frontend/app/page.tsx:10-13 | The location select offers 12 pairwise-distinct sites |
| LocationEncoding.Fit | extraction.py:79-80 | `fit` returns the transformer unchanged |
| LocationEncoding.MapCodes | extraction.py:85 | `Series.map`: a cell that is a key of the table becomes its token string, anything else NaN; the length is kept |
| LocationEncoding.GetDummies | extraction.py:86 | `get_dummies` creates one column per non-empty separated tag of the values, each as long as the input |
| LocationEncoding.Reindex | extraction.py:88 | `reindex` yields one row per input row and one cell per requested label |
| LocationEncoding.DummiesReindexed | extraction.py:86-88 | After `get_dummies` and `reindex(fill_value=0)`, the cell of a requested label is 1 exactly when the label is a part of the row's mapped value, whether or not `get_dummies` created that column |
| LocationEncoding.Transform | extraction.py:82-94 | No `Location` column raises, and so does more than one; otherwise the result is rectangular, its columns are the input's minus `Location` followed by the nine features in order, and every row keeps its other cells and its position; the input frame is a value and is not changed |
| LocationEncoding.TransformEncodes | extraction.py:85-92 | Each output indicator cell equals the reference one-hot encoding (`OneHot`) of the row's `Location` cell |
| LocationEncoding.UnknownCodeIsZero | extraction.py:85-88 | A location that is not a key of the table yields nine zeros |
| LocationEncoding.TwelveCodes | extraction.py:60-74 | The table has exactly 12 keys |
| LocationEncoding.SameCodes | extraction.py:60-74 | The raw table and the token table are keyed by the same twelve codes |
| LocationEncoding.EntryIsWellFormed | extraction.py:60-77 | Every table value is its tokens joined with ","; the tokens are distinct, contain no ",", and are all among the nine features |
| LocationEncoding.TokensOf | extraction.py:60-77 | Splitting a table value on "," gives exactly its tokens, each one of the nine features |
| LocationEncoding.FeaturesDistinct | extraction.py:76-77 | The nine feature names are pairwise distinct |
| LocationEncoding.OnesMatchTokens | extraction.py:85-88 | A known code sets exactly as many indicators as its value has tokens |
| LocationEncoding.ApexSetsOne | extraction.py:62 | "Apex" sets one indicator |
| LocationEncoding.LlsbSetsThree | extraction.py:64 | "LLSB" sets three indicators |
| LocationEncoding.ApexEntry | extraction.py:62 | The "Apex" entry is well formed |
| LocationEncoding.LcEntry | extraction.py:63 | The "LC" entry is well formed |
| LocationEncoding.LlsbEntry | extraction.py:64 | The "LLSB" entry is well formed |
| LocationEncoding.LusbEntry | extraction.py:65 | The "LUSB" entry is well formed |
| LocationEncoding.RcEntry | extraction.py:66 | The "RC" entry is well formed |
| LocationEncoding.RusbEntry | extraction.py:67 | The "RUSB" entry is well formed |
| LocationEncoding.LuaEntry | extraction.py:68 | The "LUA" entry is well formed |
| LocationEncoding.RuaEntry | extraction.py:69 | The "RUA" entry is well formed |
| LocationEncoding.LmaEntry | extraction.py:70 | The "LMA" entry is well formed |
| LocationEncoding.RmaEntry | extraction.py:71 | The "RMA" entry is well formed |
| LocationEncoding.LlaEntry | extraction.py:72 | The "LLA" entry is well formed |
| LocationEncoding.RlaEntry | extraction.py:73 | The "RLA" entry is well formed |
| SoundFeatures.Underscored | extraction.py:15 | Every space of a label becomes "_" and every other character is kept; the label is unchanged exactly when it has no space |
| SoundFeatures.UnderscoredIsReplace | extraction.py:15 | That per-character rewrite is what Python's `str.replace(" ", "_")` produces |
| SoundFeatures.Renamed | extraction.py:15 | Every label is renamed, in place and in order |
| SoundFeatures.NoSpaceAfterRename | extraction.py:15 | No renamed label contains a space |
| SoundFeatures.HeartSoundIdRenamed | extraction.py:15-19 | "Heart Sound ID" becomes the "Heart_Sound_ID" column the loop reads |
| SoundFeatures.FeatureKeys | extraction.py:32-45 | Building the dict key by key (four fixed keys, then four per index 0..19) yields exactly the feature schema |
| SoundFeatures.KeysUpToShape | extraction.py:41-45 | After n iterations there are 4 + 4n keys, all with index below n and pairwise distinct |
| SoundFeatures.NameInjective | extraction.py:34-45 | Distinct feature keys have distinct names |
| SoundFeatures.SchemaShape | extraction.py:32-45 | The schema has exactly 84 pairwise-distinct names |
| SoundFeatures.TransformColumns | extraction.py:12-54 | No "Heart_Sound_ID" column after renaming raises, and so does more than one; otherwise the output is the renamed labels without that column, followed by the 84 feature names, or by none when there are no rows |
| Backend.GetSounds | main.py:51 | At most one id per entry; every ".wav" entry contributes its name with every ".wav" removed, and every id comes from such an entry |
| Backend.GetSoundsAppend | main.py:51 | The listing order is kept: the ids of two listings in sequence are the ids of each, in sequence |
| Backend.Listen | main.py:63-66 | The id succeeds exactly when `SoundsConcated/<id>.wav` exists, and then names that path; otherwise 404 with the fixed detail |
| Backend.IdRoundTrip | main.py:51-63 | For a file `x + ".wav"` where `x` has no ".wav", the id is `x` and `listen` builds that file's path back |
| Backend.ListedIdIsListenable | main.py:51-66 | When every listed entry exists, every such id is offered and `listen` opens its file |
| Backend.CollidingIds | main.py:51 | "a.wav" and "a.wav.wav" are both offered as "a", and `listen("a")` does not open "a.wav.wav" |
| Backend.RemovalCanLeaveWav | main.py:51 | "..wavwav.wav" is offered as ".wav", an id that still contains ".wav" |
| Backend.StrippedAgreesOnSingleWav | main.py:51 | When every listed stem is free of ".wav", the ids as written equal the corrected ids, so the two derivations differ only on names with a second ".wav" |
| Backend.IdNoLongerThanName | main.py:51 | Every offered id is derived, by removing every ".wav", from a listed ".wav" name that is at least as long as the id |
| Backend.Stem | main.py:51 | The corrected id is the name without its ".wav" suffix: appending ".wav" gives the name back |
| Backend.GetSoundsStripped | main.py:51 | With suffix stripping, every id plus ".wav" is a listed name |
| Backend.StrippedIdsAreListenable | main.py:51-66 | With suffix stripping, every offered id can be listened to when the listed files exist, and `listen` opens the file the id came from |
| Backend.StemInjective | main.py:51 | Distinct files get distinct stripped ids |
| Backend.ParseFeatures | main.py:41-45 | A body is accepted exactly when "Gender", "Location" and "Heart Sound ID" are all strings, and the request then holds those three values |
| Backend.ParseBody | main.py:41-45 | Parsing the body written for a request gives that request back |
| Backend.FieldNameIsNotAccepted | main.py:45 | A body that uses the field name "Heart_Sound_ID" instead of the alias is rejected |
| Backend.InputFrame | main.py:95-96 | The frame has one row and exactly the columns "Gender", "Location", "Heart Sound ID", in field order and each once; each column is a key of the aliased body and its cell holds that key's value |
| Backend.Predict | main.py:92-106 | `predict` succeeds exactly when validation passes and the classifier answers; a validation error is passed on unchanged, a classifier exception becomes a 500; on success it returns the classifier's label on the one-row frame and echoes "Heart Sound ID" unchanged |
| EndToEnd.OnlyApexIsACode | frontend/app/page.tsx:10-13 | Of the twelve sites the page offers, only "Apex" is a key of the encoder's table (extraction.py:60-74) |
| EndToEnd.OtherSitesEncodeToZero | extraction.py:85-88 | Every offered site except "Apex" is encoded as nine zeros |
| EndToEnd.ApexEncoding | extraction.py:62 | "Apex" sets exactly the "apex" indicator |
| EndToEnd.RequestParses | frontend/app/page.tsx:39-43 | The body the page posts passes validation, and the request holds the page's gender, location and id |
| EndToEnd.PredictEchoesSelection | main.py:92-104 | The page's request never fails validation: it is answered with the classifier's label and the id the page sent, or with a 500 when the classifier raises |
| EndToEnd.RenamedRequestColumns | extraction.py:15 | Renaming keeps "Gender" and "Location" and turns the alias into "Heart_Sound_ID" |
| EndToEnd.SoundColumnsOfRequest | main.py:95-96 | The sound transformer maps the request's one-row frame to "Gender", "Location" and the 84 feature names |
| EndToEnd.RequestFrameEncoding | extraction.py:82-94 | The location transformer maps the request's frame to "Gender", "Heart Sound ID" and the nine features, which encode the request's location |
| EndToEnd.LocationColumnsOfRequest | frontend/app/page.tsx:10-13 | For each site the page offers, the nine features are all zero except "apex" for "Apex" |

## Left out

- Audio analysis is left out: loading, ZCR, spectral centroid, MFCC and deltas (extraction.py:21-45). Only the key schema is modelled.
- Peak normalisation and WAV streaming in `listen_boosted_sound` (main.py:68-89) are left out. They are floating point and library I/O.
- The pickled model and label encoder (main.py:23-24, 98) are left out. The classifier is a parameter of `Backend.Predict` that either answers with a label or raises. When it raises is not modelled, for example on a missing sound file (extraction.py:21) or on the "" id the page sends with an empty catalog.
- HTTP plumbing is replaced by abstract inputs: axios, `alert`, FastAPI routing, CORS, the static mount, `os.listdir` and `os.path.exists`.
- The request of `handleAnalyze` is asynchronous. It is modelled as two events on one thread, a start and a completion.
- JSX layout, styling, the spinner and the button caption are left out. So are the header and the `<audio>` element.
- `toLowerCase` and `toUpperCase` are modelled on ASCII letters only. Full Unicode case mapping is not modelled.
- pandas is modelled only as column labels, positional rows and 0/1 cells. Index alignment, dtypes and the column order of `get_dummies` before `reindex` are not modelled.
- `SoundFeatureExtraction.fit` is not modelled. It returns `self`, like `LocationEncoding.Fit`.
- `SoundFeatureExtraction.transform` is modelled for column names only. The values and the path each row's sound is read from are not modelled.
- LocationEncoding.Transform: a frame with several `Location` columns is modelled as an error, where pandas would build a frame from the selection and fail later or misbehave.
- SoundFeatures.TransformColumns: several `Heart_Sound_ID` columns are modelled as an error, for the same reason.
- Dashboard.DashboardPage.CatalogLoaded requires an empty catalog. The effect that calls it has an empty dependency list, so in a production build it fires once, on the freshly mounted page. In development, React Strict Mode mounts the effect twice, so a second response can arrive with the catalog already filled; the model does not cover that.
- Dashboard.DashboardPage.AnalyzeSucceeded and AnalyzeFailed require the loading status. A completion only follows the start of its own request, and nothing else writes `prediction` in between.
- Dashboard.DashboardPage.SelectSound and SelectLocation require a value the select offers. The page's selects produce no other value.
- The error state renders nothing. The message "Hata oluştu" is stored in `prediction.result`, but the report body (page.tsx:184-195) only renders the idle placeholder and the success label, so it is never shown. The model follows the code; see `Dashboard.ReportBody`.
- The page and the location encoder disagree on site names. The page offers and sends display names such as "LC (Left,Carotid)" (page.tsx:10-13). The encoder's table is keyed by short codes such as "LC" (extraction.py:60-74). `EndToEnd.OnlyApexIsACode` shows that only "Apex" matches, so every other site reaches the model as nine zeros.

## Findings

| source | as written | input that shows it | evidently intended | confidence | as-written member | corrected member |
|---|---|---|---|---|---|---|
| main.py:51 | `f.replace(".wav", "")` removes every ".wav" in the name, not just the suffix. | "a.wav" and "a.wav.wav" are both listed as "a", and `listen("a")` opens only "a.wav". "..wavwav.wav" is listed as ".wav". | Strip only the ".wav" suffix, so that every listed id maps back to its own file and distinct files get distinct ids. | not executed | Backend.CollidingIds | Backend.StrippedIdsAreListenable |
