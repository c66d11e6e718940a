# TSV shot list to YAML: a verified model of the converter's core

The converter reads a tab-separated shot list, one row per shot. It cleans
every cell and files each row into a dictionary keyed first by phase number,
then by scene number. Blank phase and scene cells carry the last number seen
forward. It then assembles a project of phases, scenes and shots, dumps it
as YAML, and inserts empty lines before phases, scenes and shots. A batch
driver records per-file failures in an error handler.

The model covers:

- **`TSVReader`** (`tsv_reader.dfy`, module `TsvReader`): cell cleaning,
  the field-mapping lookup, row cleaning and the row validity test. Cells
  are `Missing`, text, or another scalar.
- **`DataProcessor.process_tsv_data` and its helpers** (`hierarchy.dfy`,
  module `Hierarchy`):
  - the row loop is written twice. First as functions over values
    (`Admit`, `Step`, `Run`), the specification. Then as the loop itself
    (`ProcessRows`), with an `Accumulator` class whose `phases` dictionary
    the three helper methods update in place. The loop is proved equal to
    the specification.
  - exceptions that fail the whole file are a `Result` error.
- **What the grouping means** (`grouping.dfy`, module `Grouping`):
  - a reference definition over the sequence of accepted rows (`Log`).
  - one phase per phase number and one scene per (phase, scene) pair, even
    when their rows are not adjacent.
  - each phase and scene is headed by the first row filed under it.
  - each scene holds the shots of all its rows, in row order.
  - the dictionary holds exactly one shot per accepted row.
- **`build_project_structure` and `_create_*_model`** (`assembly.dfy`,
  module `Assembly`): loops over `sorted` keys, proved against functions
  that give the phases and scenes in ascending key order. The project is a
  class whose `phases` list grows in place. Also covered:
  `get_project_title` and `initialize_project`.
- **`YAMLWriter`** (`yaml_writer.dfy`, module `YamlWriter`): the blank-line
  pass over the dumped text, as a loop proved against a function, and the
  phase, scene and shot totals.
- **`ErrorHandler`** (`error_handler.dfy`, module `ErrorHandling`): a class
  with the error list and the file counters. Also the way the batch driver
  uses it (`ProcessFiles`).
- **One file's conversion** (`pipeline.dfy`, module `Pipeline`): title,
  empty project, rows to dictionary, dictionary to project. The project's
  `total_shots` is the frame's row count, skipped rows included. The
  shot count the writer sums over the assembled phases is proved to equal
  the number of accepted rows. Each emitted scene is proved to carry the
  attributes of the first row filed under it.
- **Helper modules for Python behaviour**: `pystr.dfy` (`str` operations),
  `pynum.dfy` (`int(...)` and `int(float(...))` on text),
  `ordered_keys.dfy` (`sorted(d.keys())` and sums over dictionaries) and
  `wrappers.dfy` (`Option`, `Result`).

Points of the code's behaviour that the model states:

- Grouping is by dictionary key. A phase or scene number that appears
  again after other rows merges into the earlier entry; it does not start
  a new group.
- Phases and scenes come out in ascending number, not in input order.
- `camera_movement` and `shot_timecode` are present exactly when their
  exclusion flag is off, whatever the row holds.
- The blank-line pass puts one empty line before a phase, two before a
  scene and one before a shot. The code has no rule of its own for long
  text: wrapping is left to the YAML library.

## Model

| member | source | states |
|---|---|---|
| TsvReader.CleanValue | src/tsv_to_yaml_converter/tsv_reader.py:23-42 | the result is missing iff the cell is missing or blank after stripping and removing U+FEFF/U+200B; a non-text scalar comes back unchanged; a text result is non-empty and is either the scrubbed text or its mapping |
| TsvReader.Scrub | src/tsv_to_yaml_converter/tsv_reader.py:30 | the scrubbed text holds no U+FEFF and no U+200B, and white-space-only text scrubs to "" |
| TsvReader.CleanValueUnmapped | src/tsv_to_yaml_converter/tsv_reader.py:30-40 | with no applicable mapping the result is the scrubbed text, free of U+FEFF and U+200B |
| TsvReader.CleanValueMapped | src/tsv_to_yaml_converter/tsv_reader.py:35-50 | a named column whose table has a non-empty entry for the exact cleaned text yields that entry |
| TsvReader.ApplyFieldMapping | src/tsv_to_yaml_converter/tsv_reader.py:44-50 | a value is found iff the field has a table holding the exact key, and it is that table's entry |
| TsvReader.Replacement | src/tsv_to_yaml_converter/tsv_reader.py:35-38 | a replacement is used iff a non-empty column name is given, its table has the exact cleaned text, and the entry is non-empty; it is then that entry |
| TsvReader.CleanPadded | src/tsv_to_yaml_converter/tsv_reader.py:25-30 | text padded with white space cleans to the text inside the padding |
| TsvReader.CleanValueBlankExamples | tests/test_converter.py:22-24 | None, "" and "   " clean to missing |
| TsvReader.CleanValuePaddedExample | tests/test_converter.py:27 | "  test  " cleans to "test" |
| TsvReader.CleanValuePlainExample | tests/test_converter.py:28 | "test" cleans to "test" |
| TsvReader.CleanValueKeepsSpaceAfterZeroWidth | src/tsv_to_yaml_converter/tsv_reader.py:30 | stripping comes before removing U+200B, so a space behind a leading U+200B survives |
| TsvReader.CleanRowData | src/tsv_to_yaml_converter/tsv_reader.py:52-54 | exactly one entry per column, each the cell cleaned under its column's name |
| TsvReader.IsValidRow | src/tsv_to_yaml_converter/tsv_reader.py:56-58 | `bool(row_data.get("SHOT_NUM"))`: valid iff the row has a SHOT_NUM entry that is neither None, nor "", nor 0 |
| TsvReader.ValidRowIffShotNumber | src/tsv_to_yaml_converter/tsv_reader.py:56-58 | a cleaned row is valid iff it has a SHOT_NUM column whose cell cleans to text or a non-zero scalar |
| TsvReader.CleanRows | src/tsv_to_yaml_converter/data_processor.py:52-53 | one cleaned row per frame row, in order |
| Hierarchy.SentenceCase | src/tsv_to_yaml_converter/data_processor.py:40-42 | same length, no underscore, first character upper case and all others lower case |
| Hierarchy.SentenceCaseIdempotent | src/tsv_to_yaml_converter/data_processor.py:40-42 | sentence case applied twice equals applied once |
| Hierarchy.FormatValue | src/tsv_to_yaml_converter/data_processor.py:25-44 | falsy values and other fields pass unchanged; truthy text of the seven display fields is put in sentence case; a truthy non-text value there raises |
| Hierarchy.FormatValueIdempotent | src/tsv_to_yaml_converter/data_processor.py:25-44 | formatting a formatted value changes nothing |
| Hierarchy.ToInt | src/tsv_to_yaml_converter/data_processor.py:60 | a scalar converts to itself; text converts iff `int` parses it, to that number; None raises |
| Hierarchy.SceneNumber | src/tsv_to_yaml_converter/data_processor.py:62-66 | `int(float(x))` for SCENE_NUM with its ValueError and TypeError caught: None is no number, a scalar is itself, and text that `int` reads keeps that value through `float` |
| Hierarchy.SceneOverflows | src/tsv_to_yaml_converter/data_processor.py:62-66 | infinity text makes `int(float(x))` raise an OverflowError, which `except (ValueError, TypeError)` does not catch; such text is never a scene number |
| Hierarchy.ShotNumber | src/tsv_to_yaml_converter/data_processor.py:71 | byte order marks are dropped, then the text converts iff `int` parses it; a scalar converts to itself; otherwise SHOT_NUM raises |
| Hierarchy.OptionalInt | src/tsv_to_yaml_converter/data_processor.py:99-108 | a falsy cell gives None; a truthy one gives its integer, or raises when it is not one |
| Hierarchy.NewPhase | src/tsv_to_yaml_converter/data_processor.py:96-111 | the new phase has its number, no scenes, and the time period from PHASE_START and PHASE_END; it fails iff one of them fails to convert |
| Hierarchy.NewScene | src/tsv_to_yaml_converter/data_processor.py:122-137 | it succeeds iff the four display fields format; the new scene has its number, no shots, the row's raw cells and the formatted period, season, weather and location name |
| Hierarchy.CreateShotData | src/tsv_to_yaml_converter/data_processor.py:151-179 | it succeeds iff the three display fields format; the shot carries its number and the row's cells; specific area and movement fields are formatted; `oref` is present iff the cleaned OREF is exactly "TRUE" |
| Hierarchy.EnsurePhase | src/tsv_to_yaml_converter/data_processor.py:91-111 | an existing phase leaves the dictionary as it is; otherwise exactly the new phase is added and nothing else changes |
| Hierarchy.EnsureScene | src/tsv_to_yaml_converter/data_processor.py:113-137 | an existing scene changes nothing; otherwise exactly the new scene is added to its phase |
| Hierarchy.AddShot | src/tsv_to_yaml_converter/data_processor.py:139-149 | the shot goes at the end of its scene's list; no other phase, scene or attribute changes |
| Hierarchy.ProcessRowData | src/tsv_to_yaml_converter/data_processor.py:78-89 | it succeeds iff the three helpers succeed in turn; then the phase and scene exist, the keys are the old ones plus the phase, and the row's shot is last in its scene |
| Hierarchy.Admit | src/tsv_to_yaml_converter/data_processor.py:55-71 | every case: rows without a truthy SHOT_NUM are skipped; a bad PHASE_NUM raises; an infinite SCENE_NUM raises (OverflowError is not caught); another unparsable SCENE_NUM skips the row but keeps the new phase number; nothing is filed before both numbers are known; once they are, the row is filed under them if SHOT_NUM converts, and otherwise the row raises the SHOT_NUM error, which fails the file |
| Hierarchy.Step | src/tsv_to_yaml_converter/data_processor.py:52-74 | one pass of the loop: a skipped row files nothing and only moves the carried numbers; the body's exception ends the loop; an accepted row is filed iff `_process_row_data` succeeds, and then its shot is the last of its scene and only its phase can be new |
| Hierarchy.Run | src/tsv_to_yaml_converter/data_processor.py:47-76 | the loop over all rows, starting from an empty dictionary and no carried numbers; nothing is filed while a phase or scene number is still unknown: a non-empty result always carries both numbers |
| Hierarchy.RunFirstError | src/tsv_to_yaml_converter/data_processor.py:52-76 | when the loop raises, the exception is that of the first row whose pass raises, and every earlier row went through |
| Hierarchy.RunStopsAtError | src/tsv_to_yaml_converter/data_processor.py:52-76 | once a prefix of the rows raises, the whole loop raises the same error |
| Hierarchy.AdmitRow | src/tsv_to_yaml_converter/data_processor.py:55-71 | the loop body's checks and carried-forward numbers decide as `Admit` does |
| Hierarchy.Accumulator.constructor | src/tsv_to_yaml_converter/data_processor.py:48 | the dictionary starts empty |
| Hierarchy.Accumulator.EnsurePhaseExists | src/tsv_to_yaml_converter/data_processor.py:91-111 | the dictionary becomes `EnsurePhase` of the old one, or stays unchanged when creating the phase raises |
| Hierarchy.Accumulator.EnsureSceneExists | src/tsv_to_yaml_converter/data_processor.py:113-137 | the dictionary becomes `EnsureScene` of the old one, or stays unchanged when creating the scene raises |
| Hierarchy.Accumulator.AddShotToScene | src/tsv_to_yaml_converter/data_processor.py:139-149 | the shot dictionary is built, then appended in place to its scene |
| Hierarchy.Accumulator.ProcessRow | src/tsv_to_yaml_converter/data_processor.py:78-89 | the three helpers in turn give `ProcessRowData` of the old dictionary, or its error |
| Hierarchy.ProcessRows | src/tsv_to_yaml_converter/data_processor.py:48-76 | the loop with its cursor and in-place dictionary yields exactly the specification `Phases(rows)`, including the first exception |
| Hierarchy.ProcessTsvData | src/tsv_to_yaml_converter/data_processor.py:46-76 | cleaning every row, then looping, gives `Process` of the frame |
| Grouping.EnsurePhaseKeepsShots | src/tsv_to_yaml_converter/data_processor.py:91-111 | making sure the phase exists adds no shot |
| Grouping.EnsureSceneKeepsShots | src/tsv_to_yaml_converter/data_processor.py:113-137 | making sure the scene exists adds no shot |
| Grouping.AddShotAddsOne | src/tsv_to_yaml_converter/data_processor.py:147-149 | appending the shot adds exactly one to the dictionary's shot count |
| Grouping.ProcessRowAddsOneShot | src/tsv_to_yaml_converter/data_processor.py:87-89 | filing a row adds exactly one shot |
| Grouping.RunCountsShots | src/tsv_to_yaml_converter/data_processor.py:52-76 | the dictionary holds exactly as many shots as the loop accepted rows |
| Grouping.ProcessRowFiles | src/tsv_to_yaml_converter/data_processor.py:87-89 | filing a row makes a new phase or scene from that row, only appends the shot to an existing one, and changes nothing else |
| Grouping.InsertKeepsPhases | src/tsv_to_yaml_converter/data_processor.py:95-111 | after one more accepted row, the phase numbers are those of the accepted rows and each phase is headed by its first row |
| Grouping.InsertKeepsScenes | src/tsv_to_yaml_converter/data_processor.py:121-149 | after one more accepted row, each scene is headed by its first row and holds the shots of all its rows in order |
| Grouping.InsertKeepsGrouped | src/tsv_to_yaml_converter/data_processor.py:87-149 | filing an accepted row keeps the dictionary grouped by key over the accepted rows |
| Grouping.RunGroupsByKey | src/tsv_to_yaml_converter/data_processor.py:95-137 | for any rows, phases and scenes are grouped by key, even when not adjacent; attributes come from the first row of each; shots keep row order |
| Grouping.GroupedIsWellKeyed | src/tsv_to_yaml_converter/data_processor.py:96-123 | every phase and scene is filed under its own number |
| PyNum.ParseTruncatedExtendsParseInt | src/tsv_to_yaml_converter/data_processor.py:63 | text that `int` accepts is read to the same number by `int(float(...))` |
| PyNum.ParseTruncatedDecimal | src/tsv_to_yaml_converter/data_processor.py:63 | a decimal SCENE_NUM with a fraction reads as its signed whole part |
| PyNum.ParseTruncatedDropsFraction | src/tsv_to_yaml_converter/data_processor.py:63 | "12.75" reads as 12 |
| PyNum.ParseTruncatedTowardZero | src/tsv_to_yaml_converter/data_processor.py:63 | "-0.5" reads as 0: truncation toward zero |
| PyNum.InfinityIsNotDecimal | src/tsv_to_yaml_converter/data_processor.py:62-66 | text `float` reads as an infinity is not a plain decimal, so its overflow is a case of its own |
| Assembly.ShotModel | src/tsv_to_yaml_converter/data_processor.py:249-278 | number, angle, area, description, image prompt and `oref` are copied; camera movement is present iff not excluded, and shot timecode likewise, with the stored values |
| Assembly.ShotKeysIgnoreRowData | src/tsv_to_yaml_converter/data_processor.py:268-276 | whether the two sections are present depends on the two flags alone |
| Assembly.SceneModel | src/tsv_to_yaml_converter/data_processor.py:221-247 | number, comment, period, season, weather, location, diurnal and light source are copied; one shot per shot dictionary, in the same order |
| Assembly.CreateSceneModel | src/tsv_to_yaml_converter/data_processor.py:221-247 | the loop that appends shots one by one builds `SceneModel` |
| Assembly.PhaseModel | src/tsv_to_yaml_converter/data_processor.py:198-219 | number and time period carried over; one scene per stored scene, in key order |
| Assembly.PhaseModelAt | src/tsv_to_yaml_converter/data_processor.py:212-217 | the i-th scene built is the scene with the i-th smallest scene number |
| Assembly.CreatePhaseModel | src/tsv_to_yaml_converter/data_processor.py:198-219 | the loop over `sorted` scene numbers builds `PhaseModel` |
| Assembly.PhasesModel | src/tsv_to_yaml_converter/data_processor.py:189-194 | one phase per dictionary entry, in key order |
| Assembly.PhasesModelAt | src/tsv_to_yaml_converter/data_processor.py:189-194 | the i-th phase built is the phase with the i-th smallest phase number |
| Assembly.ScenesAscending | src/tsv_to_yaml_converter/data_processor.py:212-217 | scenes come out in strictly ascending scene number |
| Assembly.PhasesAscending | src/tsv_to_yaml_converter/data_processor.py:189-217 | phases come out in strictly ascending number; a number appears iff it is a key; each phase's scenes ascend |
| Assembly.Project.Initialize | src/tsv_to_yaml_converter/data_processor.py:286-288 | the project has the title, the shot total and no phases |
| Assembly.Project.AppendPhase | src/tsv_to_yaml_converter/data_processor.py:194 | exactly one phase is appended; nothing else changes |
| Assembly.BuildProjectStructure | src/tsv_to_yaml_converter/data_processor.py:181-196 | the same project is returned, its new phases appended in ascending key order after the ones it had; title and total unchanged |
| Assembly.ProjectTitle | src/tsv_to_yaml_converter/data_processor.py:280-284 | a given title is kept; otherwise `_` and `-` become spaces and each word is capitalised, character by character |
| Assembly.ProjectTitleOfTestData | tests/test_converter.py:49 | the stem `test_data` gives "Test Data" |
| YamlWriter.Spaced | src/tsv_to_yaml_converter/yaml_writer.py:35-49 | the pass never shortens the text |
| YamlWriter.SpacedAddsOnlyBlanks | src/tsv_to_yaml_converter/yaml_writer.py:35-49 | every output line is an input line or an inserted empty line |
| YamlWriter.FormatLines | src/tsv_to_yaml_converter/yaml_writer.py:33-49 | the loop that appends to `formatted_lines` builds `Spaced` |
| YamlWriter.SpacedAround | src/tsv_to_yaml_converter/yaml_writer.py:36-47 | each line is preceded by exactly one empty line for a phase, two for a scene that is not a phase, one for a shot that is neither, none otherwise |
| YamlWriter.UnspacedSpaced | src/tsv_to_yaml_converter/yaml_writer.py:35-49 | deleting the inserted lines recovers the input lines in order |
| YamlWriter.SpacedConcat | src/tsv_to_yaml_converter/yaml_writer.py:35-49 | the pass works line by line: spacing a concatenation spaces each part |
| YamlWriter.SpacedLength | src/tsv_to_yaml_converter/yaml_writer.py:35-49 | output lines = input lines + phase lines + 2 × scene lines + shot lines |
| YamlWriter.FormatYaml | src/tsv_to_yaml_converter/yaml_writer.py:32-53 | split on newlines, space, rejoin with newlines |
| YamlWriter.WrittenTextRecovers | src/tsv_to_yaml_converter/yaml_writer.py:32-53 | the written text loses nothing: split, unspaced and rejoined, it is the dumped text |
| YamlWriter.TotalPhases | src/tsv_to_yaml_converter/yaml_writer.py:61 | `total_phases`, the number of phases: zero iff the project has none |
| YamlWriter.TotalScenes | src/tsv_to_yaml_converter/yaml_writer.py:62 | `total_scenes`, the sum of the phases' scene counts: never negative, and zero iff no phase has a scene |
| YamlWriter.TotalShots | src/tsv_to_yaml_converter/yaml_writer.py:63-65 | `total_shots`, the sum of the scenes' shot counts over every phase: never negative, and zero iff no scene has a shot |
| YamlWriter.PhaseShotCount | src/tsv_to_yaml_converter/yaml_writer.py:63-65 | the inner sum of `total_shots` for one phase: zero iff every scene of the phase is empty |
| YamlWriter.TotalsOverAllScenes | src/tsv_to_yaml_converter/yaml_writer.py:61-65 | `total_scenes` counts every scene once; `total_shots` sums shots over all scenes |
| YamlWriter.TotalsAppend | src/tsv_to_yaml_converter/yaml_writer.py:61-65 | the three totals add up over concatenated phase lists |
| ErrorHandling.ErrorKind | src/tsv_to_yaml_converter/error_handler.py:40 | a non-empty given type wins; a missing or empty one falls back to the exception's class name |
| ErrorHandling.ErrorHandler.constructor | src/tsv_to_yaml_converter/error_handler.py:13-22 | no errors, all counters 0, no times; the counters agree with the list |
| ErrorHandling.ErrorHandler.StartProcessing | src/tsv_to_yaml_converter/error_handler.py:24-27 | the start is set and the list emptied, but no counter is reset, so the counters agree with the list afterwards iff no file had failed |
| ErrorHandling.ErrorHandler.EndProcessing | src/tsv_to_yaml_converter/error_handler.py:29-31 | only the end time changes |
| ErrorHandling.ErrorHandler.LogError | src/tsv_to_yaml_converter/error_handler.py:33-47 | exactly one record is appended, the failed count goes up by 1, and nothing else changes |
| ErrorHandling.ErrorHandler.LogSuccess | src/tsv_to_yaml_converter/error_handler.py:49-52 | the processed count goes up by 1; the list and the failed count are unchanged |
| ErrorHandling.ErrorHandler.HasErrors | src/tsv_to_yaml_converter/error_handler.py:66-68 | true iff the error list is non-empty |
| ErrorHandling.RecordsEmpty | src/tsv_to_yaml_converter/converter.py:172-178 | no record is kept iff every file converted |
| ErrorHandling.ProcessFiles | src/tsv_to_yaml_converter/converter.py:127-178 | the total is set; one record per failed file, in order; both counters grow accordingly; with no files it returns early, before the end time is set; the verdict is true iff every file converted |
| Pipeline.PhaseShotsOfModel | src/tsv_to_yaml_converter/data_processor.py:241-245 | assembling a phase keeps its number of shots |
| Pipeline.TotalShotsOfModel | src/tsv_to_yaml_converter/yaml_writer.py:61-65 | `total_phases` is the number of dictionary entries and `total_shots` the number of shots in the dictionary |
| Pipeline.ShotsAreAcceptedRows | src/tsv_to_yaml_converter/yaml_writer.py:63-65 | the `total_shots` the writer sums over the assembled phases equals the number of accepted rows, whatever the flags (the project's own `total_shots` is the row count) |
| Pipeline.EmittedSceneFromRows | src/tsv_to_yaml_converter/data_processor.py:113-247 | each emitted scene has the attributes the first accepted row of its (phase, scene) pair gave it, and the shots of all those rows in row order |
| Pipeline.ProcessedIsWellKeyed | src/tsv_to_yaml_converter/data_processor.py:95-137 | the dictionary built from any rows is filed under its own numbers |
| Pipeline.Convert | src/tsv_to_yaml_converter/converter.py:72-88 | the processor's error passes through; on success the project has the title, the frame's row count as `total_shots`, the assembled phases in strictly ascending number, and one shot per accepted row across its scenes |

## Left out

- Reading the file with pandas (`read_tsv_file`, `validate_tsv_file`) is left out. The data frame is a parameter (`Frame`). `pd.isna` becomes the `Missing` cell, and a non-text scalar is modelled as an integer (`Other`).
- `yaml.dump` and pydantic's `model_dump(exclude_none=True)` are library calls. The dumped text is a parameter of `YamlWriter.FormatYaml`, so dropping null keys is not modelled.
- Pydantic validation of the models is left out. The entities follow the dictionaries `data_processor.py` builds, because `models.py` defines `Epoch` where its callers import `Phase`, and its `Shot` lacks `camera_angle`, `image_prompt` and `oref`.
- Opening and writing the output file (`yaml_writer.py:52-53`), output directories and file discovery are left out. `YamlWriter.FormatYaml` returns the text it would write.
- The clock: `datetime.now()` readings and ISO time stamps are parameters (`Instant`, `timestamp`).
- Logging is left out: `log_summary`, the log lines of `finalize_and_write`, and every `logger` call. The totals are functions.
- The CLI, the UI, configuration loading (`converter.py:131-137`) and the default mapping tables are not part of this model.
- PyNum.ParseTruncated: `int(float(text))` is modelled for plain decimal text, and an infinity raises as in Python. Other text counts as unparsable, so the row is skipped. That matches Python for `nan`, whose ValueError the loop catches.
- PyNum.ParseTruncated: exponent notation is not modelled. Python reads a SCENE_NUM of `1e2` as 100 and files the row; the model skips it.
- PyNum.ParseTruncated: digit-group underscores and non-ASCII digits are not modelled.
- PyNum.ParseTruncated: reading through a double is not modelled. In Python, a SCENE_NUM above 2^53 is rounded to the nearest double. One past the largest double (more than about 309 digits) becomes `inf`, so `int()` raises an OverflowError that line 64 does not catch, and the file fails. The model reads such text exactly and files the row.
- PyNum.ParseInt: `int(text)` also accepts digit-group underscores and non-ASCII digits. The model rejects them.
- PyStr.Lower, PyStr.Capitalize, PyStr.Title: case mapping is ASCII only. Python's Unicode case mapping, for example of accented letters, is left out.
- Hierarchy.Accumulator.ProcessRow: after an exception, the dictionary's state is not stated. Python may have already created the phase, but the exception discards the whole file.
- Hierarchy.ProcessTsvData cleans every row before the loop, while the source cleans each row inside the loop. Cleaning is pure and cannot raise, so the result is the same.
- Pipeline.Convert stops before `finalize_and_write`. The text it would write is `YamlWriter.FormatYaml` of the dump. Exceptions raised by reading, validation or writing are not modelled.
- ErrorHandling.ProcessFiles takes the outcome of each file's conversion as a parameter instead of running it.
