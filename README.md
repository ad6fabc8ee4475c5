# datagrid-gauntlet: a Dafny model of the transcription and structuring scripts

The repository's scripts batch-transcribe dictated clinical recordings with a
speech service, then ask a chat-completion service to turn each transcript into
summary bullets and a four-field clinical note (`ClinicalNoteJSON`). This project
models the deterministic part of those scripts and proves properties of it:

- `Structurize` (src/summarize_and_structurize.py) covers three things:
  - the start-up checks of the four `AZURE_OPENAI_*` variables (`_require`, the
    endpoint pattern);
  - `_fill_unknowns`, a loop proved equal to a declarative description of the
    filled dict;
  - what `summarize_and_structurize` does with the service's reply: the first
    tool call, `json.loads`, two fills around the schema check, and the `pop`
    of `summary_bullets`.
- `StructurizeLegacy` (src/summarize_and_structurize_old.py) models the
  free-text variant: the greedy `{...}` span, the bullets before it, the parse
  and the validation.
- `Schema` (src/json_schema.py) models `ClinicalNoteJSON` and what constructing
  it from a dict accepts.
- `Transcription` (src/utils.py) models `transcribe_file` as a function of the
  recognition outcome.
- `BatchPipeline` (src/batch_pipeline.py) models `main`:
  - the sorted audio files;
  - one shared `try` per recording;
  - the results log, which is opened for appending;
  - one `<stem>.json` or `<stem>.error.txt` per recording;
  - the two counters.
- `TestMany` (src/test_many.py) models `pick_files`, the speech-key check, the
  optional structuring, the pause, and the counting loop.
- `SampleSubset` (src/sample_subset.py) models the candidate filter, the sample
  size `k`, the draw and the copy loop.
- `Paths`, `Text`, `Ordering`, `Json` and `Arith` are helper modules. They hold
  the parts of `pathlib`, `str`, `sorted()`, `json.loads` and `min`/`max` that
  the scripts rely on. `Records` holds the per-recording record and the
  service parameters, and `Wrappers` holds `Option` and `Result`.

Each loop of the source is a `method` with a `for` loop. Its invariant ties the
state reached so far to a specification function of the inputs (`Filled`,
`After`, `CopyAll`). The lemmas state what the scripts promise about those
functions.

The cloud services are parameters. `Records.Services` gives, per audio path,
the speech result and the chat completion returned for that recording's
transcript. The environment is a `map<string, string>`. A directory listing is
a sequence of paths. Appending to the results log is a sequence of records, and
the output directory is a map from file name to contents.

Behaviour of the code worth knowing:

- `transcribe_file` treats a `NoMatch` result as a failure (`RuntimeError`).
  It is not an empty transcript.
- In src/batch_pipeline.py, transcription and structuring share one `try`. A
  structuring failure therefore writes `<stem>.error.txt` and counts as failed.
  In src/test_many.py, the inner `try` only reports it.
- `_fill_unknowns` replaces only missing keys and strings made of whitespace. A
  non-string value, such as an integer diagnosis, is kept and returned
  (`Structurize.NonStringFieldSurvives`), although the note schema rejects it
  under pydantic 2's rules for `str` fields.
- The comment at src/summarize_and_structurize.py:32 says the tool schema
  enforces the required fields and non-empty strings, and the system prompt at
  src/summarize_and_structurize.py:26-30 asks for every field. Nothing in the
  code checks either on the reply: a missing or blank field is filled with
  `"unknown"`. The schema's `additionalProperties: False` is not enforced
  either, so extra keys pass through to `structured`
  (`Structurize.ExtractResultShape`).
- In src/test_many.py, `time.sleep(args.sleep)` runs after `ok += 1` inside
  the outer `try`. A `--sleep` that `time.sleep` rejects, such as a negative
  one, makes every transcribed file count as ok and as failed
  (`TestMany.RaisingPauseFailsAll`).
- The "Copied N files" report of src/sample_subset.py counts the files drawn. It
  does not count the files that remain: two drawn recordings with the same name
  leave one file (`SampleSubset.CollisionLosesFile`).

## Model

| member | source | states |
|---|---|---|
| Structurize.GetEnv | src/summarize_and_structurize.py:11-14 | `os.getenv(name, default)`: the variable's value when it is set, even if empty, and the default otherwise |
| Structurize.ConfigMessage | src/summarize_and_structurize.py:16-22 | the two `SystemExit` texts, "Missing <name> in .env" and "Endpoint looks wrong: <endpoint>" |
| Structurize.Require | src/summarize_and_structurize.py:16-17 | `_require` fails exactly on an empty value, with `Missing(name)` |
| Structurize.LoadConfigAccepts | src/summarize_and_structurize.py:11-22 | start-up succeeds iff the stripped endpoint, key and deployment are non-empty and the endpoint ends in `.openai.azure.com`, optionally followed by `/` |
| Structurize.LoadConfig | src/summarize_and_structurize.py:11-22 | accepted settings have a non-empty endpoint, key and deployment and an endpoint that matches the pattern; a missing-variable error names one of the three required variables |
| Structurize.StrippedEndpointPattern | src/summarize_and_structurize.py:21 | for a stripped string, the `$` of the pattern (end, or before a final newline) reduces to "ends with the domain, optionally followed by `/`" |
| Structurize.LoadConfigValues | src/summarize_and_structurize.py:11-14 | the accepted settings are the stripped variables; the API version defaults to `2025-01-01-preview` |
| Structurize.LoadConfigReportsFirstMissing | src/summarize_and_structurize.py:18-20 | the checks run in source order: a blank endpoint is reported first |
| Structurize.FillKeysLayout | src/summarize_and_structurize.py:54 | the five visited keys are the four note fields followed by `summary_bullets`, with no repetition |
| Structurize.BlankIsPythonTest | src/summarize_and_structurize.py:55 | `Blank(d, k)` is exactly `not str(d.get(k, "")).strip()` |
| Structurize.FillPrefixPointwise | src/summarize_and_structurize.py:54-56 | after visiting the first `n` keys, each visited blank key holds `"unknown"` and every other key is unchanged |
| Structurize.FillDone | src/summarize_and_structurize.py:54-57 | the dict after the whole loop is the declarative `Filled(d)` |
| Structurize.FillUnknowns | src/summarize_and_structurize.py:53-57 | the loop returns `Filled(d)` |
| Structurize.FilledComplete | src/summarize_and_structurize.py:53-57 | after the fill, all five keys are present and none is blank |
| Structurize.FilledReplacesOnlyBlank | src/summarize_and_structurize.py:55-56 | a visited key becomes `"unknown"` iff it is missing or a whitespace-only string; any other value is kept |
| Structurize.FilledKeepsOtherKeys | src/summarize_and_structurize.py:53-57 | keys outside the five pass through unchanged |
| Structurize.FilledIdempotent | src/summarize_and_structurize.py:92-94 | filling again changes nothing, so the `except ValidationError` branch has no effect on the result |
| Structurize.Extract | src/summarize_and_structurize.py:77-97 | the call succeeds iff the service replied and the first tool call's arguments decode to a JSON object; a failed request is passed on as a service error; the returned dict never holds `summary_bullets` |
| Structurize.ErrorMessage | src/batch_pipeline.py:49-52 | `str(e)` for each escaping error: the service's or the decoder's own text, the "no function call" message of src/summarize_and_structurize.py:79, and the `AttributeError` of `d.get` on a non-dict at :55 |
| Structurize.SummarizeAndStructurize | src/summarize_and_structurize.py:77-97 | the post-call steps return what `Extract` specifies, including each raised error |
| Structurize.NoCallFails | src/summarize_and_structurize.py:77-79 | the "no function call" error happens iff `tool_calls` is `None` or empty |
| Structurize.OnlyFirstCallUsed | src/summarize_and_structurize.py:81 | tool calls after the first do not change the result |
| Structurize.ExtractSplitsFilled | src/summarize_and_structurize.py:83-97 | a success is the filled dict split into the `summary_bullets` value and the rest; the `pop` default is never used |
| Structurize.ExtractResultShape | src/summarize_and_structurize.py:83-97 | on success, the bullets are not blank, `summary_bullets` is gone, the four note fields are present and not blank, and every other key of the arguments is kept as it came |
| Structurize.EmptyArgumentsAllUnknown | src/summarize_and_structurize.py:81-97 | arguments `{}` give `"unknown"` bullets and four `"unknown"` fields |
| Structurize.FilledEmpty | src/summarize_and_structurize.py:53-57 | filling `{}` gives exactly the five keys, `summary_bullets` included, all `"unknown"` |
| Structurize.NonStringFieldSurvives | src/summarize_and_structurize.py:55-56 | an integer diagnosis survives both fills and is returned, although the schema rejects it under pydantic 2 |
| StructurizeLegacy.SplitOutput | src/summarize_and_structurize_old.py:42-45 | a match, when there is one, is a span of at least two characters inside the text |
| StructurizeLegacy.SplitOutputSpec | src/summarize_and_structurize_old.py:42-45 | a match exists iff some `{` has a `}` after it; the span runs from the first `{` to just after the last `}` |
| StructurizeLegacy.SplitRoundTrip | src/summarize_and_structurize_old.py:45-48 | prefix, span and discarded tail concatenate back to the text (which span is cut is `SplitOutputSpec`) |
| StructurizeLegacy.BulletsHaveNoBrace | src/summarize_and_structurize_old.py:48 | the bullets contain no `{` |
| StructurizeLegacy.TailDiscarded | src/summarize_and_structurize_old.py:42-48 | appending text without `}` changes neither the span nor the bullets |
| StructurizeLegacy.SplitAt | src/summarize_and_structurize_old.py:42-45 | given a first `{` and a later last `}`, the match is exactly that span |
| StructurizeLegacy.SummarizeLegacy | src/summarize_and_structurize_old.py:37-49 | a reply without content fails as `NoContent` and nothing else does; a text fails with "No JSON found" iff it has no `{ ... }` pair; a returned dict conforms to the schema |
| StructurizeLegacy.EmptyObjectProblems | src/summarize_and_structurize_old.py:47 | `ClinicalNoteJSON(**{})` fails with one problem per field, four in all, which the error's headline counts |
| StructurizeLegacy.LegacyMessage | src/summarize_and_structurize_old.py:37-49 | `str(e)` for each escaping error: `re.finditer` on `None`, "No JSON found in model output.", the decoder's text, `**` on a non-mapping, and pydantic's headline with its error count |
| StructurizeLegacy.NoBracesRaise | src/summarize_and_structurize_old.py:43-44 | a text without a `{ ... }` pair raises "No JSON found in model output." |
| StructurizeLegacy.LegacyReturnsParsedSpan | src/summarize_and_structurize_old.py:45-49 | on success, the dict is the parse of the span, it conforms to the schema, and the bullets are the stripped text before the span |
| Schema.ToDict | src/json_schema.py:3-7 | a note as a dict has exactly the four field names as keys |
| Schema.FieldProblems | src/json_schema.py:4-7 | no errors iff every listed field is present and a string; every error names a listed field |
| Schema.Validate | src/json_schema.py:3-7 | construction succeeds iff the four fields are present strings, the note then carries those values, and a failure lists only field errors |
| Schema.RoundTrip | src/json_schema.py:3-7 | a note converted to a dict validates back to the same note |
| Schema.EmptyStringsAccepted | src/json_schema.py:4-7 | with no length constraint, empty strings are valid |
| Schema.MissingFieldRejected | src/json_schema.py:4-7 | a missing field is reported as missing, and a non-string field as not a string |
| Schema.ExtraKeysIgnored | src/json_schema.py:3-7 | keys that are not fields do not affect validation |
| Transcription.TranscribeFile | src/utils.py:9-11 | the result is the text iff speech was recognised; otherwise the message is "Transcription failed: " followed by the reason name |
| Transcription.NoMatchFails | src/utils.py:9-11 | `NoMatch` is a failure, not an empty transcript |
| Json.DictOf | src/summarize_and_structurize.py:82 | the dict's keys are exactly the object's member names |
| Json.DictOfLastWins | src/summarize_and_structurize.py:82 | with duplicate keys, the last occurrence's value wins |
| Json.Repr | src/summarize_and_structurize.py:55 | `str()` of a value that is not a string is non-empty and starts with a visible character |
| Json.BlankOnlyIfString | src/summarize_and_structurize.py:55 | only a whitespace string has a blank `str()` |
| Text.Strip | src/summarize_and_structurize.py:11-14 | the result neither starts nor ends with whitespace and holds only characters of the input |
| Text.StripIsInfix | src/summarize_and_structurize.py:11-14 | `s.strip()` is a slice of `s` with only whitespace before and after it |
| Text.StripEmptyIff | src/summarize_and_structurize.py:55 | `s.strip()` is empty iff every character of `s` is whitespace |
| Text.TrimStart | src/summarize_and_structurize.py:11-14 | the result is the suffix left after removing the leading whitespace |
| Text.TrimEnd | src/summarize_and_structurize.py:11-14 | the result is the prefix left after removing the trailing whitespace |
| Text.LowerAscii | src/batch_pipeline.py:22 | the result has the same length, with each ASCII capital lowered |
| Text.FindFirst | src/summarize_and_structurize_old.py:42 | the position of the first occurrence of the character, absent iff it does not occur |
| Text.FindLast | src/summarize_and_structurize_old.py:42 | the position of the last occurrence of the character, absent iff it does not occur |
| Ordering.LexLeTotal | src/batch_pipeline.py:22 | string order is total |
| Ordering.LexLeTransitive | src/batch_pipeline.py:22 | string order is transitive |
| Ordering.LexLeAntisymmetric | src/batch_pipeline.py:22 | string order is antisymmetric |
| Ordering.Sort | src/batch_pipeline.py:22 | `sorted()` returns an ordered permutation |
| Ordering.SortedPermutationUnique | src/batch_pipeline.py:22 | two ordered permutations of one list are equal |
| Paths.Name | src/batch_pipeline.py:37 | `.name`, the text after the last `/`; its contract is `NameIsLastComponent` |
| Paths.NameIsLastComponent | src/batch_pipeline.py:37 | `.name` ends the path, holds no `/`, and follows the last `/` |
| Paths.Suffix | src/test_many.py:21 | `.suffix`, from the last inner dot; its contract is `StemSuffixSplit` |
| Paths.Stem | src/batch_pipeline.py:45 | `.stem`, the name without its suffix; its contract is `StemSuffixSplit` |
| Paths.StemSuffixSplit | src/batch_pipeline.py:45 | `stem + suffix == name`, and the suffix is empty or one dot followed by a dot-free extension |
| Paths.IsAudio | src/test_many.py:21 | the lowered suffix is `.wav`, `.mp3` or `.flac`; its contract is `AudioNameShape` and the examples below |
| Paths.AudioNameShape | src/test_many.py:21 | an accepted file has a non-empty stem and a four- or five-character suffix |
| Paths.AudioOnly | src/test_many.py:21 | the filter keeps exactly the audio entries, with their multiplicities |
| Paths.AudioOnlyAppend | src/test_many.py:21 | filtering a concatenation concatenates the filtered parts, so the listing's order is kept |
| Paths.AudioOnlyCons | src/test_many.py:21 | an entry in front is kept in front iff it is an audio file |
| Paths.AudioOnlySingle | src/test_many.py:21 | a one-entry listing keeps its entry iff it is an audio file |
| Paths.UpperCaseAccepted | src/test_many.py:21 | `a.WAV` is accepted (the suffix is lowered) |
| Paths.NestedPathAccepted | src/test_many.py:21 | `x.y/a.mp3` is accepted: a dot in a directory name does not count |
| Paths.HiddenFileRejected | src/test_many.py:21 | `.wav` has no suffix and is rejected |
| Paths.DoubleSuffixRejected | src/test_many.py:21 | only the last suffix counts: `a.wav.x` is rejected |
| BatchPipeline.AudioFiles | src/batch_pipeline.py:22 | the processing order is ordered and holds exactly the audio files of the listing |
| BatchPipeline.AudioFilesUnique | src/batch_pipeline.py:22 | any ordered arrangement of the audio files is the processing order, whatever the listing order |
| BatchPipeline.ProcessingOrderExample | src/batch_pipeline.py:22 | `b.wav`, `c.mp3`, `a.wav` are processed as `a.wav`, `b.wav`, `c.mp3` |
| BatchPipeline.Combine | src/batch_pipeline.py:32-53 | a recording succeeds iff both stages succeed; the record holds the name, transcript, bullets and dict; a failure carries the first exception's text |
| BatchPipeline.RunBatch | src/batch_pipeline.py:12-55 | a configuration error stops the run, no audio gives "No audio in … Put your subset there.", otherwise the run ends in the state `After` describes |
| BatchPipeline.ProcessAll | src/batch_pipeline.py:27-53 | the loop reaches `After(start, files, Outcomes(svc))` |
| BatchPipeline.Step | src/batch_pipeline.py:30-53 | one more recording advances the state by that recording's outcome |
| BatchPipeline.CountsAddUp | src/batch_pipeline.py:46-55 | ok plus failed counts every recording once, and the log grows by one line per success |
| BatchPipeline.LogOnlyGrows | src/batch_pipeline.py:29 | the log keeps what it held, and each intermediate log is a prefix of the final one |
| BatchPipeline.LoggedInOrder | src/batch_pipeline.py:42 | a success's line follows the lines of the successes before it |
| BatchPipeline.LoggedRecordsFilled | src/batch_pipeline.py:34-42 | every new line has non-blank bullets and four non-blank note fields, and no `summary_bullets` in `structured` |
| BatchPipeline.EveryRecordingWrites | src/batch_pipeline.py:45-52 | every recording leaves its output file, so a failure does not stop the batch |
| BatchPipeline.OnlyRecordingsWrite | src/batch_pipeline.py:45-52 | every new file belongs to some recording |
| BatchPipeline.LastWriteWins | src/batch_pipeline.py:45-52 | when two recordings write one name, the later one's content remains |
| BatchPipeline.UnwrittenKept | src/batch_pipeline.py:45-52 | a file no recording writes keeps its content |
| BatchPipeline.SnapshotAndErrorNamesDiffer | src/batch_pipeline.py:45-52 | `<stem>.json` and `<stem>.error.txt` names never clash |
| TestMany.SliceLength | src/test_many.py:26 | `[:limit]` keeps `min(limit, n)` elements, or `max(0, n + limit)` for a negative limit |
| TestMany.PickFiles | src/test_many.py:20-26 | fails iff there is no audio file, with that message; otherwise returns a prefix of the (shuffled) audio files of slice length, drawn from the audio files |
| TestMany.Pick | src/test_many.py:24-26 | the picked files are a prefix of the chosen order, of slice length, drawn from the files |
| TestMany.PickedAreAudio | src/test_many.py:20-26 | every picked file is an audio entry, picked no more often than it is listed |
| TestMany.Process | src/test_many.py:66-92 | a recording is ok iff speech was recognised; it is logged iff it was also structured with `--summarize`; a transcribed recording carries whether its pause raised |
| TestMany.RunTestMany | src/test_many.py:40-92 | picking errors come first, then a blank speech key, then, with `--summarize`, the configuration; otherwise the run reaches `After` |
| TestMany.ProcessAll | src/test_many.py:63-92 | the loop reaches `After(start, files, Outcomes(svc, summarize, pauseRaises))`, counting a file whose pause raised as failed after ok |
| TestMany.Step | src/test_many.py:64-92 | one more file advances the state by its outcome |
| TestMany.CountsAddUp | src/test_many.py:88-95 | ok plus failed counts every picked file once, plus once more for each ok file when the pause raises; the log grows by at most one line per ok file |
| TestMany.RaisingPauseFailsAll | src/test_many.py:88-92 | when the pause raises, every picked file is counted as failed |
| TestMany.CountsIgnoreStructuring | src/test_many.py:72-88 | neither the structuring replies nor `--summarize` change the counts |
| TestMany.LoggedRecordsFilled | src/test_many.py:74-84 | every line written has non-blank bullets and four non-blank note fields |
| TestMany.LogOnlyGrows | src/test_many.py:59 | the log is opened for appending: what it held stays as a prefix |
| TestMany.LoggedInOrder | src/test_many.py:84 | a structured file's line is appended right after the lines of the files before it |
| TestMany.NoSummarizeNoLog | src/test_many.py:72 | without `--summarize` nothing is written |
| SampleSubset.SubsetSize | src/sample_subset.py:14 | `k` is between 50 and 100 |
| SampleSubset.SubsetSizeCases | src/sample_subset.py:14 | `k` is 50 below 2550 candidates, `n // 50` up to 4999, and 100 from 5000 on |
| SampleSubset.SubsetSizeMonotone | src/sample_subset.py:14 | more candidates never give a smaller `k` |
| SampleSubset.SampleFitsIff | src/sample_subset.py:14-15 | `k <= n` iff there are at least 50 candidates |
| SampleSubset.Drawn | src/sample_subset.py:15 | the sample lists the candidates at the drawn positions |
| SampleSubset.CopyFiles | src/sample_subset.py:17-19 | the loop leaves the directory `CopyAll` describes |
| SampleSubset.RunSampleSubset | src/sample_subset.py:9-21 | no candidates exits with its message; fewer candidates than `k` raises "Sample larger than population or is negative"; otherwise `k` files are copied |
| SampleSubset.SmallDatasetRejected | src/sample_subset.py:14-15 | 1 to 49 candidates always make `k` exceed the population |
| SampleSubset.IntendedSubsetSize | src/sample_subset.py:14 | the corrected size never exceeds the population |
| SampleSubset.IntendedSizeFits | src/sample_subset.py:14 | the corrected size fits, takes every file below 50, and equals `k` from 50 on |
| SampleSubset.RunIntendedSampleSubset | src/sample_subset.py:9-21 | with the corrected size, any non-empty dataset is sampled and copied |
| SampleSubset.CopyAllKeys | src/sample_subset.py:17-19 | the subset directory holds what it held plus one file per distinct name copied |
| SampleSubset.LastCopyWins | src/sample_subset.py:17-19 | of two drawn files with one name, the later copy remains |
| SampleSubset.NamesBound | src/sample_subset.py:17-19 | at most one new file per drawn recording |
| SampleSubset.CollisionLosesFile | src/sample_subset.py:17-21 | two drawn recordings with one name leave fewer files than the reported count |

## Left out

- The calls to the speech and completion services are not modelled: the
  prompts, the system message, the tool schema sent with the request, client
  construction and rate limits. `Records.Services` supplies what they answer.
- An exception raised inside the speech SDK itself, for instance for a missing
  key, is not modelled separately. `Canceled` stands for every non-recognised
  outcome.
- `json.loads` parsing is not modelled; `Json.Loaded` is its outcome. JSON
  floats are not modelled.
- How `json.dumps` formats the log lines and snapshots is not modelled. A
  record is a datatype.
- Dict insertion order is not modelled, so neither is the key order in the
  output.
- `repr` of a non-string value is simplified: no escaping. It matters only
  through `str(...).strip()`, and `Json.BlankOnlyIfString` holds for every
  value.
- Schema.Validate: follows pydantic 2's rules for `str` fields, which reject
  numbers, booleans and `null`. Under pydantic 1 a number would be coerced to
  its string, so the legacy validation at
  src/summarize_and_structurize_old.py:47 would accept it. The result of
  `Structurize.Extract` does not depend on this: `Structurize.FilledIdempotent`
  shows that its `except` branch changes nothing.
- The text of pydantic's `ValidationError` is modelled only up to its
  headline, "N validation error(s) for ClinicalNoteJSON". The per-field lines
  that follow are left out.
- StructurizeLegacy.LegacyMessage: for `**` on a non-mapping, Python's text
  starts with the qualified name of the called class. The model has only the
  text from "argument after **" on. The `NoContent` text is the one
  Python 3.11 and later give; older versions stop before ", got 'NoneType'".
- `load_dotenv`, `argparse`, `print`, `mkdir` and opening and closing files
  are left out. The pause of `time.sleep` is left out; in src/test_many.py,
  whether it raises is the parameter `pauseRaises`. The environment, options and directory listings
  are parameters.
- The log and the output directory are values, not files.
- `random.seed`, `random.shuffle` and `random.sample` are parameters: their
  output is a permutation, or drawn positions.
- `Path.glob` and `Path.rglob` are given as their listing. A directory whose
  name has an audio suffix is not told apart from a file.
- `base.resolve()` in the `pick_files` message is given as `base`.
- Path objects are sorted by their strings. For the paths of one directory,
  this is the order `sorted()` gives.
- src/chain_one.py and src/test_speech_to_text.py are not part of this model.
- `SPEECH_REGION` is read but only passed to the service, so it is not
  modelled.

## Findings

| source | as written | input that shows it | evidently intended | confidence | as-written member | corrected member |
|---|---|---|---|---|---|---|
| src/sample_subset.py:14-15 | `k = min(100, max(50, len(candidates)//50))` is never below 50, and `random.sample` raises `ValueError` when `k` exceeds the population | a dataset of 1 to 49 audio files (e.g. 10): `k = 50 > 10`, so the script stops with "Sample larger than population or is negative" | the comment says the size adjusts if the dataset is smaller: `k = min(len(candidates), ...)`, which takes every file | not executed | SampleSubset.SmallDatasetRejected | SampleSubset.RunIntendedSampleSubset |
