# Horoscope batch pipeline: control file and stages

This project models the core of a three-stage pipeline that generates
horoscopes through a batch text-generation service. The stages share one
**control file**: a JSON document `{"batches": [record, ...]}` in an object
store. Each record tracks one batch through the statuses
`prepared → submitted → completed | failed`.

- **Prepare** (`BatchPrepare`) works out each subscriber's zodiac sign from
  a `MM/DD/YYYY` birthdate. It also names the input file it stores:
  `openai/input/{target_date}-{first 8 characters of a uuid}.jsonl`.
- **Control file** (`ControlFile`) is the repository over the control
  document. The class `ControlStore` holds the decoded document in its
  field `stored`, which is `None` when the object is absent or unreadable.
  Its operations are:
  - load with fallback to `{"batches": []}`, and save
  - query by status, plus its four wrappers
  - append a new record
  - update the first record whose id or input file matches
- **Submit** (`BatchUpload`) handles every `prepared` record. It fetches the
  record's input file, uploads it, creates a job, and records `submitted`
  (with the file and job ids) or `failed` (with the error).
- **Collect** (`BatchDownload`) handles every `submitted` record. It looks
  the job up by the record's own `batch_id` and ignores unfinished jobs. For
  a completed job it downloads the result lines. It stores one
  `{"name", "sign": "", "horoscope"}` object, under
  `lower("horoscope/{target_date}/{name}.json")`, for each usable line
  before the first line that raises. It then records `completed` when the
  job completed, its output was downloaded, no line raised and at least one
  horoscope was stored; otherwise it records `failed`.

How Python behaviour is modelled:
- **Decoded JSON** is the datatype `Values.Json`.
- **Exceptions** are `Result.Err(name)`. Every exception the code can meet
  on malformed data is modelled: a control document that is not a dict, a
  `batches` that is not a list, non-dict records, missing keys, and result
  lines of the wrong shape.
- **External outcomes are parameters:** object-store reads and writes,
  service calls, the clock and the uuid.
- **Stage loops:** each is a `method` over the `ControlStore`, proved equal
  to a recursive specification function. Both stages share the loop
  `ControlFile.RunUpdates`, which carries out one `Decision` per batch:
  raise, skip, or issue one status update.

## Model

| member | source | states |
|---|---|---|
| `ControlFile.ControlStore.GetControlData` | shared/utils/control_file_utils.py:31-44 | An absent document, or a stored JSON `null`, reads as `{"batches": []}`; any other document is returned as it is. |
| `ControlFile.ControlStore.UpdateControlData` | shared/utils/control_file_utils.py:47-60 | Returns the save's outcome; only a successful save replaces the stored document. |
| `ControlFile.BatchList` | shared/utils/control_file_utils.py:75 | A non-empty batch list can only come from a dict document whose `batches` key holds exactly that list. |
| `ControlFile.Filter` | shared/utils/control_file_utils.py:74-77 | The filtered list is no longer than the input; each element comes from the input and has the queried status. |
| `ControlFile.FilterIsExact` | shared/utils/control_file_utils.py:74-77 | The query keeps exactly the records with the status, in their original order: its length is the number of matches, and each match appears at its rank among the matches. |
| `ControlFile.FilterKeepsUniqueKeys` | shared/utils/control_file_utils.py:74-77 | The query of unique records returns unique records. |
| `ControlFile.BatchesWithStatus` | shared/utils/control_file_utils.py:63-82 | A successful query returns only dicts. |
| `ControlFile.QueryOnWellFormed` | shared/utils/control_file_utils.py:63-82 | On a store whose batch list holds only dicts, the query never raises; it returns the filter of that list. |
| `ControlFile.ControlStore.GetBatchesByStatus` | shared/utils/control_file_utils.py:63-82 | Returns the query's value or its exception; every record returned is a dict with the queried status. |
| `ControlFile.ControlStore.GetPendingBatches` | shared/utils/control_file_utils.py:85-92 | The query for `submitted`. |
| `ControlFile.ControlStore.GetPreparedBatches` | shared/utils/control_file_utils.py:95-102 | The query for `prepared`. |
| `ControlFile.ControlStore.GetCompletedBatches` | shared/utils/control_file_utils.py:105-112 | The query for `completed`. |
| `ControlFile.ControlStore.GetFailedBatches` | shared/utils/control_file_utils.py:115-122 | The query for `failed`. |
| `ControlFile.NewEntryFields` | shared/utils/control_file_utils.py:154-165 | The new record has the six base keys plus the additional keys. An additional value overrides the base field of the same name; every other base field holds the given id, file, date, status and timestamps. |
| `ControlFile.AppendedAddsOneAtEnd` | shared/utils/control_file_utils.py:168 | The append succeeds exactly when the document is a dict holding a `batches` list. The list then gains one record at the end; earlier records and other top-level keys are unchanged. |
| `ControlFile.AppendedKeepsWellFormed` | shared/utils/control_file_utils.py:168 | Appending a record to a store of dicts keeps it a store of dicts, with the record last. |
| `ControlFile.ControlStore.CreateBatch` | shared/utils/control_file_utils.py:125-182 | The status defaults to `prepared` and the additional data to none. Returns `(True, uuid)` exactly when the append and the save both succeed, and the store then holds the appended document. Otherwise it returns `(False, None)` and the store is unchanged. |
| `ControlFile.LocateFrom` | shared/utils/control_file_utils.py:212-214 | The scan returns the first index whose record matches by id or by input file; everything before it is a non-matching dict. It returns None when every record is a non-matching dict, and raises when it reaches a non-dict first. |
| `ControlFile.LocateFirst` | shared/utils/control_file_utils.py:212-214 | A first match preceded only by non-matching dicts is the index the scan returns. |
| `ControlFile.UpdatedRecordFields` | shared/utils/control_file_utils.py:216-226 | The updated record's keys and values: `updated_at` is always the new time; the status comes from the additional data, else the new status, else stays; every other key comes from the additional data, else the old record. |
| `ControlFile.UpdateWithoutKey` | shared/utils/control_file_utils.py:205-207 | With neither an id nor a key, the call returns False and the store is untouched. |
| `ControlFile.UpdateChangesOnlyFirstMatch` | shared/utils/control_file_utils.py:209-235 | On a store of dicts, an update never raises and keeps the list length. It returns True exactly when the save succeeds and some record matches. Only the first match in list order changes, and only if the save succeeds. With no match nothing is saved. |
| `ControlFile.UpdateKeepsOtherKeys` | shared/utils/control_file_utils.py:209-232 | An update that changes the store rewrites only the batch list: the document keeps its top-level keys, and every key other than `batches` keeps its value. |
| `ControlFile.UpdateKeepsKeys` | shared/utils/control_file_utils.py:212-226 | An update whose additional data has no `batch_id` or `input_file` keeps those two fields of every record. It changes no record that its id and key do not match. |
| `ControlFile.SameKeysKeepUnique` | shared/utils/control_file_utils.py:212-214 | Whether ids and input files are unique depends only on those two fields. |
| `ControlFile.UniqueMatch` | shared/utils/control_file_utils.py:212-214 | When ids and input files are unique, an update addressed by a record's own id or input file can match only that record. |
| `ControlFile.AppendKeepsUniqueKeys` | shared/utils/control_file_utils.py:150-168 | Appending a record whose id and input file belong to no existing record keeps ids and input files unique. |
| `ControlFile.UpdateFirstRecord` | shared/utils/control_file_utils.py:212-232 | An update whose id or key matches the first record rewrites that record and returns the save's outcome, whatever the later records hold. |
| `ControlFile.UpdateKeepsWellFormed` | shared/utils/control_file_utils.py:209-235 | On a store of dicts, an update never raises and leaves a store of dicts. |
| `ControlFile.UpdateIdempotent` | shared/utils/control_file_utils.py:212-232 | Repeating a successful update leaves the same store except for the matched record's `updated_at`, provided the additional data does not rewrite `batch_id` or `input_file`. |
| `ControlFile.UpdateStatusesWithin` | shared/utils/control_file_utils.py:216-229 | An update that sets a status from a given set, with no `status` in its additional data, moves records only into that set. |
| `ControlFile.ControlStore.UpdateBatchStatus` | shared/utils/control_file_utils.py:185-235 | The id and key default to None, the new status and the additional data to none, as the keyword arguments do. The loop's return value and the store it leaves are those of the update specification, `UpdateEffect`. |
| `ControlFile.RunUpdatesResult` | packages/batch-upload/src/batch_upload_input.py:65-143 | On a store of dicts, with no batch raising, a stage returns True exactly when some batch counted as a success, whatever the saves did. The store stays a store of dicts. |
| `ControlFile.RunUpdatesStatuses` | packages/batch-download/src/batch_download_result.py:200-238 | If every update a stage issues sets a status from a given set, records move only into that set and none are added or removed. |
| `ControlFile.RunUpdatesUnsaved` | packages/batch-download/src/batch_download_result.py:225-232 | A stage whose control-file saves all fail leaves the store as it was. |
| `ControlFile.RunUpdatesChangesOnlyQueried` | packages/batch-upload/src/batch_upload_input.py:66-136 | Suppose each update of a stage is addressed by the id of its queried record (with that record's input file, or no key), and ids and input files are unique. Then only records that had the queried status change, and ids and input files stay unique. |
| `ControlFile.RunUpdatesTouchOnlyAddressed` | packages/batch-upload/src/batch_upload_input.py:66-136 | If no update of a stage rewrites `batch_id` or `input_file`, every record keeps those fields. The only records that change are ones some update of the stage is addressed to. |
| `ControlFile.RunUpdatesOwnRecord` | packages/batch-upload/src/batch_upload_input.py:66-136 | A record that, from some batch on, only one decision of the stage can reach, ends as that decision leaves it: rewritten by its update (status, additional data, `updated_at`) when the update is saved, and as it was when the decision skips it or the save fails; no decision may raise. |
| `ControlFile.RunUpdatesReachesQueried` | shared/utils/control_file_utils.py:212-232 | Over unique records, when no decision raises and each decision is addressed by its own queried record, a queried record that its decision's update matches ends rewritten by that update when it is saved, and unchanged otherwise. |
| `ControlFile.RunUpdatesOkReachesAll` | packages/batch-download/src/batch_download_result.py:200-238 | A stage that returns True has carried out every decision (`Reached` is the whole list), and some batch counted as a success. |
| `ControlFile.RunUpdatesReachesAll` | packages/batch-download/src/batch_download_result.py:200-238 | On a store of dicts, with no batch raising, the stage carries out every decision. |
| `BatchPrepare.Slice` | packages/batch-prepare/src/batch_prepare_input.py:46-47 | A slice never fails: it is at most `hi - lo` long and equals the sequence slice when `hi` is in range. |
| `BatchPrepare.ScanReversed` | packages/batch-prepare/src/batch_prepare_input.py:59-62 | The reversed scan always returns one of the twelve sign names. |
| `BatchPrepare.ZodiacSign` | packages/batch-prepare/src/batch_prepare_input.py:35-65 | The result is a sign name or "Unknown". |
| `BatchPrepare.ScanFindsLatest` | packages/batch-prepare/src/batch_prepare_input.py:59-61 | Over the first `n` cutoffs, the reversed scan returns the sign of the latest cutoff the date is at or after. |
| `BatchPrepare.ScanCapricorn` | packages/batch-prepare/src/batch_prepare_input.py:59-62 | The scan over the first `n` cutoffs answers "Capricorn" exactly when the date is before all of them, or the whole table is scanned and the date is on/after 22 December. |
| `BatchPrepare.SignOfIsLatestCutoff` | packages/batch-prepare/src/batch_prepare_input.py:52-62 | The sign is that of the latest cutoff the date is at or after. |
| `BatchPrepare.SignOfInterval` | packages/batch-prepare/src/batch_prepare_input.py:52-62 | A date at or after one cutoff and before the next has that cutoff's sign. |
| `BatchPrepare.CutoffBoundaries` | packages/batch-prepare/src/batch_prepare_input.py:52-62 | Each cutoff day has its own sign. The day before has the previous sign, or Capricorn before 20 January. |
| `BatchPrepare.CapricornWraps` | packages/batch-prepare/src/batch_prepare_input.py:59-62 | The sign is Capricorn exactly when the date is before 20 January or on/after 22 December. |
| `BatchPrepare.UnknownIffUnparsable` | packages/batch-prepare/src/batch_prepare_input.py:45-65 | The result is "Unknown" exactly when the month slice or the day slice does not parse. |
| `BatchPrepare.ParseTwoDigits` | packages/batch-prepare/src/batch_prepare_input.py:49-50 | Two decimal digits parse to their value. |
| `BatchPrepare.ZodiacOfPadded` | packages/batch-prepare/src/batch_prepare_input.py:45-62 | Two digits, any separator and two digits are read as month and day. |
| `BatchPrepare.ZodiacAriesBoundary` | packages/batch-prepare/src/batch_prepare_input.py:52-62 | 03/21 is Aries; 03/20 is Pisces. |
| `BatchPrepare.ZodiacOutOfRange` | packages/batch-prepare/src/batch_prepare_input.py:45-62 | Month and day are not range-checked: 13/40 is Capricorn. |
| `BatchPrepare.ZodiacUnpadded` | packages/batch-prepare/src/batch_prepare_input.py:45-50 | An unpadded month ("3/21/1990") gives "Unknown". |
| `BatchPrepare.InputKeyRoundTrip` | packages/batch-prepare/src/batch_prepare_input.py:93-94 | The target date and the uuid's first 8 characters can be read back from the input-file key. |
| `BatchPrepare.InputKeyInjective` | packages/batch-prepare/src/batch_prepare_input.py:93-94 | Equal keys mean an equal target date and an equal 8-character uuid prefix. |
| `BatchDownload.StripIsTrim` | packages/batch-download/src/batch_download_result.py:156 | `strip` returns a slice of the input with no whitespace at either end; everything removed is whitespace. |
| `BatchDownload.ExtractServiceLine` | packages/batch-download/src/batch_download_result.py:136-151 | On a line of the service's shape, missing or empty content skips the line. Otherwise the horoscope is the stripped content under the `custom_id` with spaces made underscores ("unknown" when there is no `custom_id`). A line without a response is skipped. |
| `BatchDownload.ExtractedHoroscope` | packages/batch-download/src/batch_download_result.py:136-156 | A non-object line, or a non-string `custom_id`, raises. A horoscope's name is the `custom_id` with spaces made underscores: no space, same length, other characters kept. Its text has no whitespace at either end; whitespace-only content is truthy, so it is kept and stored as an empty horoscope (`BlankContentStoredEmpty`). |
| `BatchDownload.ResultKeyParts` | packages/batch-download/src/batch_download_result.py:159 | The result key is `horoscope/` plus the lower-cased date, `/`, the lower-cased name and `.json`, and it is all lower case. |
| `BatchDownload.StoredHoroscope` | packages/batch-download/src/batch_download_result.py:153-162 | Each upload holds exactly `name`, `sign = ""` and `horoscope`, under the lower-case key built from the date and the space-free name. |
| `BatchDownload.RunStepsAppend` | packages/batch-download/src/batch_download_result.py:134-169 | Processing two blocks of lines is processing the first and, unless it raised, the second. |
| `BatchDownload.RunLinesAppend` | packages/batch-download/src/batch_download_result.py:134-169 | The same, over result lines. |
| `BatchDownload.UndecodableLineSkipped` | packages/batch-download/src/batch_download_result.py:168-169 | A line that is not valid JSON changes nothing: the run is the same without it. |
| `BatchDownload.WrittenIffSomeStepStores` | packages/batch-download/src/batch_download_result.py:161-175 | With no exception, something is written exactly when some step stores something. |
| `BatchDownload.WrittenIffSomeLineSucceeds` | packages/batch-download/src/batch_download_result.py:161-175 | With no exception, something is written exactly when some line yields a horoscope whose upload succeeds. |
| `BatchDownload.RunStepsBound` | packages/batch-download/src/batch_download_result.py:161-175 | When each line stores at most one object, the run stores at most one object per line. |
| `BatchDownload.RunStepsCount` | packages/batch-download/src/batch_download_result.py:161-175 | Over the first `n` lines, when none raises, the run stores exactly as many objects as there are lines that store one. |
| `BatchDownload.RunLinesBound` | packages/batch-download/src/batch_download_result.py:161-175 | The result lines store at most one object per line. |
| `BatchDownload.WrittenCountsSucceedingLines` | packages/batch-download/src/batch_download_result.py:161-175 | With no exception, the number of stored objects is the number of lines that yield a horoscope whose upload succeeds. |
| `BatchDownload.ProcessResults` | packages/batch-download/src/batch_download_result.py:128-175 | Writes the uploads of the run in line order and raises exactly when the run does. It writes at most one object per line. Otherwise it returns True exactly when at least one horoscope was stored, and it writes exactly one object per line that yields a horoscope whose upload succeeds. |
| `BatchDownload.CheckBatchCompletion` | packages/batch-download/src/batch_download_result.py:53-77 | Returns the job exactly when the lookup succeeds and the job's status is `completed` or `failed`; an unfinished job or a lookup error gives None. |
| `BatchDownload.DownloadAndUploadOutcome` | packages/batch-download/src/batch_download_result.py:80-115 | Returns True exactly when `target_date` is present, the job has an output file that downloads, and its lines run without an exception and store at least one horoscope. Without an output file nothing is stored. |
| `BatchDownload.DownloadAndUploadResults` | packages/batch-download/src/batch_download_result.py:80-115 | The method computes that specification. |
| `BatchDownload.CollectOneDecision` | packages/batch-download/src/batch_download_result.py:201-229 | A record with a `batch_id` never raises. Its job is looked up by that `batch_id`. An unfinished or unreported job gets no update. A finished job gets one update addressed by `batch_id` alone, carrying `completed_at`: `completed` (and a success) exactly when the job completed and its results were processed, else `failed`. |
| `BatchDownload.CollectStageResult` | packages/batch-download/src/batch_download_result.py:191-242 | With nothing pending the stage returns True and changes nothing. Otherwise, when every pending record has a `batch_id`, it returns True exactly when some job completed and its results were processed. |
| `BatchDownload.CollectWritesOnlyTerminal` | packages/batch-download/src/batch_download_result.py:210-229 | The Collect stage writes only `completed` or `failed`, and adds or removes no record. |
| `BatchDownload.CollectDecisionsAddressed` | packages/batch-download/src/batch_download_result.py:201-229 | Each update of the Collect stage is addressed by its own record's `batch_id` alone, and its additional data leaves `batch_id` and `input_file` alone. |
| `BatchDownload.CollectChangesOnlySubmitted` | packages/batch-download/src/batch_download_result.py:191-238 | When ids and input files are unique, the Collect stage changes only records that were `submitted`, keeps the list length, and keeps ids and input files unique. |
| `BatchDownload.CollectReachesSubmitted` | packages/batch-download/src/batch_download_result.py:201-232 | Over unique records whose submitted ones all carry a `batch_id`, a submitted record with a non-empty id is handled in its own turn. It stays as it was while its job is unfinished or the lookup fails, or when the save fails. Otherwise it is rewritten with `completed` when the job completed and its results were processed, else `failed`, plus `completed_at`. |
| `BatchDownload.CountedRecordStores` | packages/batch-download/src/batch_download_result.py:211-215 | A batch counted as a success has stored at least one object. |
| `BatchDownload.CollectWrittenAll` | packages/batch-download/src/batch_download_result.py:201-238 | On a store of dicts whose submitted records all carry a `batch_id`, the stage stores the objects of every pending record, in list order. |
| `BatchDownload.CollectOkStoredSome` | packages/batch-download/src/batch_download_result.py:191-242 | When some record was pending, a True result means every pending record was handled and at least one object was stored. |
| `BatchDownload.ProcessPendingBatch` | packages/batch-download/src/batch_download_result.py:202-232 | One pass of the loop does what the record's decision says: it raises without a `batch_id`; it changes nothing for an unfinished job; otherwise it issues the decision's update, raising when that raises. What it stores is the job's results when the job completed, and nothing otherwise. |
| `BatchDownload.ProcessPendingBatches` | packages/batch-download/src/batch_download_result.py:179-242 | The loop's result and final store are those of the stage specification, `CollectStage`. The objects it stores are `CollectWritten`: the results of each pending record it reaches, in order. |
| `BatchUpload.SubmitOneDecision` | packages/batch-upload/src/batch_upload_input.py:66-137 | Each prepared record gets one update addressed by its `batch_id` and `input_file`. It records `submitted` with the file and job ids exactly when the download, upload and job creation all succeed. Otherwise it records `failed` with the first error, plus the file id when only job creation failed. |
| `BatchUpload.SubmitOneRaises` | packages/batch-upload/src/batch_upload_input.py:67-68 | A record raises exactly when it lacks `input_file` or `target_date`. |
| `BatchUpload.SubmitStageResult` | packages/batch-upload/src/batch_upload_input.py:54-147 | With nothing prepared the stage returns False and changes nothing. Otherwise, when every prepared record has an input file and a target date, it returns True exactly when some batch was fully submitted. |
| `BatchUpload.SubmitWritesOnlySubmittedOrFailed` | packages/batch-upload/src/batch_upload_input.py:75-136 | The Submit stage writes only `submitted` or `failed`, and adds or removes no record. |
| `BatchUpload.SubmitDecisionsAddressed` | packages/batch-upload/src/batch_upload_input.py:66-136 | Each update of the Submit stage is addressed by its own record's `batch_id` and `input_file`, and its additional data leaves those two fields alone. |
| `BatchUpload.SubmitChangesOnlyPrepared` | packages/batch-upload/src/batch_upload_input.py:54-143 | When ids and input files are unique, the Submit stage changes only records that were `prepared`, keeps the list length, and keeps ids and input files unique. |
| `BatchUpload.SubmitReachesPrepared` | packages/batch-upload/src/batch_upload_input.py:66-136 | Over unique records whose prepared ones all carry an input file and a target date, a prepared record with a non-empty id or input file receives the update of its own turn. When saved, the record becomes `submitted` if all three calls succeeded and `failed` otherwise; a failed save leaves it as it was. |
| `BatchUpload.SubmitRewritesEarlierRecord` | packages/batch-upload/src/batch_upload_input.py:66-136 | Take a store with a record that is not prepared ahead of a prepared record with the same non-empty input file, and let every call for the prepared record succeed. Then the first record is marked `submitted`, the prepared one is unchanged, and the stage returns True. Such a store breaks `UniqueKeys` (`ControlFile.SharedInputFileNotUnique`). |
| `BatchUpload.UploadJsonlToOpenai` | packages/batch-upload/src/batch_upload_input.py:42-147 | The loop's result and final store are those of the stage specification, `SubmitStage`. |

## Left out

Not modelled:
- **Object store and batch service:** the internals of the object-store and
  service clients, logging, and reading configuration from the environment.
  Their outcomes are parameters:
  - a fetch, upload or save is a boolean
  - a service call is a `Result`
  - the retrieved job is a function of the id it is looked up by
- **Clock and uuid:** timestamps and the uuid are parameters. Uniqueness of
  generated ids is not claimed: `AppendKeepsUniqueKeys` takes a fresh id and
  input file as its hypothesis.
- **Concurrent runs:** stages or processes that read and write the control
  file at the same time are not modelled.
- **Input-file generation:** `generate_jsonl`'s subscriber loop, prompt
  text, `title()` and JSONL writing. Only the zodiac sign and the input-file
  key are modelled.
- **JSON text:** `json.loads`, `json.dumps` and `splitlines` are not
  modelled. A result line is given already decoded (or as undecodable), and
  the control document is given as its decoded value.
- **JSON key order and floats:** maps do not keep key order, and JSON
  floats and Python's cross-type equality (`True == 1`) are not modelled.
- **Other exceptions:** exceptions that the source's `except` clauses do
  not name are not modelled. They would propagate to the stage's outer
  handler and end it with False.
  - In `check_batch_completion`, the model treats every retrieve failure as
    "not ready".
  - In the Submit stage, `files.create` is guarded against the service's
    error and `IOError` only (packages/batch-upload/src/batch_upload_input.py:95),
    and `batches.create` against the service's error only (line 117). Any
    other exception skips that batch's update and every later batch, and
    the stage returns False (lines 145-147). A `SubmitStep` cannot express
    this: every upload or creation failure becomes a `failed` update.

Modelled more narrowly than the source:
- `ParseInt`: only a non-empty run of ASCII decimal digits parses. Python's
  `int()` also accepts surrounding whitespace, a sign, underscores between
  digits and non-ASCII digits. Such birthdates give "Unknown" in the model.
- `Lower`: lowercases ASCII letters only. Python's `str.lower` also maps
  non-ASCII letters.
- `PyStr`: `str()` of a list or dict `target_date` (as an f-string renders
  it) is not modelled; such a value renders as "".

## Findings

| source | as written | input that shows it | evidently intended | confidence | as-written member | corrected member |
|---|---|---|---|---|---|---|
| packages/batch-upload/src/batch_upload_input.py:75-136 with shared/utils/control_file_utils.py:212-214 | The Submit stage addresses each update by the record's `batch_id` or its `input_file`, and the update rewrites the first record in list order that matches either one. | `[{batch_id: "b1", input_file: "k", status: "completed"}, {batch_id: "b2", input_file: "k", target_date: "d", status: "prepared"}]` with every call succeeding: `b1` becomes `submitted`, `b2` stays `prepared`, and the stage returns True. The lemma proves this for every such pair of records. | Each update reaches the batch it was issued for, so only `prepared` records change. This holds whenever no two records share a non-empty id or input file (`UniqueKeys`); then each prepared record also receives its own update (`BatchUpload.SubmitReachesPrepared`). Create keeps that given a fresh id and input file, and both stages keep it. | low: needs two records with the same input file, which uuid-based ids and keys make unlikely; not executed | `BatchUpload.SubmitRewritesEarlierRecord` | `BatchUpload.SubmitChangesOnlyPrepared` |
