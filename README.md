# MOSPI survey microdata: transform, load and read path

This project models the core of the MOSPI survey microdata system in Dafny. Survey microdata
arrives as CSV files, one row per surveyed unit. Each level of a survey has a variable schema: a
list of variable definitions with a name, a declared type (`INTEGER`, `NUMERIC`, `TEXT`) and a flag
saying whether the variable is part of the unit's common identifier.

The model covers five pieces of the system:

- **The metadata preparer** (`Data_Injection/01_prepare_metadata_from_csv.py`). It reads the
  survey-layout CSV line by line and splits it into level sections. It splits data lines on commas
  outside double quotes. From the fields it builds variable definitions: byte positions taken by
  regular expression, common-id detection and type inference.
- **The record transformer** (`Transform`). It is shared by both ingestion scripts. Every variable
  of the schema is looked up under its upper-cased name and coerced by its declared type. The row
  becomes a record (`survey_id`, `level_id`, `unit_identifier`, JSON payload) only when every
  common-id value is present. The identifier joins those values with `_` in schema order.
- **The fast chunked loader** (`Backend_Pipeline/ultra_fast_microdata.py`). It reads chunks of a
  file and transforms them. It loads them either as a PostgreSQL `COPY` text stream (`CopyFormat`,
  `Loader.CopyInsert`) or with `execute_values` in batches (`Loader.BulkInsert`). It commits every
  fifth chunk and at the end of each file, and keeps an inserted counter and a processed counter
  (`FastDriver`).
- **The file-at-a-time loader** (`Data_Injection/03_ingest_microdata.py`). It maps file names to
  levels with a default, names the columns of header-less files after the schema, and counts
  total and skipped rows. Each file is inserted and committed as one unit, and any failure ends
  the run (`Ingest`).
- **The API gateway's read path** (`API_Gateway/services/dataService.js`,
  `API_Gateway/controllers/dataController.js`):
  - `findMicrodata` builds a parameterised SQL query from a JSON filter object (`DataService`);
  - the lookup by unit identifier (`DataService`);
  - the two request handlers, with `parseInt` validation, pagination defaults, the offset and the
    page count (`DataController`, `JsNumber`).

The database is a `Loader.Connection` object. Its ghost fields hold the committed rows and the
rows of the open transaction. `Append`, `Commit` and `Rollback` change these fields in place.

Python's number parsing and formatting, pandas' CSV reader and `json.dumps` are outside the model.
They are parameters: `Values.NumberSyntax`, `Ingest.DirEntry.read`, `Transform.Encoding`. The same
holds for JavaScript's `JSON.parse` and for the database's decisions. A database refusal is a
`Loader.Refusal`: which statement of a load the database rejects.

## Model

| member | source | states |
|---|---|---|
| Text.TrimLeftShape | Backend_Pipeline/ultra_fast_microdata.py:132 | `strip()` on the left removes exactly the leading run of Python whitespace and keeps the rest as a suffix of the input |
| Text.TrimRightShape | Backend_Pipeline/ultra_fast_microdata.py:132 | `strip()` on the right removes exactly the trailing whitespace run and keeps a prefix of the input |
| Text.TrimEmptyIff | Backend_Pipeline/ultra_fast_microdata.py:132 | `str(raw).strip() == ''` holds exactly when every character of the cell is whitespace |
| Text.TrimIdempotent | Backend_Pipeline/ultra_fast_microdata.py:141-143 | a stripped value is unchanged by stripping again |
| Text.UpperIdempotent | Data_Injection/03_ingest_microdata.py:119-132 | names upper-cased on both sides (column labels and schema names) match: upper-casing twice is upper-casing once |
| Transform.Put | Backend_Pipeline/ultra_fast_microdata.py:145 | assigning a dict key adds it or replaces its value in place, leaves every other key's value alone and keeps keys distinct |
| Transform.Coerce | Backend_Pipeline/ultra_fast_microdata.py:130-143 | a missing, NaN or whitespace-only cell is null whatever the type, and only such a cell is; a type other than INTEGER and NUMERIC gives the stripped text; a text result is the stripped cell and is never empty; the only exception is OverflowError, from an INTEGER cell |
| Transform.CoerceConverts | Backend_Pipeline/ultra_fast_microdata.py:135-143 | a non-blank INTEGER cell becomes `int(float(cell))`, its stripped text when that raises ValueError, and OverflowError escapes for an infinity; a non-blank NUMERIC cell becomes `float(cell)` or, on ValueError, its stripped text |
| Transform.ProcessRow | Backend_Pipeline/ultra_fast_microdata.py:121-158 | the per-variable loop computes the row's outcome as `TransformRow` specifies it: the per-variable fold, then the identifier check |
| Transform.ScanFailurePersists | Backend_Pipeline/ultra_fast_microdata.py:125-145 | an exception raised by one of the first `k` variables is the exception of the whole row |
| Transform.PayloadKeys | Backend_Pipeline/ultra_fast_microdata.py:125-145 | the payload has distinct keys, and they are exactly the upper-cased schema names |
| Transform.PayloadLookup | Backend_Pipeline/ultra_fast_microdata.py:129-145 | under a variable's upper-cased name the payload holds that variable's coerced cell, unless a later variable has the same name |
| Transform.CommonWithAtMost | Backend_Pipeline/ultra_fast_microdata.py:147-151 | at most every common-id variable satisfies a test, and the count equals their number exactly when all of them do |
| Transform.PartsCount | Backend_Pipeline/ultra_fast_microdata.py:147-148 | every identifier part is non-empty, and there is one per common-id variable with a non-blank cell |
| Transform.PartsWhenComplete | Backend_Pipeline/ultra_fast_microdata.py:147-148 | when every common-id cell has a value, the parts are those values' `str()` texts in schema order |
| Transform.PresentAtMostCommon | Backend_Pipeline/ultra_fast_microdata.py:147-151 | the present common-id values number at most the common-id variables, and equal them exactly when none is blank |
| Transform.KeepIff | Backend_Pipeline/ultra_fast_microdata.py:151-158 | a row that raises nothing is kept exactly when the number of common-id values present equals `len(common_identifiers)` |
| Transform.KeepWhenComplete | Backend_Pipeline/ultra_fast_microdata.py:151-158 | with every common-id value present, the row is kept and its identifier is the values' texts `_`-joined in schema order |
| Transform.SkipWhenMissing | Data_Injection/03_ingest_microdata.py:154-159 | a row with a blank common-id cell is skipped and never becomes a record |
| Transform.ChunkAccounting | Data_Injection/03_ingest_microdata.py:153-161 | the records of a chunk plus its skipped rows number exactly its rows |
| Transform.ChunkRecordsIdentified | Backend_Pipeline/ultra_fast_microdata.py:151-158 | every record carries the chunk's survey and level ids, and an identifier that `_`-joins as many non-empty parts as the level has common identifiers |
| Transform.ProcessChunk | Backend_Pipeline/ultra_fast_microdata.py:111-160 | over name-keyed rows the chunk loop yields the records of the rows it keeps, in row order, or the first exception |
| Transform.ChunkFailurePersists | Backend_Pipeline/ultra_fast_microdata.py:121-158 | an exception in the first `k` rows is the exception of the whole chunk |
| Transform.UpperLabels | Backend_Pipeline/ultra_fast_microdata.py:118 | upper-casing the column labels fails exactly when one label is an integer position |
| Transform.HeaderlessChunkRaises | Backend_Pipeline/ultra_fast_microdata.py:118 | a chunk read with `header=None` has integer labels, so as written it raises AttributeError before any row is read |
| Transform.NamedChunkIsProcessed | Backend_Pipeline/ultra_fast_microdata.py:111-132 | with name labels, none of which a schema variable's upper-cased name shares with another column, the same chunk gives the records of the name-keyed transformer |
| Transform.FirstAmbiguous | Backend_Pipeline/ultra_fast_microdata.py:124-132 | the first schema variable, in schema order, whose upper-cased name labels two or more columns; none exactly when no schema name does |
| Transform.AmbiguousLabelRaises | Backend_Pipeline/ultra_fast_microdata.py:118-132 | when a schema name labels two columns, a chunk with rows yields no records: `row.get` returns a Series and `pd.isna(...) or ...` raises ValueError outside the `try`, unless an earlier variable of the first row raised OverflowError first |
| Transform.ScanRaisesOverflow | Backend_Pipeline/ultra_fast_microdata.py:129-143 | the only exception that escapes the per-variable loop over a name-keyed row is OverflowError |
| Transform.CaseCollisionRaises | Backend_Pipeline/ultra_fast_microdata.py:118-132 | columns `id` and `ID` with a schema variable `id` make the first row raise ValueError |
| CopyFormat.SerializeRecords | Backend_Pipeline/ultra_fast_microdata.py:58-72 | the buffer holds one tab-joined line per record, each ending in a newline, in record order |
| CopyFormat.EscapeIsPerChar | Backend_Pipeline/ultra_fast_microdata.py:69 | the three chained `replace` calls escape each backslash, tab and newline on its own; the backslash goes first, so no escape is escaped twice |
| CopyFormat.EncodedFieldIsClean | Backend_Pipeline/ultra_fast_microdata.py:64-70 | no encoded field contains a raw tab or newline |
| CopyFormat.EscapedIsNotNull | Backend_Pipeline/ultra_fast_microdata.py:65-69 | no escaped value reads as the null marker `\N` |
| CopyFormat.UnescapeEscape | Backend_Pipeline/ultra_fast_microdata.py:69 | undoing the backslash escapes gives back the original text |
| CopyFormat.FieldRoundTrip | Backend_Pipeline/ultra_fast_microdata.py:64-70 | every field, None included, decodes to what was encoded |
| CopyFormat.LineRoundTrip | Backend_Pipeline/ultra_fast_microdata.py:72 | a tab-joined line decodes to the fields it was written from |
| CopyFormat.CopyTextIsJoin | Backend_Pipeline/ultra_fast_microdata.py:61-72 | the stream is the record lines joined by newlines, with a final newline |
| CopyFormat.StreamRoundTrip | Backend_Pipeline/ultra_fast_microdata.py:58-83 | the stream is lossless: read back line by line it gives exactly each record's four fields, in order |
| Loader.Connection.Append | Backend_Pipeline/ultra_fast_microdata.py:104 | an accepted statement adds its rows to the open transaction and leaves the committed rows alone |
| Loader.Connection.Commit | Backend_Pipeline/ultra_fast_microdata.py:285 | a commit makes the open transaction's rows durable, after the committed ones |
| Loader.Connection.Rollback | Backend_Pipeline/ultra_fast_microdata.py:292 | a rollback discards the open transaction and keeps the committed rows |
| Loader.BatchSizes | Backend_Pipeline/ultra_fast_microdata.py:102-103 | every batch is non-empty and at most `batch_size` long, and all but the last are exactly `batch_size` |
| Loader.BatchesConcat | Backend_Pipeline/ultra_fast_microdata.py:102-104 | the batches, concatenated, are the records in order |
| Loader.BatchCount | Backend_Pipeline/ultra_fast_microdata.py:102 | there are `ceil(n / batch_size)` batches |
| Loader.BulkInsert | Backend_Pipeline/ultra_fast_microdata.py:90-109 | sends the batches in order until the database refuses one; returns whether all were sent; a batch size of 0 raises, which the handler turns into False; a negative one sends nothing and returns True |
| Loader.BulkSuccessSendsAll | Backend_Pipeline/ultra_fast_microdata.py:101-106 | a True return with a positive batch size means every record was sent |
| Loader.BulkFailureSendsPrefix | Backend_Pipeline/ultra_fast_microdata.py:102-109 | a refused batch leaves a proper prefix of the records sent, made of whole batches |
| Loader.CopyInsert | Backend_Pipeline/ultra_fast_microdata.py:52-88 | the COPY stream is applied whole or not at all, and the return value says which |
| Loader.LoadSuccessSendsAll | Backend_Pipeline/ultra_fast_microdata.py:270-281 | a load that reports success has sent all of the chunk's records |
| Loader.Load | Backend_Pipeline/ultra_fast_microdata.py:270-277 | the chosen path's effect on the open transaction and its success flag |
| FastDriver.IngestChunk | Backend_Pipeline/ultra_fast_microdata.py:259-296 | one chunk does what `ChunkStep` specifies: a read or transform failure rolls back and leaves the file; a refused load rolls back and ends the run; an accepted load adds the records and the inserted count, commits when the chunk number is a multiple of 5, and adds the rows to the processed count |
| FastDriver.IngestFile | Backend_Pipeline/ultra_fast_microdata.py:245-308 | the chunk loop stops at the first chunk that does not go on; a file whose chunks all go on is committed at its end |
| FastDriver.Ingest | Backend_Pipeline/ultra_fast_microdata.py:162-328 | the whole run reaches the state and the outcome `RunEffect` specifies: no survey, no CSV directory, no CSV files, a run ended by a refused load, or completion with a final commit |
| FastDriver.EarlyExits | Backend_Pipeline/ultra_fast_microdata.py:184-221 | the exits before the file loop come in the order no survey, no CSV directory, no CSV file; each happens exactly in its case and leaves the table and the counters unchanged |
| FastDriver.FileStopPersists | Backend_Pipeline/ultra_fast_microdata.py:259-296 | once a chunk leaves the file, later chunks change nothing |
| FastDriver.RunStopPersists | Backend_Pipeline/ultra_fast_microdata.py:290-293 | once the run has ended, later files change nothing |
| FastDriver.ChunkStepProps | Backend_Pipeline/ultra_fast_microdata.py:270-296 | committed rows stay; a chunk that does not go on discards the open transaction and leaves the counters alone; only a refused load ends the run; the session's rows grow no faster than the inserted count |
| FastDriver.FileFoldProps | Backend_Pipeline/ultra_fast_microdata.py:259-296 | the chunk loop keeps the committed rows, leaves no open transaction when it stops early, and never adds more rows than it counts |
| FastDriver.RunFoldProps | Backend_Pipeline/ultra_fast_microdata.py:228-308 | the file loop keeps the committed rows, leaves no open transaction and never adds more rows than it counts |
| FastDriver.RunKeepsCommittedAndNeverUndercounts | Backend_Pipeline/ultra_fast_microdata.py:279-311 | however the run ends, rows already in the table stay, no transaction is open, and the rows added are at most `total_inserted`; the counter overstates the table after an abandoned file |
| FastDriver.CleanChunkStep | Backend_Pipeline/ultra_fast_microdata.py:270-296 | a clean chunk goes on, adds exactly its records in order, and adds their number and its rows to the two counters |
| FastDriver.CleanFileFold | Backend_Pipeline/ultra_fast_microdata.py:259-296 | the chunks of a clean file add exactly the file's records in chunk order, and the counters are exact |
| FastDriver.CleanFileEffect | Backend_Pipeline/ultra_fast_microdata.py:259-299 | a clean file, started with no open transaction, commits exactly its records |
| FastDriver.CleanRunFold | Backend_Pipeline/ultra_fast_microdata.py:228-308 | the files of a clean run are committed one after another, with exact counters |
| FastDriver.CleanRunLoadsEverything | Backend_Pipeline/ultra_fast_microdata.py:162-311 | when the survey and `ASI_BLOCK_C` exist and every chunk is clean, the run completes and the table gains exactly every record, in file and chunk order |
| FastDriver.MissingLevelSkipsEveryFile | Backend_Pipeline/ultra_fast_microdata.py:233-236 | without the `ASI_BLOCK_C` level every file is skipped and nothing changes |
| FastDriver.CommitCadence | Backend_Pipeline/ultra_fast_microdata.py:279-285 | an accepted chunk with records commits the whole session, its own records included, exactly when its number is a multiple of 5; otherwise the committed rows stay and its records are pending |
| FastDriver.AbandonedFile | Backend_Pipeline/ultra_fast_microdata.py:259-308 | when a chunk raises after `k` clean chunks, the file keeps exactly what those chunks had committed and leaves no transaction open, while both counters still count every clean chunk's records and rows |
| FastDriver.AbandonedFileKeepsPart | Backend_Pipeline/ultra_fast_microdata.py:279-308 | what an abandoned file leaves committed extends the old table and is a prefix of the old table followed by all of the clean chunks' records |
| FastDriver.CommittingPrefix | Backend_Pipeline/ultra_fast_microdata.py:279-285 | after clean chunks whose last one has records and a number that is a multiple of 5, all their records are committed and nothing is pending |
| FastDriver.AbandonedAfterCommit | Backend_Pipeline/ultra_fast_microdata.py:279-308 | a chunk that raises right after such a committing chunk loses nothing: the table holds every record of the clean chunks |
| FastDriver.FirstChunkRaises | Backend_Pipeline/ultra_fast_microdata.py:305-308 | a file whose first chunk raises changes neither the table nor the counters |
| FastDriver.AsWrittenRunLoadsNothing | Backend_Pipeline/ultra_fast_microdata.py:228-311 | when every file's first chunk raises, as every `header=None` chunk does at line 118, the run still reports completion, with the table unchanged and both counters at zero |
| Ingest.CsvFiles | Data_Injection/03_ingest_microdata.py:74 | the CSV files are exactly the directory entries whose lower-cased name ends in `.csv` |
| Ingest.CsvFilesAppend | Data_Injection/03_ingest_microdata.py:74 | the filter keeps directory order: filtering a listing is filtering its parts and concatenating the results |
| Ingest.LevelFor | Data_Injection/03_ingest_microdata.py:84-91 | the file's own non-empty mapping, else the non-empty `default` entry, which is then the level; there is no level exactly when neither exists |
| Ingest.ShippedLevelIsBlockC | Data_Injection/03_ingest_microdata.py:19-22 | with the shipped table every file maps to `ASI_BLOCK_C` |
| Ingest.Columns | Data_Injection/03_ingest_microdata.py:109-117 | a file listed with a header row keeps its own labels; any other file gets the schema's variable names in order, provided it has exactly as many columns as the schema has variables; that mismatch is the only failure |
| Ingest.TransformRows | Data_Injection/03_ingest_microdata.py:122-161 | the row loop yields the chunk's records; `total_records` counts every row, `skipped_records` counts the skips, and the records number `total - skipped` |
| Ingest.IngestFile | Data_Injection/03_ingest_microdata.py:84-178 | one file commits exactly its records, or exits with the reason `FileOutcome` gives and commits nothing; no transaction stays open |
| Ingest.LoadFrame | Data_Injection/03_ingest_microdata.py:118-178 | a frame with settled labels is upper-cased, transformed, inserted and committed only when it has records; any exception rolls back |
| Ingest.IngestNext | Data_Injection/03_ingest_microdata.py:79-178 | one pass of the file loop either ends the run in the state `RunFold` specifies or extends the run by one file |
| Ingest.IngestFiles | Data_Injection/03_ingest_microdata.py:79-178 | the file loop reaches the table and exit `RunFold` specifies |
| Ingest.IngestMicrodata | Data_Injection/03_ingest_microdata.py:44-178 | the whole run: no survey, no directory and no CSV files each exit first; otherwise the file loop |
| Ingest.RunStopPersists | Data_Injection/03_ingest_microdata.py:174-178 | once a file has ended the run, later files change nothing |
| Ingest.FirstFailureDecides | Data_Injection/03_ingest_microdata.py:79-178 | files are committed whole and in order: the table gains exactly the files before the first failing one, and the run exits with that file's reason |
| Ingest.AllSucceed | Data_Injection/03_ingest_microdata.py:79-171 | files that all succeed commit all their records, file after file |
| Ingest.FinishedWhenAllSucceed | Data_Injection/03_ingest_microdata.py:79-171 | when every CSV file succeeds the run finishes and has committed every file's records in directory order |
| Ingest.ExitsWhenOneFails | Data_Injection/03_ingest_microdata.py:174-178 | one failing CSV file makes the run exit instead of finishing |
| Ingest.FinishedIff | Data_Injection/03_ingest_microdata.py:52-178 | the run finishes normally exactly when the survey, the directory and a CSV file exist and every CSV file succeeds |
| Ingest.PositionalCellsLineUp | Data_Injection/03_ingest_microdata.py:109-136 | in a header-less file whose schema names are distinct after upper-casing, each variable reads the cell at its own position |
| Metadata.SplitFields | Data_Injection/01_prepare_metadata_from_csv.py:92-105 | the character loop yields the stripped fields of the quote-aware scan |
| Metadata.ScanCounts | Data_Injection/01_prepare_metadata_from_csv.py:96-103 | the scan is inside quotes exactly after an odd number of quotes, and it has closed one field per comma outside quotes |
| Metadata.FieldCount | Data_Injection/01_prepare_metadata_from_csv.py:92-105 | a line has one field more than it has commas outside quotes |
| Metadata.FieldsJoinBack | Data_Injection/01_prepare_metadata_from_csv.py:96-105 | the unstripped fields joined with commas are the line without its double quotes: only quotes are dropped |
| Metadata.NoQuotesIsPlainSplit | Data_Injection/01_prepare_metadata_from_csv.py:92-105 | on a line without quotes the splitter is a plain split on commas |
| Metadata.SearchFrom | Data_Injection/01_prepare_metadata_from_csv.py:138 | `re.search` finds the leftmost position where the pattern matches, or reports that it matches nowhere |
| Metadata.DigitsAt | Data_Injection/01_prepare_metadata_from_csv.py:138 | `\d*` takes the maximal run of digits at a position |
| Metadata.DecimalAt | Data_Injection/01_prepare_metadata_from_csv.py:138 | `\d+\.?\d*` is a slice of the field, non-empty exactly when a digit stands at the position |
| Metadata.BytePosAt | Data_Injection/01_prepare_metadata_from_csv.py:138-141 | a match of `a , - , b` gives a non-empty digit string `a` and a number `b` that starts with a digit |
| Metadata.BytePositionsNoMatch | Data_Injection/01_prepare_metadata_from_csv.py:138-144 | start and end are both None exactly when the byte-position pattern matches nowhere in the field |
| Metadata.BytePositionsAtMatch | Data_Injection/01_prepare_metadata_from_csv.py:138-141 | at the leftmost match the start is the first group read as a decimal number and the end is `int(float(...))` of the second; when that conversion raises, the line is skipped |
| Metadata.LevelAt | Data_Injection/01_prepare_metadata_from_csv.py:68-69 | a `LEVEL - n` match gives a non-empty digit string |
| Metadata.QuesAt | Data_Injection/01_prepare_metadata_from_csv.py:72-73 | a `Ques.` match gives a non-empty word |
| Metadata.FileNameAt | Data_Injection/01_prepare_metadata_from_csv.py:76-77 | a `File Name:` match gives a non-empty name with no comma |
| Metadata.ZeroPad2 | Data_Injection/01_prepare_metadata_from_csv.py:77 | `zfill(2)` pads with zeros on the left to at least two characters and keeps the text as a suffix |
| Metadata.InferDataType | Data_Injection/01_prepare_metadata_from_csv.py:184-202 | the type is always one of the three; an identifier keyword gives INTEGER; NUMERIC exactly when there is no identifier keyword but a numeric keyword; TEXT exactly when neither applies and the length exceeds 4 |
| Metadata.VariableFromFields | Data_Injection/01_prepare_metadata_from_csv.py:107-165 | a variable comes only from a line with at least seven fields, a header row and non-empty name, length and byte-position fields; conversely every such line whose length and end position convert yields one; it takes its name from field 1 and its remarks from field 9, its length is what `int(float(...))` reads from field 5, its positions are those of field 6, its type is `infer_data_type(name, length, remarks)`, and it is a common id exactly when the remarks contain `**Common-ID**` or the name contains `Common-ID` |
| Metadata.ProcessSection | Data_Injection/01_prepare_metadata_from_csv.py:63-182 | the section's naming (`LEVEL_<n>_<q>`, `UNKNOWN` defaults, the padded default file name), its variables in line order, and the set of its common-id names |
| Metadata.NoHeaderRowNoVariables | Data_Injection/01_prepare_metadata_from_csv.py:114 | before any header row every line's `headers.lower()` raises, so the section has no variables |
| Metadata.SchemaShape | Data_Injection/01_prepare_metadata_from_csv.py:128-162 | there is at most one variable per line, and each has a non-empty name, one of the three types and the common-id flag its name and remarks give |
| Metadata.CommonIdentifiersAreFlaggedNames | Data_Injection/01_prepare_metadata_from_csv.py:164-178 | the common identifiers are exactly the names of the common-id variables |
| Metadata.ParseLine | Data_Injection/01_prepare_metadata_from_csv.py:25-49 | a section line closes the open section and opens a new one; a header line replaces the headers; a data line is kept; any other line is ignored |
| Metadata.ParseMetadataCsv | Data_Injection/01_prepare_metadata_from_csv.py:10-61 | the line loop, then the last open section: the levels `ParseSpec` specifies; an unreadable file gives no levels |
| Metadata.FlushCount | Data_Injection/01_prepare_metadata_from_csv.py:31-34 | closing a section adds at most one level, and none when no section is open |
| Metadata.FoldCount | Data_Injection/01_prepare_metadata_from_csv.py:25-49 | levels closed or open never outnumber the section lines seen, and there are no levels before the first section line |
| Metadata.LevelsAtMostSections | Data_Injection/01_prepare_metadata_from_csv.py:25-55 | there are never more levels than section lines, and none without a section line |
| JsNumber.LeadingSpace | API_Gateway/controllers/dataController.js:11-12 | `parseInt` skips exactly the leading JavaScript white space |
| JsNumber.DecRoundTrip | API_Gateway/controllers/dataController.js:21-22 | `parseInt` reads back any integer written in decimal, whatever non-digit follows it |
| JsNumber.LeadingSpaceIgnored | API_Gateway/controllers/dataController.js:11-12 | white space in front of a parameter does not change what `parseInt` reads |
| DataService.Entries | API_Gateway/services/dataService.js:21-22 | `for...in` visits an object's members in order and an array's indices with their items, and nothing for a number, boolean or null |
| DataService.ComparisonOf | API_Gateway/services/dataService.js:28-69 | exactly the five operators `>`, `<`, `>=`, `<=`, `!=` select a comparison, and each keeps its spelling |
| DataService.FilterPlan | API_Gateway/services/dataService.js:21-79 | one clause and one parameter per filter entry |
| DataService.FilterCondition | API_Gateway/services/dataService.js:23-77 | the loop body adds the clause and the parameter `FilterClause` specifies for the entry's value |
| DataService.FindMicrodata | API_Gateway/services/dataService.js:15-102 | the builder throws TypeError exactly when the filter object has its own `hasOwnProperty` member, which hides the method called at line 22; otherwise the loop produces the query `MicrodataQuery` specifies |
| DataService.FilterPlanShape | API_Gateway/services/dataService.js:21-79 | entry `k` gets placeholder `3 + k` for both the key lookup and the compared value, and its parameter is the entry's operand |
| DataService.FilterPlanOperators | API_Gateway/services/dataService.js:24-70 | an object value with a known operator gives a comparison with that operator, cast to numeric exactly when the operand is a number; anything else gives an equality |
| DataService.AssembleBindsEverything | API_Gateway/services/dataService.js:82-102 | every WHERE placeholder is bound in both queries; LIMIT and OFFSET use the last two placeholders, and the count query leaves those off |
| DataService.MicrodataQueryBindsEverything | API_Gateway/services/dataService.js:15-102 | as written, the WHERE clause has two clauses plus one per entry and is fully bound, and `countParams` is `params` without limit and offset |
| DataService.FilterLooksUpItsOwnValue | API_Gateway/services/dataService.js:68-77 | as written, a filter clause looks up the payload under the same parameter it compares with: the filter's operand, never its key |
| DataService.GenderFilterInspectsValue | API_Gateway/services/dataService.js:73-77 | the filter `{"Gender": "Male"}` inspects the payload member `Male` |
| DataService.BoundFilterPlan | API_Gateway/services/dataService.js:21-79 | with keys bound, one clause and two parameters per entry |
| DataService.BoundFilterPlanAt | API_Gateway/services/dataService.js:68-77 | with keys bound, entry `k`'s clause reads the key at `3 + 2k` and the operand at `4 + 2k` |
| DataService.BoundFilterLooksUpKey | API_Gateway/services/dataService.js:73-77 | with keys bound, each filter inspects the payload member it names and compares it with its operand |
| DataService.BoundMicrodataQueryBindsEverything | API_Gateway/services/dataService.js:82-102 | with keys bound, every placeholder is still bound in both queries |
| DataService.TotalCountReadsCount | API_Gateway/services/dataService.js:109 | the count PostgreSQL prints reaches the caller unchanged |
| DataService.Selected | API_Gateway/services/dataService.js:126-131 | the lookup query selects exactly the rows with the survey, level and unit identifier asked for |
| DataService.FindByUnitIdentifier | API_Gateway/services/dataService.js:121-133 | the result is a matching row of the table, and it is null exactly when no row matches |
| DataController.Pagination | API_Gateway/controllers/dataController.js:21-23 | a NaN or zero page is 1 and such a limit is 100, any other value is kept, and page 1 has offset 0 |
| DataController.PaginationReadsIntegers | API_Gateway/controllers/dataController.js:21-23 | a page and a limit written as non-zero integers give exactly that page, that limit and the offset `(page - 1) * limit` |
| DataController.CeilDiv | API_Gateway/controllers/dataController.js:58 | `Math.ceil(a / b)` is the least integer not below the quotient |
| DataController.TotalPages | API_Gateway/controllers/dataController.js:58 | the page count is NaN exactly when the count is; otherwise it is the fewest pages that hold every record |
| DataController.EveryRecordOnSomePage | API_Gateway/controllers/dataController.js:23-58 | with a positive limit, every record lies on one of the pages `1 .. totalPages` |
| DataController.PageRequest | API_Gateway/controllers/dataController.js:11-35 | a non-numeric id gives the ids message, else malformed filter JSON gives the filter message; otherwise the service is called with the parsed ids, the limit, the offset and the filters |
| DataController.GetMicrodata | API_Gateway/controllers/dataController.js:9-64 | 400 exactly when validation fails; the service's error is passed to `next`; 404 exactly when no data comes back; 200 carries the page, limit, count, page count and data |
| DataController.GetMicrodataByUnitIdentifier | API_Gateway/controllers/dataController.js:70-98 | 400 exactly for a non-numeric id or an empty identifier; the query's error is passed to `next`; 404 exactly when no row matches; 200 carries a matching row |

## Left out

- Database I/O is left out: connections, session settings, `copy_from`, `execute_values` and the
  survey and level lookup queries. The store is `Loader.Connection`. The database's answer to a
  load is the `Refusal` parameter. The survey id and the `survey_levels` table are parameters of
  the drivers.
- FastDriver: the driver is modelled with the corrected chunk transformer, on chunks whose rows
  are keyed by column name. As written, every chunk is read with `header=None` and raises at line
  118, so the lemmas about clean runs (`FastDriver.CleanRunLoadsEverything`) describe the intended
  program. `FastDriver.AsWrittenRunLoadsNothing` gives the run as written.
- pandas is left out: CSV reading, chunking by `CHUNK_SIZE`, NaN detection and dtype handling. A
  file arrives as its chunks of name-keyed rows (fast loader) or as a read frame (file-at-a-time
  loader). A NaN cell is `None`. Reading with a header row and the per-file delimiter table
  (`CSV_DELIMITER_MAP`) belong to the reader.
- Python's `int(float(s))`, `float(s)`, `str(float)` and `json.dumps` are uninterpreted
  parameters. Only their documented outcomes are used: a value, a ValueError, or an
  OverflowError for `int` of an infinity. `str(float)` is never empty.
- `str.upper()`/`str.lower()` are modelled on ASCII letters only. Python's `\d` and `\w` are
  modelled as ASCII digits and word characters; Unicode case mapping and Unicode digits are left
  out. `\s` and `strip()` use Python's full whitespace set.
- The prints, timing, speed and success-rate figures, `USE_BULK_INSERT` and `RETRY_ATTEMPTS`
  are left out. The last two are declared but never read, so there is no retry to model.
- The fast loader's file list (`glob('*.csv')`, case-sensitive) is a parameter.
- The run-wide `except Exception` of both drivers is left out: a failed connection or a failed
  survey query. So is the exit status of `sys.exit(1)`. The model records which exit is taken.
- `Promise.all` is left out: the data query and the count query are run together, and only their
  construction and the answers they give are modelled. Express routing and the `pg` pool are
  left out too.
- Loader.BulkInsert: every record of an accepted batch is added to the open transaction. `ON
  CONFLICT DO NOTHING` would drop rows that clash with a unique constraint, and the table's
  constraints are not part of this model.
- CopyFormat.StreamRoundTrip: the decoder splits lines on newline only. PostgreSQL also treats an
  unescaped carriage return as a line end and refuses it. Such a stream is one the database
  refuses, which `Refusal` covers.
- JsNumber.JsParseInt: reads digits into an exact integer. JavaScript's `parseInt` returns a
  double: it rounds beyond 2^53 and gives Infinity for a very long digit string, which passes the
  `isNaN` check and the `|| 1` default. DataController.Pagination computes `(page - 1) * limit` on
  exact integers for the same reason, where JavaScript multiplies doubles.
- DataController.CeilDiv: computed on exact integers. `Math.ceil(totalCount / limit)` on doubles
  gives the same result only while the values are exactly representable (below 2^53).
- DataService.Entries: numbers are exact reals (`JNumber`), not doubles. `JSON.parse` is a
  parameter of the controller. Object members come in JavaScript's enumeration order, which the
  model takes as given. A string gives one entry per Unicode scalar value. JavaScript's
  `for...in` visits UTF-16 code units, so a character outside the Basic Multilingual Plane gives
  two entries there.
- Metadata.ProcessSection: `list(set(common_identifiers))` has no defined order, so the model
  keeps the common identifiers as a set.

Where the repository's design description and the code disagree, the model follows the code:

- The design says cell coercion never raises. The code catches only ValueError (and TypeError in
  the fast loader), so `int(float('inf'))` raises OverflowError. In the fast loader this abandons
  the file; in the file-at-a-time loader it ends the run (`Transform.Coerce`).
- The design says a file-level error never aborts the run. The file-at-a-time loader exits on any
  file error (`Ingest.ExitsWhenOneFails`). The fast loader ends the run when a load is refused
  (`FastDriver.ChunkStepProps`).
- The design says a missing level is fatal to the run. The fast loader skips every file instead
  (`FastDriver.MissingLevelSkipsEveryFile`).

## Findings

| source | as written | input that shows it | evidently intended | confidence | as-written member | corrected member |
|---|---|---|---|---|---|---|
| Backend_Pipeline/ultra_fast_microdata.py:118 | every chunk is read with `header=None` (lines 247-253), so its column labels are the integers `0 .. n-1`, and `col.upper()` raises AttributeError; the file's handler rolls back and moves on, so no file is ever loaded and the run still reports completion (`FastDriver.AsWrittenRunLoadsNothing`) | any CSV file with at least one column | look the cells up by the schema's upper-cased names, as the file-at-a-time loader does after naming the columns | high, not executed | Transform.HeaderlessChunkRaises | Transform.ProcessChunk |
| API_Gateway/services/dataService.js:68-77 | the key lookup and the compared value use the same placeholder, and only the value is bound, so the query compares the payload member named by the value with the value | filter `{"Gender": "Male"}` gives `data_payload->>$3 = $3` with `$3 = 'Male'` | bind the key and the value to two placeholders, `data_payload->>$3 = $4` | high, not executed | DataService.FilterLooksUpItsOwnValue | DataService.BoundFilterLooksUpKey |
