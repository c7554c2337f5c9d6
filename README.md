# Job-key remediation, modelled in Dafny

The script `script/script.js` repairs the `jobs` collection of a MongoDB
database. A job document carries a search key `num_search` that should read
`j<job_id>c<client_code>`. The script does the following:

1. It empties five log files.
2. It counts the documents that match a candidate filter.
3. If there are none, it writes a one-line summary and stops.
4. Otherwise it streams the candidates through a cursor. For each one it
   sends a point update whose aggregation pipeline recomputes `num_search`
   from `job_id` and `client_code`.
5. It files each document's `_id` under updated, skipped or errors, and
   notes a cursor failure in its own log.
6. Finally it writes a summary of the counters.

The model has six modules:

- `Values` holds the document values: missing, null, string, integer and
  boolean. It also holds the decimal rendering of numbers and the `\s`
  class.
- `KeyPattern` describes `/^j\d+c\d+$/` twice: as a language and as the
  automaton that matches it. It proves the two agree.
- `Filter` keeps the `$or` filter clause for clause as data, together with
  the store's meaning of each clause. It proves that the filter selects
  exactly the documents with a malformed key or an unusable source field.
- `Pipeline` keeps the update pipeline as an aggregation expression, with
  an evaluator for `$ifNull`, `$and`, `$cond`, `$concat` and `$toString`.
  It proves the recomputation rule, that only `num_search` changes, that
  the rule is idempotent, and that a repaired document stops being a
  candidate.
- `Store` holds the collaborators as classes, each answering from a
  script fixed up front:
  - the collection: count, cursor and `updateOne`;
  - the cursor;
  - the file system.
- `Remediation` holds the job itself:
  - `Scan` and `RunLogs` state what a run leaves in the logs, as functions
    of the collaborators' answers;
  - lemmas prove accounting, fault isolation, cursor-fault reporting and
    the zero-candidate exit;
  - `RunScript` and its loop `ScanCursor` are imperative methods proved to
    leave exactly `RunLogs` in the five files, with every other file
    unchanged.
- `Scenarios` works through concrete documents and runs.

Clearing the logs happens when the script loads, just before `runScript` is
called. `RunScript` models both steps, in that order.

## Model

| member | source | states |
|---|---|---|
| Values.NatToDecimal | script/script.js:131-136 | A counter renders as a non-empty string of decimal digits with no leading zero. |
| Values.IntToDecimal | script/script.js:61-66 | The `$toString` of an integer is all digits exactly when the integer is not negative, and is never empty. |
| Values.DecimalRoundTrip | script/script.js:131-136 | Reading back the digits of a rendered counter gives the counter. |
| KeyPattern.MatchesIffKey | script/script.js:32 | The matcher for `/^j\d+c\d+$/` accepts a string exactly when it is `j`, one or more digits, `c`, one or more digits, and nothing else. |
| KeyPattern.RejectsBadPrefix | script/script.js:32 | A string that does not start with `j` and a digit never matches. |
| KeyPattern.KeyOfDigits | script/script.js:61-66 | `j`, a non-empty digit string, `c` and a non-empty digit string always match the key pattern. |
| Filter.KeyIsNotBlank | script/script.js:29-32 | A well-formed key is neither empty nor whitespace-only, so the `""` and `/^\s*$/` clauses on `num_search` never select a well-formed key. |
| Filter.CandidateFilterSelectsCandidates | script/script.js:24-46 | The `$or` filter holds of a document exactly when one of three things holds: `num_search` is not a string of the form `j<digits>c<digits>` (missing and non-string included); `job_id` is missing, null, empty or blank; or `client_code` is. |
| Pipeline.GuardEvaluation | script/script.js:54-59 | The `$and` of the two `$ifNull` guards is true exactly when neither `job_id` nor `client_code` is missing, null, `false` or `0`. An empty string passes. |
| Pipeline.KeyEvaluation | script/script.js:60-67 | With both sources usable, the `$concat` evaluates without error to `"j" + toString(job_id) + "c" + toString(client_code)`. |
| Pipeline.RecomputationRule | script/script.js:49-73 | The update never fails. `_id`, `job_id` and `client_code` are left as they were. `num_search` becomes the derived key when both sources pass the guard; otherwise the whole document is unchanged. |
| Pipeline.ApplyIdempotent | script/script.js:49-73 | Applying the pipeline to its own result gives that result again. |
| Pipeline.RepairedRecordIsNotCandidate | script/script.js:24-73 | A document whose `job_id` and `client_code` are positive integers is no longer selected by the filter once the pipeline has run. |
| Remediation.StoreClassification | script/script.js:105-113 | Against a store that runs the pipeline, a document is counted as updated exactly when its sources are usable and its `num_search` differs from the derived key. Otherwise it is skipped and never errors. |
| Remediation.RerunSkipped | script/script.js:105-113 | A document the job has already patched is skipped by a second run. |
| Remediation.ScanAccounting | script/script.js:101-116 | Every scanned document is counted exactly once, as updated, as skipped or by one error line. Each counter equals the number of ids in its log. |
| Remediation.ScanStep | script/script.js:101-116 | Scanning one more document tallies it on top of what the earlier ones produced. |
| Remediation.ScanSplits | script/script.js:101-121 | A document's processing does not depend on what came before it. Scanning a stream equals scanning a prefix and then the rest, with counts added and log entries concatenated in cursor order. |
| Remediation.ThrowTallied | script/script.js:114-116 | A document whose update threw adds exactly its `<id> - <err>` line and changes no counter. |
| Remediation.UpdateFaultIsolated | script/script.js:104-116 | After a throwing update, every later document is processed exactly as if the throwing one had not been there, apart from its one error line. |
| Remediation.LinesSnoc | script/script.js:109-115 | Appending an entry to a log adds one line at its end. |
| Remediation.AppendOutcome | script/script.js:107-115 | Appending a document's entry to the log its outcome selects gives the logs of the tally that includes it, and changes no other file. |
| Remediation.ClearedFiles | script/script.js:17-21 | Emptying the five logs one after the other leaves them empty and every other file as it was. |
| Remediation.WriteLog | script/script.js:10-14 | Writing one of the five log files changes that log and no other file. |
| Remediation.RunAccounting | script/script.js:122-138 | After a run that found candidates: the summary reports the count, the scanned total and both counters; every scanned document is accounted for; each per-record log holds its entries one per line. The cursor-error log holds one `Cursor failed at document #<scanned>: <err>` line when fetching threw, and is empty otherwise. |
| Remediation.NoCandidatesRun | script/script.js:87-91 | A run that counted no candidates leaves all logs empty except the summary, which is exactly `No invalid documents found.` |
| Remediation.Ids | script/script.js:105 | The `_id`s of the documents, in cursor order. |
| Remediation.PatchDocument | script/script.js:104-116 | One `updateOne` by the document's `_id`. Counters and logs move to those of the tally of its reply, and no other file changes. |
| Remediation.VisitDocument | script/script.js:101-116 | A yielded document is counted, then patched. Processing extends from the first `n` documents to the first `n + 1`. |
| Remediation.RecordCursorFault | script/script.js:122-123 | A fetch that threw after `scanned` documents appends exactly one cursor-error line naming `scanned`. Counters and the other logs stay as they were. |
| Remediation.ScanNext | script/script.js:101-124 | One turn of `for await` does one of three things: it processes the next document; it ends the scan when the stream is exhausted; or it ends the scan with the cursor fault recorded. |
| Remediation.ScanCursor | script/script.js:93-127 | The loop scans every document the cursor yields, updating each by `_id` in order. It leaves the counters and logs that `Scan` specifies, plus the cursor-error line when fetching threw, and the cursor is closed however the scan ends. |
| Remediation.ClearLogs | script/script.js:16-21 | The five logs exist and are empty, and no other file changed. |
| Remediation.RunScript | script/script.js:75-138 | A run leaves exactly `RunLogs` in the five files and changes no other file. With zero candidates, no cursor is opened and no update is sent. Otherwise every yielded document is updated once, in cursor order, and the cursor is closed. |
| Store.Cursor.Next | script/script.js:101 | The cursor yields its documents in order, then reports the end or throws its fault. |
| Store.Cursor.Close | script/script.js:126 | The cursor is closed. |
| Store.Collection.CountDocuments | script/script.js:84 | The count of the filter's matches. |
| Store.Collection.Find | script/script.js:98 | A fresh open cursor at the start of the query's stream. |
| Store.Collection.UpdateOne | script/script.js:105 | The n-th update answers the n-th scripted reply and is recorded by `_id`. |
| Store.FileSystem.WriteFileSync | script/script.js:17 | The file's contents are replaced. |
| Store.FileSystem.AppendFileSync | script/script.js:109 | The text is added at the end of the file, which is created empty first if it did not exist. |
| Scenarios.RepairedExample | script/script.js:49-73 | `{job_id: 7, client_code: 3, num_search: ""}` is a candidate, is rewritten to `"j7c3"` and counts as updated. |
| Scenarios.MissingSourceExample | script/script.js:54-59 | `{job_id: null, client_code: 3, num_search: ""}` is a candidate, is left unchanged and counts as skipped. |
| Scenarios.UpdateFaultExample | script/script.js:101-138 | Five candidates whose third update throws. The updated log holds the other four in order; the error log holds `c - E`; the summary counts 5 scanned and 4 updated. |
| Scenarios.CursorFaultExample | script/script.js:122-138 | Five counted candidates with the cursor failing after two. Two ids are logged, the cursor-error log names document #2, and the summary reports 2 scanned. |

## Left out

- The fatal path (script/script.js:141-146) is not modelled. A failure to connect or to count would append one `Fatal: ...` line to the error log and write no summary. Connection failures are I/O, and `RunScript` assumes connecting, counting and opening the cursor succeed.
- Connecting to and closing the client (script/script.js:76-82, 145) are not modelled. They have no effect on the logs.
- Console output is not modelled: the connection message, the count, the progress line every five documents, the cursor-error notice and the printed summary (script/script.js:80, 85, 88, 118-120, 124, 139).
- `noCursorTimeout` and `batchSize: 1` (script/script.js:98) only affect resource use.
- The store, the cursor and `updateOne` answer from scripts fixed up front: the count, the stream and how it ends, and one reply per update. Nothing ties the count to the stream, because they are separate queries. Nothing ties a reply to the document it updates. `StoreClassification` gives the replies of a store that runs the pipeline.
- The text of a thrown error is taken as given, as is the `_id` of a document rendered as a string. How JavaScript renders an error or an ObjectId is not modelled.
- BSON values are restricted to missing, null, string, integer and boolean. Arrays, doubles, dates and ObjectIds are left out, including `$toString` of them and regex matching inside arrays.
- The PCRE rule that `$` may also match just before a trailing newline is left out. `/^j\d+c\d+$/` is taken to match the whole string.
- Integers are unbounded. JavaScript number precision for very large counters is not modelled.
- Exceptions thrown by the file system (`writeFileSync`, `appendFileSync`) are not modelled.
- Remediation.RunScript, Remediation.ScanCursor, Remediation.ScanNext, Remediation.VisitDocument, Remediation.RecordCursorFault, Remediation.PatchDocument, Remediation.ClearLogs and the Store methods state the new state with `old`. Their contracts are tied to `Scan` and `RunLogs`, whose properties the lemmas above prove.
