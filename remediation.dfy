/** The scan-and-patch run: counts the candidates, streams them, patches
    each with the recomputation rule, sorts each outcome into its log, and
    writes a summary. `Scan` and `RunLogs` say what a run produces as
    functions of the collaborators' answers; `RunScript` is the loop
    itself, proved to produce exactly that. */
module Remediation {
  import opened Values
  import Filter
  import Pipeline
  import opened Store

  const UpdatedLog := "updated_ids.log"
  const SkippedLog := "skipped_ids.log"
  const ErrorLog := "error_ids.log"
  const SummaryLog := "summary.log"
  const CursorErrorLog := "cursor_error.log"

  const NoCandidatesText := "No invalid documents found."

  /** How one update attempt is classified. */
  datatype Outcome = Updated | Skipped | Errored(error: string)

  /** `modifiedCount === 1` is an update; any other acknowledgement is a
      skip; a throw is an error. */
  function Classify(reply: UpdateReply): Outcome
  {
    match reply
    case Threw(e) => Errored(e)
    case Acknowledged(n) => if n == 1 then Updated else Skipped
  }

  /** The reply of a store that runs the update pipeline on the document:
      `modifiedCount` is 1 when the document changed and 0 when it did
      not; a pipeline the store rejects throws. */
  function StoreReply(doc: Record): UpdateReply
  {
    match Pipeline.Apply(doc)
    case Some(after) => Acknowledged(if after == doc then 0 else 1)
    case None => Threw("pipeline evaluation failed")
  }

  /** Against such a store a document is updated exactly when its sources
      are usable and its `num_search` is not already the derived key, and
      skipped otherwise: in particular a document missing `job_id` or
      `client_code` is skipped, and the update never throws. */
  lemma StoreClassification(doc: Record)
    ensures Classify(StoreReply(doc)) == Updated <==>
      Pipeline.SourcesUsable(doc) && doc.numSearch != Str(Pipeline.DerivedKey(doc))
    ensures Classify(StoreReply(doc)) != Updated ==> Classify(StoreReply(doc)) == Skipped
  {
    Pipeline.RecomputationRule(doc);
    var after := Pipeline.Apply(doc).value;
    if Pipeline.SourcesUsable(doc) {
      assert after == doc <==> doc.numSearch == Str(Pipeline.DerivedKey(doc));
    }
  }

  /** Running the job again over documents it has already patched skips
      them all. */
  lemma RerunSkipped(doc: Record)
    ensures Pipeline.Apply(doc).Some?
    ensures Classify(StoreReply(Pipeline.Apply(doc).value)) == Skipped
  {
    Pipeline.ApplyIdempotent(doc);
  }

  /** The error-log entry for a document whose update threw. */
  function ErrorLine(id: string, error: string): string
  {
    id + " - " + error
  }

  /** The cursor-error-log entry for a fetch that threw after `scanned` documents. */
  function CursorFaultLine(scanned: nat, error: string): string
  {
    "Cursor failed at document #" + NatToDecimal(scanned) + ": " + error
  }

  function SummaryText(total: nat, scanned: nat, updated: nat, skipped: nat): string
  {
    "SUMMARY\n" +
    "-----------------\n" +
    "Total Invalid: " + NatToDecimal(total) + "\n" +
    "Scanned: " + NatToDecimal(scanned) + "\n" +
    "Updated: " + NatToDecimal(updated) + "\n" +
    "Skipped: " + NatToDecimal(skipped) + "\n"
  }

  /** A log file holding the given entries, one per line. */
  function Lines(entries: seq<string>): string
    decreases |entries|
  {
    if entries == [] then "" else Lines(entries[..|entries| - 1]) + entries[|entries| - 1] + "\n"
  }

  /** What processing a prefix of the stream has produced: the two
      counters and the entries of the three per-record logs. */
  datatype Progress = Progress(updated: nat, skipped: nat, updatedIds: seq<string>, skippedIds: seq<string>, errorLines: seq<string>)

  const NoProgress := Progress(0, 0, [], [], [])

  /** Processing one more document whose update got `reply`. */
  function Tally(p: Progress, doc: Record, reply: UpdateReply): Progress
  {
    match Classify(reply)
    case Updated => p.(updated := p.updated + 1, updatedIds := p.updatedIds + [doc.id])
    case Skipped => p.(skipped := p.skipped + 1, skippedIds := p.skippedIds + [doc.id])
    case Errored(e) => p.(errorLines := p.errorLines + [ErrorLine(doc.id, e)])
  }

  /** Processing the documents in cursor order, the i-th update getting
      `replies[i]`. */
  function Scan(docs: seq<Record>, replies: seq<UpdateReply>): Progress
    requires |replies| == |docs|
    decreases |docs|
  {
    if docs == [] then NoProgress
    else Tally(Scan(docs[..|docs| - 1], replies[..|docs| - 1]), docs[|docs| - 1], replies[|docs| - 1])
  }

  /** The progress of two runs one after the other. */
  function Merge(p: Progress, q: Progress): Progress
  {
    Progress(p.updated + q.updated, p.skipped + q.skipped,
             p.updatedIds + q.updatedIds, p.skippedIds + q.skippedIds, p.errorLines + q.errorLines)
  }

  /** Every scanned document is counted exactly once: as updated, as
      skipped, or by its one line in the error log; and each counter
      matches the number of ids in its log. */
  lemma {:induction false} ScanAccounting(docs: seq<Record>, replies: seq<UpdateReply>)
    requires |replies| == |docs|
    ensures var p := Scan(docs, replies);
      |docs| == p.updated + p.skipped + |p.errorLines| &&
      |p.updatedIds| == p.updated && |p.skippedIds| == p.skipped
    decreases |docs|
  {
    if docs != [] {
      ScanAccounting(docs[..|docs| - 1], replies[..|docs| - 1]);
    }
  }

  /** How a document is processed does not depend on what happened to
      the documents before it: scanning a stream is scanning it up to
      `k`, then from `k` on, with the counts added and the log entries
      concatenated. */
  lemma {:induction false} ScanSplits(docs: seq<Record>, replies: seq<UpdateReply>, k: nat)
    requires |replies| == |docs| && k <= |docs|
    ensures Scan(docs, replies) == Merge(Scan(docs[..k], replies[..k]), Scan(docs[k..], replies[k..]))
    decreases |docs|
  {
    var p := Scan(docs[..k], replies[..k]);
    if k == |docs| {
      assert docs[..k] == docs && replies[..k] == replies;
      assert docs[k..] == [] && replies[k..] == [];
      assert p.updatedIds + [] == p.updatedIds && p.skippedIds + [] == p.skippedIds && p.errorLines + [] == p.errorLines;
    } else {
      var n := |docs| - 1;
      var q := Scan(docs[k..n], replies[k..n]);
      assert Scan(docs[..n], replies[..n]) == Merge(p, q) by {
        ScanSplits(docs[..n], replies[..n], k);
        assert docs[..n][..k] == docs[..k] && replies[..n][..k] == replies[..k];
        assert docs[..n][k..] == docs[k..n] && replies[..n][k..] == replies[k..n];
      }
      assert Scan(docs[k..], replies[k..]) == Tally(q, docs[n], replies[n]) by {
        var tail, rtail := docs[k..], replies[k..];
        assert tail[..|tail| - 1] == docs[k..n] && rtail[..|rtail| - 1] == replies[k..n];
        assert tail[|tail| - 1] == docs[n] && rtail[|rtail| - 1] == replies[n];
      }
      assert Scan(docs, replies) == Tally(Merge(p, q), docs[n], replies[n]);
      TallyAfterMerge(p, q, docs[n], replies[n]);
    }
  }

  /** Tallying a document after a merged run tallies it in the second run. */
  lemma TallyAfterMerge(p: Progress, q: Progress, doc: Record, reply: UpdateReply)
    ensures Tally(Merge(p, q), doc, reply) == Merge(p, Tally(q, doc, reply))
  {
    match Classify(reply)
    case Updated => assert p.updatedIds + q.updatedIds + [doc.id] == p.updatedIds + (q.updatedIds + [doc.id]);
    case Skipped => assert p.skippedIds + q.skippedIds + [doc.id] == p.skippedIds + (q.skippedIds + [doc.id]);
    case Errored(e) =>
      var line := ErrorLine(doc.id, e);
      assert p.errorLines + q.errorLines + [line] == p.errorLines + (q.errorLines + [line]);
  }

  /** A throwing update is isolated: the document gets one error-log line,
      and every later document is processed exactly as if it had come
      first. */
  lemma UpdateFaultIsolated(docs: seq<Record>, replies: seq<UpdateReply>, i: nat)
    requires |replies| == |docs| && i < |docs| && replies[i].Threw?
    ensures Scan(docs, replies) ==
      Merge(Merge(Scan(docs[..i], replies[..i]), Progress(0, 0, [], [], [ErrorLine(docs[i].id, replies[i].error)])),
            Scan(docs[i + 1..], replies[i + 1..]))
  {
    ThrowTallied(docs, replies, i);
    ScanSplits(docs, replies, i + 1);
  }

  /** Scanning up to and including a document whose update threw adds
      just its error line. */
  lemma ThrowTallied(docs: seq<Record>, replies: seq<UpdateReply>, i: nat)
    requires |replies| == |docs| && i < |docs| && replies[i].Threw?
    ensures Scan(docs[..i + 1], replies[..i + 1]) ==
      Merge(Scan(docs[..i], replies[..i]), Progress(0, 0, [], [], [ErrorLine(docs[i].id, replies[i].error)]))
  {
    var p := Scan(docs[..i], replies[..i]);
    ScanStep(docs, replies, i);
    assert p.updatedIds + [] == p.updatedIds && p.skippedIds + [] == p.skippedIds;
  }

  /** Scanning one more document of the stream tallies it. */
  lemma ScanStep(docs: seq<Record>, replies: seq<UpdateReply>, k: nat)
    requires |replies| == |docs| && k < |docs|
    ensures Scan(docs[..k + 1], replies[..k + 1]) == Tally(Scan(docs[..k], replies[..k]), docs[k], replies[k])
  {
    assert docs[..k + 1][..k] == docs[..k];
    assert replies[..k + 1][..k] == replies[..k];
  }

  /** Adding an entry to a log adds one line at its end. */
  lemma LinesSnoc(entries: seq<string>, x: string)
    ensures Lines(entries + [x]) == Lines(entries) + (x + "\n")
  {
    assert (entries + [x])[..|entries|] == entries;
    assert Lines(entries) + x + "\n" == Lines(entries) + (x + "\n");
  }

  /** The contents of the five log files of a run. */
  datatype Logs = Logs(updated: string, skipped: string, errors: string, summary: string, cursorErrors: string)
  {
    /** The contents of the log file called `name`. */
    function Get(name: string): string
      requires name in LogNames
    {
      if name == UpdatedLog then updated
      else if name == SkippedLog then skipped
      else if name == ErrorLog then errors
      else if name == SummaryLog then summary
      else cursorErrors
    }

    /** The logs with the file called `name` holding `text`. */
    function Set(name: string, text: string): Logs
      requires name in LogNames
    {
      if name == UpdatedLog then this.(updated := text)
      else if name == SkippedLog then this.(skipped := text)
      else if name == ErrorLog then this.(errors := text)
      else if name == SummaryLog then this.(summary := text)
      else this.(cursorErrors := text)
    }

    /** The logs as files of the file system. */
    function AsFiles(): map<string, string>
    {
      map[UpdatedLog := updated, SkippedLog := skipped, ErrorLog := errors,
          SummaryLog := summary, CursorErrorLog := cursorErrors]
    }
  }

  const LogNames: set<string> := {UpdatedLog, SkippedLog, ErrorLog, SummaryLog, CursorErrorLog}

  const NoLogs := Logs("", "", "", "", "")

  /** The five log files have five different names. */
  lemma LogNamesDistinct()
    ensures UpdatedLog != SkippedLog && UpdatedLog != ErrorLog && UpdatedLog != SummaryLog && UpdatedLog != CursorErrorLog
    ensures SkippedLog != ErrorLog && SkippedLog != SummaryLog && SkippedLog != CursorErrorLog
    ensures ErrorLog != SummaryLog && ErrorLog != CursorErrorLog
    ensures SummaryLog != CursorErrorLog
  {
    assert UpdatedLog[0] != SkippedLog[0];
  }

  /** Emptying the five logs one after the other leaves them empty among
      the other files. */
  lemma ClearedFiles(m: map<string, string>)
    ensures m[UpdatedLog := ""][SkippedLog := ""][ErrorLog := ""][SummaryLog := ""][CursorErrorLog := ""]
         == m + NoLogs.AsFiles()
  {
    LogNamesDistinct();
    var l := m[UpdatedLog := ""][SkippedLog := ""][ErrorLog := ""][SummaryLog := ""][CursorErrorLog := ""];
    var r := m + NoLogs.AsFiles();
    assert l.Keys == r.Keys;
    forall k | k in l ensures l[k] == r[k] {
      if k in LogNames {
        assert l[k] == "";
      }
    }
  }

  /** Writing a log file among other files changes that log and nothing else. */
  lemma WriteLog(others: map<string, string>, logs: Logs, name: string, text: string)
    requires name in LogNames
    ensures name in others + logs.AsFiles() && (others + logs.AsFiles())[name] == logs.Get(name)
    ensures (others + logs.AsFiles())[name := text] == others + logs.Set(name, text).AsFiles()
  {
    LogNamesDistinct();
    OverrideUpdate(others, logs.AsFiles(), name, text);
    if name == UpdatedLog {
      assert logs.AsFiles()[name := text] == logs.Set(name, text).AsFiles();
    } else if name == SkippedLog {
      assert logs.AsFiles()[name := text] == logs.Set(name, text).AsFiles();
    } else if name == ErrorLog {
      assert logs.AsFiles()[name := text] == logs.Set(name, text).AsFiles();
    } else if name == SummaryLog {
      assert logs.AsFiles()[name := text] == logs.Set(name, text).AsFiles();
    } else {
      assert logs.AsFiles()[name := text] == logs.Set(name, text).AsFiles();
    }
  }

  /** Updating an entry of the overriding map of a merge. */
  lemma OverrideUpdate(a: map<string, string>, b: map<string, string>, k: string, v: string)
    ensures (a + b)[k := v] == a + b[k := v]
  {
  }

  /** The logs while the stream is being scanned: the per-record logs
      so far, an empty summary, and the cursor-error log. */
  function ScanLogs(p: Progress, cursorErrors: string): Logs
  {
    Logs(Lines(p.updatedIds), Lines(p.skippedIds), Lines(p.errorLines), "", cursorErrors)
  }

  /** The log file a processed document goes to, and the text appended. */
  function OutcomeEntry(doc: Record, reply: UpdateReply): (string, string)
  {
    match Classify(reply)
    case Updated => (UpdatedLog, doc.id + "\n")
    case Skipped => (SkippedLog, doc.id + "\n")
    case Errored(e) => (ErrorLog, ErrorLine(doc.id, e) + "\n")
  }

  /** Appending a document's entry to its log gives the logs of the
      progress that tallies it, and changes no other file. */
  lemma AppendOutcome(others: map<string, string>, p: Progress, doc: Record, reply: UpdateReply)
    ensures var (name, text) := OutcomeEntry(doc, reply);
      var files := others + ScanLogs(p, "").AsFiles();
      name in files && files[name := files[name] + text] == others + ScanLogs(Tally(p, doc, reply), "").AsFiles()
  {
    var (name, text) := OutcomeEntry(doc, reply);
    var logs := ScanLogs(p, "");
    WriteLog(others, logs, name, logs.Get(name) + text);
    match Classify(reply)
    case Updated => LinesSnoc(p.updatedIds, doc.id);
    case Skipped => LinesSnoc(p.skippedIds, doc.id);
    case Errored(e) => LinesSnoc(p.errorLines, ErrorLine(doc.id, e));
  }

  /** The cursor-error log once the stream has ended after `scanned` documents. */
  function CursorLog(scanned: nat, end: CursorEnd): string
  {
    if end.Failed? then Lines([CursorFaultLine(scanned, end.error)]) else ""
  }

  /** The logs a run leaves, given the count, the cursor's stream and how
      it ends, and the update replies. */
  function RunLogs(total: nat, stream: seq<Record>, end: CursorEnd, replies: seq<UpdateReply>): Logs
    requires |replies| == |stream|
  {
    if total == 0 then
      NoLogs.(summary := NoCandidatesText)
    else
      var p := Scan(stream, replies);
      ScanLogs(p, CursorLog(|stream|, end)).(summary := SummaryText(total, |stream|, p.updated, p.skipped))
  }

  /** What a run that found candidates reports: the summary carries the
      count, the number of documents scanned and the two counters, every
      scanned document is accounted for as updated, skipped or by one
      error line, and the cursor-error log holds one line naming the scan
      position exactly when fetching threw. */
  lemma RunAccounting(total: nat, stream: seq<Record>, end: CursorEnd, replies: seq<UpdateReply>)
    requires total != 0 && |replies| == |stream|
    ensures var logs, p := RunLogs(total, stream, end, replies), Scan(stream, replies);
      && logs.summary == SummaryText(total, |stream|, p.updated, p.skipped)
      && |stream| == p.updated + p.skipped + |p.errorLines|
      && logs.updated == Lines(p.updatedIds) && logs.skipped == Lines(p.skippedIds) && logs.errors == Lines(p.errorLines)
      && logs.cursorErrors == (if end.Failed? then CursorFaultLine(|stream|, end.error) + "\n" else "")
  {
    ScanAccounting(stream, replies);
    if end.Failed? {
      LinesSnoc([], CursorFaultLine(|stream|, end.error));
    }
  }

  /** A run that found no candidates writes nothing but the summary, and
      the summary is exactly the no-candidates message. */
  lemma NoCandidatesRun(stream: seq<Record>, end: CursorEnd, replies: seq<UpdateReply>)
    requires |replies| == |stream|
    ensures var logs := RunLogs(0, stream, end, replies);
      logs.updated == logs.skipped == logs.errors == logs.cursorErrors == "" && logs.summary == NoCandidatesText
  {
  }

  /** The `_id`s of the documents, in order. */
  function Ids(docs: seq<Record>): (ids: seq<string>)
    ensures |ids| == |docs| && forall i :: 0 <= i < |docs| ==> ids[i] == docs[i].id
    decreases |docs|
  {
    if docs == [] then [] else Ids(docs[..|docs| - 1]) + [docs[|docs| - 1].id]
  }

  /** One document of the scan: updates it by `_id` with the pipeline
      and appends its `_id` to the updated or skipped log, or an error
      line when the update throws; nothing thrown escapes. */
  method PatchDocument(fs: FileSystem, col: Collection, doc: Record, updated: nat, skipped: nat,
                       ghost others: map<string, string>, ghost p: Progress)
    returns (updated': nat, skipped': nat)
    requires |col.updateCalls| < |col.replies|
    requires fs.files == others + ScanLogs(p, "").AsFiles()
    requires updated == p.updated && skipped == p.skipped
    modifies fs, col`updateCalls
    ensures col.updateCalls == old(col.updateCalls) + [doc.id]
    ensures var q := Tally(p, doc, col.replies[|old(col.updateCalls)|]);
      updated' == q.updated && skipped' == q.skipped && fs.files == others + ScanLogs(q, "").AsFiles()
  {
    updated', skipped' := updated, skipped;
    var reply := col.UpdateOne(doc.id);
    AppendOutcome(others, p, doc, reply);
    match reply {
      case Threw(e) =>
        fs.AppendFileSync(ErrorLog, ErrorLine(doc.id, e) + "\n");
      case Acknowledged(n) =>
        if n == 1 {
          updated' := updated' + 1;
          fs.AppendFileSync(UpdatedLog, doc.id + "\n");
        } else {
          skipped' := skipped' + 1;
          fs.AppendFileSync(SkippedLog, doc.id + "\n");
        }
    }
  }

  /** Clearing the old logs: each of the five files is emptied (and
      created if it did not exist); no other file changes. */
  method ClearLogs(fs: FileSystem)
    modifies fs
    ensures fs.files == old(fs.files) + NoLogs.AsFiles()
  {
    ClearedFiles(fs.files);
    fs.WriteFileSync(UpdatedLog, "");
    fs.WriteFileSync(SkippedLog, "");
    fs.WriteFileSync(ErrorLog, "");
    fs.WriteFileSync(SummaryLog, "");
    fs.WriteFileSync(CursorErrorLog, "");
  }

  /** The job. It clears the five logs (done when the script loads, just
      before the run starts), counts the candidates and stops early when
      there are none; otherwise it scans them and writes the summary. */
  method RunScript(fs: FileSystem, col: Collection)
    requires col.query == Filter.CandidateFilter
    requires col.updateCalls == [] && col.cursor == null
    requires |col.replies| == |col.stream|
    modifies fs, col
    ensures fs.files == old(fs.files) + RunLogs(col.total, col.stream, col.streamEnd, col.replies).AsFiles()
    ensures col.total == 0 ==> col.cursor == null && col.updateCalls == []
    ensures col.total != 0 ==> col.cursor != null && col.cursor.closed
    ensures col.total != 0 ==> col.updateCalls == Ids(col.stream)
  {
    ghost var others := old(fs.files);
    ClearLogs(fs);

    var total := col.CountDocuments(Filter.CandidateFilter);
    if total == 0 {
      WriteLog(others, NoLogs, SummaryLog, NoCandidatesText);
      fs.WriteFileSync(SummaryLog, NoCandidatesText);
      return;
    }

    var cursor := col.Find(Filter.CandidateFilter);
    var scanned, updated, skipped := ScanCursor(fs, col, cursor, others);

    ghost var p := Scan(col.stream, col.replies);
    WriteLog(others, ScanLogs(p, CursorLog(scanned, col.streamEnd)), SummaryLog, SummaryText(total, scanned, updated, skipped));
    fs.WriteFileSync(SummaryLog, SummaryText(total, scanned, updated, skipped));
  }

  /** What the first `n` documents of the stream have left behind: each
      was updated by `_id` in order, and the counters and the per-record
      logs are those of `Scan` over them; the cursor-error log holds
      `cursorErrors` and the summary is still empty. */
  predicate Processed(fs: FileSystem, col: Collection, others: map<string, string>,
                      n: nat, updated: nat, skipped: nat, cursorErrors: string)
    reads fs, col
  {
    && n <= |col.stream| && |col.replies| == |col.stream|
    && col.updateCalls == Ids(col.stream[..n])
    && var p := Scan(col.stream[..n], col.replies[..n]);
       updated == p.updated && skipped == p.skipped &&
       fs.files == others + ScanLogs(p, cursorErrors).AsFiles()
  }

  /** Where a scan stands after `scanned` documents: the cursor is open
      and has yielded them, and they have been processed; once the stream
      has ended (`scanning` false) every document has been yielded and the
      cursor-error log says how the stream ended. */
  predicate ScanState(fs: FileSystem, col: Collection, cursor: Cursor, others: map<string, string>,
                      scanned: nat, updated: nat, skipped: nat, scanning: bool)
    reads fs, col, cursor
  {
    && cursor.docs == col.stream && cursor.end == col.streamEnd
    && cursor.pos == scanned && !cursor.closed
    && (!scanning ==> scanned == |col.stream|)
    && Processed(fs, col, others, scanned, updated, skipped, if scanning then "" else CursorLog(scanned, col.streamEnd))
  }

  /** The scan: for each document the cursor yields, count it and patch
      it; a fetch that throws ends the scan with one cursor-error line;
      the cursor is closed however the scan ends. */
  method ScanCursor(fs: FileSystem, col: Collection, cursor: Cursor, ghost others: map<string, string>)
    returns (scanned: nat, updated: nat, skipped: nat)
    requires cursor.docs == col.stream && cursor.end == col.streamEnd && cursor.pos == 0 && !cursor.closed
    requires col.updateCalls == [] && |col.replies| == |col.stream|
    requires fs.files == others + NoLogs.AsFiles()
    modifies fs, col`updateCalls, cursor
    ensures cursor.closed
    ensures scanned == |col.stream| && col.updateCalls == Ids(col.stream)
    ensures var p := Scan(col.stream, col.replies);
      updated == p.updated && skipped == p.skipped &&
      fs.files == others + ScanLogs(p, CursorLog(scanned, col.streamEnd)).AsFiles()
  {
    scanned, updated, skipped := 0, 0, 0;
    var scanning := true;
    assert col.stream[..0] == [] && col.replies[..0] == [];
    while scanning
      invariant ScanState(fs, col, cursor, others, scanned, updated, skipped, scanning)
      decreases |col.stream| - scanned, scanning
    {
      scanning, scanned, updated, skipped := ScanNext(fs, col, cursor, others, scanned, updated, skipped);
    }
    cursor.Close();
    assert col.stream[..scanned] == col.stream && col.replies[..scanned] == col.replies;
  }

  /** One turn of `for await`: the next document is visited, or the
      stream has ended, and a fetch that threw is recorded. */
  method ScanNext(fs: FileSystem, col: Collection, cursor: Cursor, ghost others: map<string, string>,
                  scanned: nat, updated: nat, skipped: nat)
    returns (scanning': bool, scanned': nat, updated': nat, skipped': nat)
    requires ScanState(fs, col, cursor, others, scanned, updated, skipped, true)
    modifies fs, col`updateCalls, cursor`pos
    ensures ScanState(fs, col, cursor, others, scanned', updated', skipped', scanning')
    ensures scanning' ==> scanned' == scanned + 1
    ensures !scanning' ==> scanned' == scanned
  {
    scanning', scanned', updated', skipped' := true, scanned, updated, skipped;
    var fetched := cursor.Next();
    match fetched {
      case Yield(doc) =>
        scanned', updated', skipped' := VisitDocument(fs, col, doc, scanned, updated, skipped, others);
      case Done =>
        scanning' := false;
      case Fault(e) =>
        RecordCursorFault(fs, col, scanned, e, updated, skipped, others);
        scanning' := false;
    }
  }

  /** The body of the scan for one yielded document: count it, then
      patch it. */
  method VisitDocument(fs: FileSystem, col: Collection, doc: Record, scanned: nat, updated: nat, skipped: nat,
                       ghost others: map<string, string>)
    returns (scanned': nat, updated': nat, skipped': nat)
    requires Processed(fs, col, others, scanned, updated, skipped, "")
    requires scanned < |col.stream| && doc == col.stream[scanned]
    modifies fs, col`updateCalls
    ensures scanned' == scanned + 1
    ensures Processed(fs, col, others, scanned', updated', skipped', "")
  {
    ghost var p := Scan(col.stream[..scanned], col.replies[..scanned]);
    scanned' := scanned + 1;
    updated', skipped' := PatchDocument(fs, col, doc, updated, skipped, others, p);
    ScanStep(col.stream, col.replies, scanned);
    assert col.stream[..scanned'][..scanned] == col.stream[..scanned];
  }

  /** The `catch` around the scan: a fetch that threw after `scanned`
      documents leaves one line in the cursor-error log. */
  method RecordCursorFault(fs: FileSystem, col: Collection, scanned: nat, error: string,
                           updated: nat, skipped: nat, ghost others: map<string, string>)
    requires Processed(fs, col, others, scanned, updated, skipped, "")
    modifies fs
    ensures Processed(fs, col, others, scanned, updated, skipped, CursorLog(scanned, Failed(error)))
  {
    ghost var p := Scan(col.stream[..scanned], col.replies[..scanned]);
    var line := CursorFaultLine(scanned, error);
    LinesSnoc([], line);
    WriteLog(others, ScanLogs(p, ""), CursorErrorLog, "" + (line + "\n"));
    fs.AppendFileSync(CursorErrorLog, line + "\n");
  }
}
