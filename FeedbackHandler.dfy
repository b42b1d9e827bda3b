/** The feedback and audit log handling of codex_feedback_handler.py: the
    `logs/` directory with its system log and its JSON feedback list, the
    sanity scan over the repository's Python files, and the simulated
    failure record.

    The directory is a class whose fields are the two files; the list of
    Python files, their contents and the clock are inputs. */
module FeedbackHandler {
  import opened Wrappers
  import opened PyText
  import opened LogFormat

  /** One element of the feedback list: a record `{"timestamp", "error"}`
      or any other JSON value, kept as its serialised text. */
  datatype Record = ErrorRecord(timestamp: string, error: string) | OtherJson(text: string)

  /** `logs/feedback_log.json`: missing, present but not JSON, JSON that is
      not a list (named by its Python type), or a list of records. */
  datatype FeedbackFile = Absent | Unparseable(error: string) | NotList(typeName: string) | Records(records: seq<Record>)

  /** The writes the module makes to the `logs/` directory, in order. */
  datatype FileWrite = CreatedSystemLog | CreatedFeedbackLog | DumpedFeedback | AppendedSystemLog

  /** `pyfile.read_text()`: the exception text, or the file's text. */
  datatype ReadResult = ReadError(error: string) | Text(text: string)

  /** One `*.py` file found under the repository, as its path prints. */
  datatype SourceFile = SourceFile(path: string, contents: ReadResult)

  /** The four sanity flags of one file. */
  datatype Flags = Flags(hasTry: bool, hasReturn: bool, logsSystem: bool, usesConfig: bool)

  const DummyError: string := "Dummy error"

  // ---------------------------------------------------------------------
  // Specification functions

  /** The system log's lines; a missing file reads as empty once touched. */
  function LogLines(systemLog: Option<seq<string>>): seq<string> {
    if systemLog.Some? then systemLog.value else []
  }

  /** The feedback file after `_ensure_logs`: `[]` if it was missing,
      otherwise untouched. */
  function EnsuredFeedback(feedback: FeedbackFile): (ensured: FeedbackFile)
    ensures !ensured.Absent?
    ensures feedback.Absent? <==> ensured != feedback
  {
    if feedback.Absent? then Records([]) else feedback
  }

  /** The files `_ensure_logs` creates: the system log, then the feedback
      log, each only if it is missing. */
  function EnsureWrites(systemLog: Option<seq<string>>, feedback: FeedbackFile): (writes: seq<FileWrite>)
    ensures |writes| <= 2
    ensures writes == [] <==> systemLog.Some? && !feedback.Absent?
  {
    (if systemLog.None? then [CreatedSystemLog] else [])
      + (if feedback.Absent? then [CreatedFeedbackLog] else [])
  }

  /** The four substring tests of `run_all_checks`. */
  function FileFlags(text: string): (flags: Flags)
    ensures flags.hasTry <==> Occurs(text, "try:") && Occurs(text, "except")
    ensures flags.hasReturn <==> Occurs(text, "return")
    ensures flags.logsSystem <==> Occurs(text, "system.log")
    ensures flags.usesConfig <==> Occurs(text, "config.json") || Occurs(text, "secrets.json")
  {
    ContainsIffOccurs(text, "try:");
    ContainsIffOccurs(text, "except");
    ContainsIffOccurs(text, "return");
    ContainsIffOccurs(text, "system.log");
    ContainsIffOccurs(text, "config.json");
    ContainsIffOccurs(text, "secrets.json");
    Flags(
      Contains(text, "try:") && Contains(text, "except"),
      Contains(text, "return"),
      Contains(text, "system.log"),
      Contains(text, "config.json") || Contains(text, "secrets.json"))
  }

  /** The report line for a readable file. */
  function FlagsMessage(path: string, flags: Flags): string {
    "FILE " + (path + ": try/except=" + PyBool(flags.hasTry) + ", return=" + PyBool(flags.hasReturn)
      + ", logging=" + PyBool(flags.logsSystem) + ", config_use=" + PyBool(flags.usesConfig))
  }

  /** The report line for a file that cannot be read. */
  function ErrorMessage(path: string, error: string): string {
    "ERROR reading " + (path + ": " + error)
  }

  /** The line `run_all_checks` logs for one file. */
  function FileMessage(file: SourceFile): string {
    match file.contents
    case ReadError(e) => ErrorMessage(file.path, e)
    case Text(text) => FlagsMessage(file.path, FileFlags(text))
  }

  /** The line for every file, in order. */
  function FileMessages(files: seq<SourceFile>): (messages: seq<string>)
    ensures |messages| == |files|
  {
    seq(|files|, i requires 0 <= i < |files| => FileMessage(files[i]))
  }

  /** Every message `run_all_checks` logs, in order. */
  function ScanMessages(files: seq<SourceFile>): (messages: seq<string>)
    ensures |messages| == |files| + 1
    ensures messages[|files|] == "All checks completed"
    ensures forall i :: 0 <= i < |files| ==> messages[i] == FileMessage(files[i])
  {
    FileMessages(files) + ["All checks completed"]
  }

  lemma FileMessagesExtend(files: seq<SourceFile>, i: nat)
    requires i < |files|
    ensures FileMessages(files[..i + 1]) == FileMessages(files[..i]) + [FileMessage(files[i])]
  {
    assert files[..i + 1][i] == files[i];
  }

  lemma AppendsExtend(n: nat)
    ensures Appends(n + 1) == Appends(n) + [AppendedSystemLog]
  {
  }

  /** `n` appends to the system log. */
  function Appends(n: nat): (writes: seq<FileWrite>)
    ensures |writes| == n
    ensures forall i :: 0 <= i < n ==> writes[i] == AppendedSystemLog
  {
    seq(n, _ => AppendedSystemLog)
  }

  /** The list `simulate_failure_log` starts from: the stored list, or `[]`
      when the file is missing or not JSON; a value that is not a list has
      no `.append`. */
  function LoadedRecords(feedback: FeedbackFile): Result<seq<Record>, string> {
    match feedback
    case Records(records) => Success(records)
    case Absent => Success([])
    case Unparseable(_) => Success([])
    case NotList(t) => Failure("'" + t + "' object has no attribute 'append'")
  }

  /** The feedback file after one `simulate_failure_log` whose clock read
      `timestamp`; when `.append` raises, the file is left as it was. */
  function Simulated(feedback: FeedbackFile, timestamp: string): (after: FeedbackFile)
    ensures feedback.NotList? <==> after == EnsuredFeedback(feedback)
    ensures !feedback.NotList? ==>
      after.Records? && after.records == LoadedRecords(feedback).value + [ErrorRecord(timestamp, DummyError)]
  {
    match LoadedRecords(feedback)
    case Success(records) => Records(records + [ErrorRecord(timestamp, DummyError)])
    case Failure(_) => feedback
  }

  /** The feedback file after one `simulate_failure_log` per timestamp. */
  function SimulatedAll(feedback: FeedbackFile, timestamps: seq<string>): FeedbackFile
    decreases |timestamps|
  {
    if timestamps == [] then feedback
    else SimulatedAll(Simulated(feedback, timestamps[0]), timestamps[1..])
  }

  /** The records appended for the given timestamps, one each. */
  function DummyRecords(timestamps: seq<string>): (records: seq<Record>)
    ensures |records| == |timestamps|
    ensures forall i :: 0 <= i < |timestamps| ==> records[i] == ErrorRecord(timestamps[i], DummyError)
  {
    seq(|timestamps|, i requires 0 <= i < |timestamps| => ErrorRecord(timestamps[i], DummyError))
  }

  // ---------------------------------------------------------------------
  // Properties

  /** The line logged for a readable file reports each flag as `True`
      exactly when the text contains the pattern it stands for. */
  lemma FileLineReportsOccurrences(path: string, text: string)
    ensures FileMessage(SourceFile(path, Text(text)))
         == FlagsMessage(path, Flags(
              Occurs(text, "try:") && Occurs(text, "except"),
              Occurs(text, "return"),
              Occurs(text, "system.log"),
              Occurs(text, "config.json") || Occurs(text, "secrets.json")))
  {
    var flags := FileFlags(text);
    assert flags == Flags(
      Occurs(text, "try:") && Occurs(text, "except"),
      Occurs(text, "return"),
      Occurs(text, "system.log"),
      Occurs(text, "config.json") || Occurs(text, "secrets.json"));
  }

  /** An unreadable file gets an error line and a readable one never does:
      the two kinds of line start differently. */
  lemma ErrorLineIffUnreadable(file: SourceFile)
    ensures StartsWith(FileMessage(file), "ERROR reading ") <==> file.contents.ReadError?
    ensures StartsWith(FileMessage(file), "FILE ") <==> file.contents.Text?
  {
    var m := FileMessage(file);
    match file.contents
    case ReadError(e) =>
      var rest := file.path + ": " + e;
      assert m == "ERROR reading " + rest;
      assert m[..14] == "ERROR reading ";
      assert m[0] == 'E';
    case Text(text) =>
      var flags := FileFlags(text);
      var rest := file.path + ": try/except=" + PyBool(flags.hasTry) + ", return=" + PyBool(flags.hasReturn)
        + ", logging=" + PyBool(flags.logsSystem) + ", config_use=" + PyBool(flags.usesConfig);
      assert m == "FILE " + rest;
      assert m[..5] == "FILE ";
      assert m[0] == 'F';
  }

  /** Several simulated failures on a stored list keep its records in order
      and append one record per call, in call order, with no deduplication. */
  lemma {:induction false} SimulationsAppend(records: seq<Record>, timestamps: seq<string>)
    ensures SimulatedAll(Records(records), timestamps) == Records(records + DummyRecords(timestamps))
    decreases |timestamps|
  {
    if timestamps == [] {
      assert records + DummyRecords(timestamps) == records;
    } else {
      var next := records + [ErrorRecord(timestamps[0], DummyError)];
      assert Simulated(Records(records), timestamps[0]) == Records(next);
      SimulationsAppend(next, timestamps[1..]);
      assert next + DummyRecords(timestamps[1..]) == records + DummyRecords(timestamps);
    }
  }

  /** A missing or corrupt feedback file is treated as an empty list. */
  lemma MissingOrCorruptStartsEmpty(feedback: FeedbackFile, timestamps: seq<string>)
    requires feedback.Absent? || feedback.Unparseable?
    requires timestamps != []
    ensures SimulatedAll(feedback, timestamps) == Records(DummyRecords(timestamps))
  {
    assert Simulated(feedback, timestamps[0]) == Records([ErrorRecord(timestamps[0], DummyError)]);
    assert SimulatedAll(feedback, timestamps)
        == SimulatedAll(Records([ErrorRecord(timestamps[0], DummyError)]), timestamps[1..]);
    SimulationsAppend([ErrorRecord(timestamps[0], DummyError)], timestamps[1..]);
    assert [ErrorRecord(timestamps[0], DummyError)] + DummyRecords(timestamps[1..]) == DummyRecords(timestamps);
  }

  // ---------------------------------------------------------------------
  // The log directory

  class LogDir {
    /** `logs/system.log`, `None` while it does not exist. */
    var systemLog: Option<seq<string>>
    var feedback: FeedbackFile
    /** Every write made to the directory so far. */
    var writes: seq<FileWrite>

    constructor (systemLog: Option<seq<string>>, feedback: FeedbackFile)
      ensures this.systemLog == systemLog && this.feedback == feedback && writes == []
    {
      this.systemLog := systemLog;
      this.feedback := feedback;
      writes := [];
    }

    /** Both log files exist. */
    predicate Ensured()
      reads this
    {
      systemLog.Some? && !feedback.Absent?
    }

    /** `_ensure_logs`: create each file that is missing, and only those.
        Once both exist, another call changes nothing. */
    method EnsureLogs()
      modifies this
      ensures Ensured()
      ensures systemLog == Some(LogLines(old(systemLog)))
      ensures feedback == EnsuredFeedback(old(feedback))
      ensures writes == old(writes) + EnsureWrites(old(systemLog), old(feedback))
      ensures old(Ensured()) ==> unchanged(this)
    {
      if systemLog.None? {
        systemLog := Some([]);
        writes := writes + [CreatedSystemLog];
      }
      if feedback.Absent? {
        feedback := Records([]);
        writes := writes + [CreatedFeedbackLog];
      }
    }

    /** `_log`: ensure the files, then append one stamped line to the
        system log, earlier lines kept. */
    method Log(clock: Clock, message: string)
      modifies this, clock
      ensures systemLog == Some(LogLines(old(systemLog)) + [Line(clock.readings(old(clock.taken)), message)])
      ensures feedback == EnsuredFeedback(old(feedback))
      ensures writes == old(writes) + EnsureWrites(old(systemLog), old(feedback)) + [AppendedSystemLog]
      ensures clock.taken == old(clock.taken) + 1
    {
      EnsureLogs();
      var timestamp := clock.Now();
      systemLog := Some(systemLog.value + [Line(timestamp, message)]);
      writes := writes + [AppendedSystemLog];
    }

    /** `run_all_checks`: one line per file in the order given, an error
        line for a file that cannot be read, then the closing line. */
    method RunAllChecks(clock: Clock, files: seq<SourceFile>)
      modifies this, clock
      ensures systemLog == Some(LogLines(old(systemLog)) + Stamped(clock.readings, old(clock.taken), ScanMessages(files)))
      ensures feedback == EnsuredFeedback(old(feedback))
      ensures writes == old(writes) + EnsureWrites(old(systemLog), old(feedback)) + Appends(|files| + 1)
      ensures clock.taken == old(clock.taken) + |files| + 1
    {
      EnsureLogs();
      ghost var start, before, created, readings := clock.taken, systemLog.value, writes, clock.readings;
      var i := 0;
      assert FileMessages(files[..0]) == [];
      assert before + Stamped(readings, start, []) == before;
      while i < |files|
        invariant 0 <= i <= |files|
        invariant clock.taken == start + i
        invariant systemLog == Some(before + Stamped(readings, start, FileMessages(files[..i])))
        invariant feedback == EnsuredFeedback(old(feedback))
        invariant writes == created + Appends(i)
      {
        var file := files[i];
        var message: string;
        match file.contents {
          case ReadError(e) =>
            message := "ERROR reading " + (file.path + ": " + e);
          case Text(text) =>
            var hasTry := Contains(text, "try:") && Contains(text, "except");
            var hasReturn := Contains(text, "return");
            var logsSystem := Contains(text, "system.log");
            var usesConfig := Contains(text, "config.json") || Contains(text, "secrets.json");
            message := FlagsMessage(file.path, Flags(hasTry, hasReturn, logsSystem, usesConfig));
        }
        assert message == FileMessage(files[i]);
        Log(clock, message);
        FileMessagesExtend(files, i);
        StampedExtend(readings, start, start + i, before, FileMessages(files[..i]), [message]);
        StampedOne(readings, start + i, message);
        AppendsExtend(i);
        i := i + 1;
      }
      Log(clock, "All checks completed");
      assert files[..|files|] == files;
      StampedExtend(readings, start, start + |files|, before, FileMessages(files), ["All checks completed"]);
      StampedOne(readings, start + |files|, "All checks completed");
      AppendsExtend(|files|);
    }

    /** `simulate_failure_log`: load the list (a missing or corrupt file
        gives `[]`), append one dummy error record stamped now, write the
        list back, then log. When the stored JSON is not a list, `.append`
        raises before anything is written, and the exception text is
        returned. */
    method SimulateFailureLog(clock: Clock) returns (raised: Option<string>)
      modifies this, clock
      ensures raised.Some? <==> old(feedback).NotList?
      ensures raised.Some? ==> raised == Some(LoadedRecords(old(feedback)).error)
      ensures feedback == Simulated(old(feedback), clock.readings(old(clock.taken)))
      ensures raised.None? ==> systemLog == Some(LogLines(old(systemLog)) + [Line(clock.readings(old(clock.taken) + 1), "Simulated failure logged")])
      ensures raised.Some? ==> systemLog == Some(LogLines(old(systemLog)))
      ensures raised.None? ==> writes == old(writes) + EnsureWrites(old(systemLog), old(feedback)) + [DumpedFeedback, AppendedSystemLog]
      ensures raised.Some? ==> writes == old(writes) + EnsureWrites(old(systemLog), old(feedback))
      ensures clock.taken == old(clock.taken) + (if raised.None? then 2 else 0)
    {
      EnsureLogs();
      var data: seq<Record>;
      match feedback {
        case Records(records) => data := records;
        case Absent => data := [];
        case Unparseable(_) => data := [];
        case NotList(t) =>
          raised := Some("'" + t + "' object has no attribute 'append'");
          return;
      }
      var timestamp := clock.Now();
      data := data + [ErrorRecord(timestamp, DummyError)];
      feedback := Records(data);
      writes := writes + [DumpedFeedback];
      Log(clock, "Simulated failure logged");
      raised := None;
    }
  }
}
