/** The indexing logger's session metrics: counters, the error list and the
    session summary. Handler and file setup, message formatting and the
    clock are not part of this model; the clock reading is a parameter. */
module Logger {
  import opened Wrappers

  /** The module directories created under the log root. */
  const ModuleDirectories: set<string> :=
    {"indexing", "extraction", "search", "monitoring", "general", "performance", "errors"}

  /** Directory a logger writes its module log to: its own module's
      directory when that is one of the seven, otherwise "general". */
  function LogDirectoryFor(moduleName: string): (r: string)
    ensures r in ModuleDirectories
    ensures moduleName in ModuleDirectories ==> r == moduleName
    ensures moduleName !in ModuleDirectories ==> r == "general"
  {
    if moduleName in ModuleDirectories then moduleName else "general"
  }

  /** A custom module such as "test_module" gets no directory of its own. */
  lemma CustomModuleLogsToGeneral()
    ensures LogDirectoryFor("test_module") == "general"
  {
  }

  /** `create_module_logger`: the logger name defaults to "deepsearch_"
      followed by the module name. */
  function ModuleLoggerName(moduleName: string, loggerName: Option<string>): (r: string)
    ensures loggerName.Some? ==> r == loggerName.value
    ensures loggerName.None? ==> r == "deepsearch_" + moduleName && |r| == |moduleName| + 11
  {
    match loggerName
    case Some(n) => n
    case None => "deepsearch_" + moduleName
  }

  datatype ErrorEntry = ErrorEntry(path: string, message: string)

  /** `errors[-n:]` for n >= 1: the last min(n, |s|) elements, in order.
      (Python's `errors[-0:]` is the whole list; the logger slices with
      n = 10 only.) */
  function LastN<T>(s: seq<T>, n: nat): (r: seq<T>)
    ensures |r| == if |s| < n then |s| else n
    ensures r == s[|s| - |r|..]
  {
    if |s| < n then s else s[|s| - n..]
  }

  datatype SessionSummary = SessionSummary(
    filesProcessed: int,
    filesFailed: int,
    totalSizeGb: real,
    elapsedTime: real,
    filesPerSecond: real,
    mbPerSecond: real,
    errorRate: real,
    recentErrors: seq<ErrorEntry>)

  /** `amount / elapsed if elapsed > 0 else 0`: a rate that gives the amount
      back over the elapsed time, or 0 when no time has passed. */
  function PerSecond(amount: real, elapsed: real): (r: real)
    ensures elapsed > 0.0 ==> r * elapsed == amount
    ensures elapsed <= 0.0 ==> r == 0.0
  {
    if elapsed > 0.0 then amount / elapsed else 0.0
  }

  /** Failed files over all files seen, or 0 when none were seen. */
  function ErrorRate(processed: int, failed: int): (r: real)
    requires processed >= 0 && failed >= 0
    ensures processed + failed == 0 ==> r == 0.0
    ensures processed + failed > 0 ==> r * (processed + failed) as real == failed as real
    ensures 0.0 <= r <= 1.0
  {
    if processed + failed > 0 then failed as real / (processed + failed) as real else 0.0
  }

  class IndexingLogger {
    const name: string
    const moduleName: string
    var filesProcessed: int
    var filesFailed: int
    var totalSizeProcessed: int
    var startTime: Option<real>
    var errors: seq<ErrorEntry>

    /** Counters never go below zero. */
    ghost predicate Valid()
      reads this
    {
      filesProcessed >= 0 && filesFailed >= 0
    }

    constructor (name: string, moduleName: string)
      ensures Valid()
      ensures this.name == name && this.moduleName == moduleName
      ensures filesProcessed == 0 && filesFailed == 0 && totalSizeProcessed == 0
      ensures startTime == None && errors == []
    {
      this.name := name;
      this.moduleName := moduleName;
      filesProcessed, filesFailed, totalSizeProcessed := 0, 0, 0;
      startTime := None;
      errors := [];
    }

    /** `start_session`: records the start time and resets every counter
        and the error list. */
    method StartSession(now: real)
      modifies this
      ensures Valid()
      ensures startTime == Some(now)
      ensures filesProcessed == 0 && filesFailed == 0 && totalSizeProcessed == 0 && errors == []
    {
      startTime := Some(now);
      filesProcessed, filesFailed, totalSizeProcessed := 0, 0, 0;
      errors := [];
    }

    /** `log_file_processed`: one more file, `size` more bytes. */
    method LogFileProcessed(path: string, size: int, duration: real)
      requires Valid()
      modifies this
      ensures Valid()
      ensures filesProcessed == old(filesProcessed) + 1
      ensures totalSizeProcessed == old(totalSizeProcessed) + size
      ensures filesFailed == old(filesFailed) && errors == old(errors) && startTime == old(startTime)
    {
      filesProcessed := filesProcessed + 1;
      totalSizeProcessed := totalSizeProcessed + size;
    }

    /** `log_file_failed`: one more failure, appended to the error list. */
    method LogFileFailed(path: string, message: string)
      requires Valid()
      modifies this
      ensures Valid()
      ensures filesFailed == old(filesFailed) + 1
      ensures errors == old(errors) + [ErrorEntry(path, message)]
      ensures filesProcessed == old(filesProcessed) && totalSizeProcessed == old(totalSizeProcessed)
      ensures startTime == old(startTime)
    {
      filesFailed := filesFailed + 1;
      errors := errors + [ErrorEntry(path, message)];
    }

    /** Seconds since the session start; 0 when no start time (or a zero
        one) was recorded. */
    function Elapsed(now: real): real
      reads this
    {
      match startTime
      case Some(t) => if t != 0.0 then now - t else 0.0
      case None => 0.0
    }

    /** `get_session_summary` at clock reading `now`. */
    function SessionSummaryAt(now: real): (s: SessionSummary)
      requires Valid()
      reads this
      ensures s.filesProcessed == filesProcessed && s.filesFailed == filesFailed
      ensures filesProcessed + filesFailed == 0 ==> s.errorRate == 0.0
      ensures filesProcessed + filesFailed > 0 ==>
                s.errorRate * (filesProcessed + filesFailed) as real == filesFailed as real
      ensures 0.0 <= s.errorRate <= 1.0
      ensures |s.recentErrors| == if |errors| < 10 then |errors| else 10
      ensures s.recentErrors == errors[|errors| - |s.recentErrors|..]
      ensures s.totalSizeGb * (1024 * 1024 * 1024) as real == totalSizeProcessed as real
      ensures s.elapsedTime <= 0.0 ==> s.filesPerSecond == 0.0 && s.mbPerSecond == 0.0
      ensures s.elapsedTime > 0.0 ==> s.filesPerSecond * s.elapsedTime == filesProcessed as real
      ensures s.elapsedTime > 0.0 ==>
                s.mbPerSecond * s.elapsedTime * (1024 * 1024) as real == totalSizeProcessed as real
      ensures s.elapsedTime == Elapsed(now)
    {
      var elapsed := Elapsed(now);
      var mb := totalSizeProcessed as real / (1024 * 1024) as real;
      SessionSummary(
        filesProcessed,
        filesFailed,
        totalSizeProcessed as real / (1024 * 1024 * 1024) as real,
        elapsed,
        PerSecond(filesProcessed as real, elapsed),
        PerSecond(mb, elapsed),
        ErrorRate(filesProcessed, filesFailed),
        LastN(errors, 10))
    }
  }

  /** The logger's state changed exactly as one `log_file_failed(path,
      message)` changes it. */
  twostate predicate LoggedFailure(l: IndexingLogger, path: string, message: string)
    reads l
  {
    && l.filesFailed == old(l.filesFailed) + 1
    && l.errors == old(l.errors) + [ErrorEntry(path, message)]
    && l.filesProcessed == old(l.filesProcessed)
    && l.totalSizeProcessed == old(l.totalSizeProcessed)
    && l.startTime == old(l.startTime)
  }

  /** The logger's state changed exactly as one `log_file_processed` with
      this size changes it. */
  twostate predicate LoggedProcessed(l: IndexingLogger, size: int)
    reads l
  {
    && l.filesProcessed == old(l.filesProcessed) + 1
    && l.totalSizeProcessed == old(l.totalSizeProcessed) + size
    && l.filesFailed == old(l.filesFailed)
    && l.errors == old(l.errors)
    && l.startTime == old(l.startTime)
  }

  /** A fresh session reports no failures, an error rate of 0 and no
      recent errors. */
  method FreshSessionSummary(logger: IndexingLogger, now: real) returns (s: SessionSummary)
    modifies logger
    ensures s.filesProcessed == 0 && s.filesFailed == 0
    ensures s.errorRate == 0.0 && s.recentErrors == []
  {
    logger.StartSession(now);
    s := logger.SessionSummaryAt(now);
  }

  /** The factory loggers: (logger name, module name) of each. */
  const IndexingLoggerNames: (string, string) := ("deepsearch_indexer", "indexing")
  const ExtractionLoggerNames: (string, string) := ("deepsearch_extractor", "extraction")
  const SearchLoggerNames: (string, string) := ("deepsearch_search", "search")
  const MonitoringLoggerNames: (string, string) := ("deepsearch_monitor", "monitoring")
  const PerformanceLoggerNames: (string, string) := ("deepsearch_performance", "performance")

  /** Every factory logger writes to its own module directory. */
  lemma FactoryLoggersHaveOwnDirectories()
    ensures LogDirectoryFor(IndexingLoggerNames.1) == "indexing"
    ensures LogDirectoryFor(ExtractionLoggerNames.1) == "extraction"
    ensures LogDirectoryFor(SearchLoggerNames.1) == "search"
    ensures LogDirectoryFor(MonitoringLoggerNames.1) == "monitoring"
    ensures LogDirectoryFor(PerformanceLoggerNames.1) == "performance"
  {
  }
}
