/** processFile from project-task.js: three ordered input checks inside a
    `try`, two "processing" notices on success, a `catch` that sends the
    custom FileDataError to console.log and every other error to
    console.error, and a `finally` that always announces the cleanup.
    Console output is modelled as a trace of notices tagged with their
    stream; thrown errors as values of a closed datatype. */
module FileProcessing {
  import opened JsValues

  /** The error kinds processFile can throw and catch: the two standard ones
      and the custom `FileDataError` class. */
  datatype ErrorKind = ReferenceError | TypeError | FileDataError

  /** A thrown error: its kind (which gives `err.name`) and `err.message`. */
  datatype JsError = JsError(kind: ErrorKind, message: string)

  /** The two console streams. */
  datatype Channel = ConsoleLog | ConsoleError

  /** One line written to the console. */
  datatype Notice = Notice(channel: Channel, text: string)

  /** What the `try` block decides: both inputs accepted (as the strings they
      are), or the error thrown by the first check that failed. */
  datatype Verdict = Accepted(name: string, data: string) | Rejected(error: JsError)

  /** The outcome of one check: the input accepted as the string it is, or
      the error the check throws. */
  datatype Checked = Passed(value: string) | Failed(error: JsError)

  /** `err.name` of each kind; the custom class sets it in its constructor.
      Each kind has its own name, the one line 81 prints. */
  function KindName(k: ErrorKind): (r: string)
    ensures r == "FileDataError" <==> k == FileDataError
    ensures r == "TypeError" <==> k == TypeError
    ensures r == "ReferenceError" <==> k == ReferenceError
  {
    match k
    case ReferenceError => "ReferenceError"
    case TypeError => "TypeError"
    case FileDataError => "FileDataError"
  }

  const MissingName := JsError(ReferenceError, "File name is missing or empty.")
  /** The runtime error of `fileName.trim()` on a truthy value that is not a
      string (V8's wording of the message). */
  const TrimNotAFunction := JsError(TypeError, "fileName.trim is not a function")
  const DataNotString := JsError(TypeError, "File data must be a string.")
  const DataEmpty := JsError(FileDataError, "File data cannot be empty.")

  const CleanupNotice := Notice(ConsoleLog, "Closing file handle...")

  function ProcessingNotice(name: string): Notice {
    Notice(ConsoleLog, "Processing file: " + name)
  }

  function ContentNotice(data: string): Notice {
    Notice(ConsoleLog, "File content: " + data)
  }

  /** The first check, `!fileName || fileName.trim() === ""`. The `||`
      short-circuits, so `trim` is only called on a truthy value; on a truthy
      value that is not a string it is not a function and throws. */
  function CheckName(fileName: JsValue): (r: Checked)
    ensures r.Passed? <==> fileName.Str? && !AllWS(fileName.s)
    ensures r.Passed? ==> r.value == fileName.s
    ensures r == Failed(MissingName) <==> !ToBoolean(fileName) || (fileName.Str? && AllWS(fileName.s))
    ensures r == Failed(TrimNotAFunction) <==> ToBoolean(fileName) && !fileName.Str?
  {
    if !ToBoolean(fileName) then Failed(MissingName)
    else match fileName
      case Str(s) => if Trim(s) == "" then Failed(MissingName) else Passed(s)
      case _ => Failed(TrimNotAFunction)
  }

  /** The two data checks, in order: `typeof fileData !== "string"`, then
      `fileData.trim() === ""`. */
  function CheckData(fileData: JsValue): (r: Checked)
    ensures r.Passed? <==> fileData.Str? && !AllWS(fileData.s)
    ensures r.Passed? ==> r.value == fileData.s
    ensures r == Failed(DataNotString) <==> TypeOf(fileData) != "string"
    ensures r == Failed(DataEmpty) <==> fileData.Str? && AllWS(fileData.s)
  {
    if TypeOf(fileData) != "string" then Failed(DataNotString)
    else if Trim(fileData.s) == "" then Failed(DataEmpty)
    else Passed(fileData.s)
  }

  /** The whole `try`-block decision: the name check first, and only when it
      passes the data checks; the first failing check throws. */
  function Validate(fileName: JsValue, fileData: JsValue): (r: Verdict)
    ensures r.Accepted? <==>
      fileName.Str? && !AllWS(fileName.s) && fileData.Str? && !AllWS(fileData.s)
    ensures r.Accepted? ==> r.name == fileName.s && r.data == fileData.s
    ensures CheckName(fileName).Failed? ==> r == Rejected(CheckName(fileName).error)
    ensures CheckName(fileName).Passed? && CheckData(fileData).Failed? ==>
      r == Rejected(CheckData(fileData).error)
  {
    match CheckName(fileName)
    case Failed(e) => Rejected(e)
    case Passed(name) =>
      match CheckData(fileData)
      case Failed(e) => Rejected(e)
      case Passed(data) => Accepted(name, data)
  }

  /** The `catch` block: a FileDataError goes to console.log as the fixed
      prefix and the message (console.log joins its arguments with a space);
      every other error goes to console.error as "<name>: <message>". */
  function Report(e: JsError): (n: Notice)
    ensures n.channel == ConsoleLog <==> e.kind == FileDataError
    ensures e.kind == FileDataError ==> n.text == "File data function error happened: " + e.message
    ensures e.kind != FileDataError ==> n.text == KindName(e.kind) + ": " + e.message
  {
    if e.kind == FileDataError then
      Notice(ConsoleLog, "File data function error happened:" + " " + e.message)
    else
      Notice(ConsoleError, KindName(e.kind) + ": " + e.message)
  }

  /** What the `try` block prints when nothing is thrown, or else what the
      `catch` block prints. */
  function Printed(v: Verdict): seq<Notice> {
    match v
    case Accepted(name, data) => [ProcessingNotice(name), ContentNotice(data)]
    case Rejected(e) => [Report(e)]
  }

  /** The console output of one call, as the specification of ProcessFile:
      what the `try` or the `catch` block prints, then the `finally` block. */
  function Trace(fileName: JsValue, fileData: JsValue): seq<Notice> {
    Printed(Validate(fileName, fileData)) + [CleanupNotice]
  }

  /** What the `catch` block receives: nothing, or the error the `try`
      block threw. */
  datatype Caught = Nothing | Thrown(error: JsError)

  /** processFile: runs the `try` block, remembering what it threw, then the
      `catch` block if something was thrown, then the `finally` block, each
      appending to the console trace. No error escapes. */
  method ProcessFile(fileName: JsValue, fileData: JsValue) returns (trace: seq<Notice>)
    ensures trace == Trace(fileName, fileData)
  {
    trace := [];
    var caught := Nothing;
    // try
    var verdict := Validate(fileName, fileData);
    match verdict {
      case Rejected(e) =>
        caught := Thrown(e);
      case Accepted(name, data) =>
        trace := trace + [ProcessingNotice(name)];
        trace := trace + [ContentNotice(data)];
        assert trace == Printed(verdict);
    }
    // catch
    if caught.Thrown? {
      trace := trace + [Report(caught.error)];
      assert trace == Printed(verdict);
    }
    // finally
    trace := trace + [CleanupNotice];
  }

  /** No notice other than the cleanup notice reads like it. */
  lemma OnlyCleanupIsCleanup(name: string, data: string, e: JsError)
    ensures ProcessingNotice(name) != CleanupNotice
    ensures ContentNotice(data) != CleanupNotice
    ensures Report(e) != CleanupNotice
  {
    assert ProcessingNotice(name).text[1] == 'r';
    assert ContentNotice(data).text[0] == 'F';
    if e.kind == FileDataError {
      assert Report(e).text[0] == 'F';
    }
  }

  /** Neither a success notice nor a failure notice reads like the cleanup
      notice. */
  lemma CleanupNotPrinted(v: Verdict)
    ensures CleanupNotice !in Printed(v)
  {
    match v
    case Accepted(name, data) => OnlyCleanupIsCleanup(name, data, DataEmpty);
    case Rejected(e) => OnlyCleanupIsCleanup("", "", e);
  }

  /** The `finally` guarantee: on every input the trace ends with the
      cleanup notice, and it appears nowhere else in the trace. */
  lemma CleanupExactlyOnceLast(fileName: JsValue, fileData: JsValue)
    ensures var t := Trace(fileName, fileData);
      |t| >= 2 && t[|t| - 1] == CleanupNotice
      && CleanupNotice !in t[..|t| - 1]
      && multiset(t)[CleanupNotice] == 1
  {
    var p := Printed(Validate(fileName, fileData));
    var t := Trace(fileName, fileData);
    CleanupNotPrinted(Validate(fileName, fileData));
    assert t[..|t| - 1] == p;
    assert multiset(t) == multiset(p) + multiset{CleanupNotice};
  }

  /** A failure notice never reads like one of the two success notices. */
  lemma ReportIsNotProgress(e: JsError, name: string, data: string)
    ensures Report(e) != ProcessingNotice(name)
    ensures Report(e) != ContentNotice(data)
  {
    if e.kind == FileDataError {
      assert Report(e).text[0] == 'F' && ProcessingNotice(name).text[0] == 'P';
      assert Report(e).text[5] == 'd' && ContentNotice(data).text[5] == 'c';
    }
  }

  /** What precedes the cleanup notice is exactly one outcome: the pair of
      success notices and no failure notice, or a single failure notice and
      no success notice; never both and never neither. */
  lemma ExactlyOneOutcome(v: Verdict)
    ensures v.Accepted? ==>
      Printed(v) == [ProcessingNotice(v.name), ContentNotice(v.data)]
      && forall e :: Report(e) !in Printed(v)
    ensures v.Rejected? ==>
      Printed(v) == [Report(v.error)]
      && (forall name :: ProcessingNotice(name) !in Printed(v))
      && (forall data :: ContentNotice(data) !in Printed(v))
  {
    match v
    case Accepted(name, data) =>
      forall e ensures Report(e) !in Printed(v) {
        ReportIsNotProgress(e, name, data);
      }
    case Rejected(e) =>
      forall name ensures ProcessingNotice(name) !in Printed(v) {
        ReportIsNotProgress(e, name, "");
      }
      forall data ensures ContentNotice(data) !in Printed(v) {
        ReportIsNotProgress(e, "", data);
      }
  }

  /** The same, for one call: every trace is the success pair for the
      given name and data then the cleanup, or one failure notice then the
      cleanup; the ordered checks choose which. */
  lemma TraceHasOneOutcome(fileName: JsValue, fileData: JsValue)
    ensures var t := Trace(fileName, fileData);
      t[..|t| - 1] == Printed(Validate(fileName, fileData))
      && (|t| == 3 <==> Validate(fileName, fileData).Accepted?)
      && (|t| == 2 <==> Validate(fileName, fileData).Rejected?)
    ensures var t := Trace(fileName, fileData);
      (Validate(fileName, fileData).Accepted? && fileName.Str? && fileData.Str?
       && t == [ProcessingNotice(fileName.s), ContentNotice(fileData.s), CleanupNotice])
      || (exists e :: t == [Report(e), CleanupNotice])
  {
    var t := Trace(fileName, fileData);
    assert t[..|t| - 1] == Printed(Validate(fileName, fileData));
    if Validate(fileName, fileData).Rejected? {
      assert t == [Report(Validate(fileName, fileData).error), CleanupNotice];
    }
  }

  /** A falsy or whitespace-only file name is a ReferenceError whatever the
      data is: the data checks are never reached. */
  lemma MissingNameWins(fileName: JsValue, fileData: JsValue)
    requires !ToBoolean(fileName) || (fileName.Str? && AllWS(fileName.s))
    ensures Validate(fileName, fileData) == Rejected(MissingName)
    ensures Trace(fileName, fileData) == [Report(MissingName), CleanupNotice]
  {
  }

  /** A truthy file name that is not a string makes `fileName.trim()` throw a
      TypeError, which the generic branch reports; the data is never looked at. */
  lemma NonStringNameThrows(fileName: JsValue, fileData: JsValue)
    requires ToBoolean(fileName) && !fileName.Str?
    ensures Validate(fileName, fileData) == Rejected(TrimNotAFunction)
    ensures Trace(fileName, fileData) == [Report(TrimNotAFunction), CleanupNotice]
  {
  }

  /** With a valid name, data whose `typeof` is not "string" is a TypeError;
      the emptiness check is not reached. */
  lemma NonStringDataRejected(fileName: JsValue, fileData: JsValue)
    requires fileName.Str? && !AllWS(fileName.s)
    requires TypeOf(fileData) != "string"
    ensures Validate(fileName, fileData) == Rejected(DataNotString)
    ensures Trace(fileName, fileData) == [Report(DataNotString), CleanupNotice]
  {
  }

  /** With a valid name, empty or whitespace-only string data is a
      FileDataError, reported on console.log only. */
  lemma EmptyDataRejected(fileName: JsValue, fileData: JsValue)
    requires fileName.Str? && !AllWS(fileName.s)
    requires fileData.Str? && AllWS(fileData.s)
    ensures Validate(fileName, fileData) == Rejected(DataEmpty)
    ensures Trace(fileName, fileData) == [Report(DataEmpty), CleanupNotice]
  {
  }

  /** The two success notices on console.log, in order, then the cleanup,
      are printed exactly when all three checks pass. */
  lemma SuccessTrace(fileName: JsValue, fileData: JsValue)
    ensures (fileName.Str? && fileData.Str? &&
             Trace(fileName, fileData) ==
               [Notice(ConsoleLog, "Processing file: " + fileName.s),
                Notice(ConsoleLog, "File content: " + fileData.s), CleanupNotice])
      <==> fileName.Str? && !AllWS(fileName.s) && fileData.Str? && !AllWS(fileData.s)
  {
  }
}
