# processFile: ordered validation, error classification and guaranteed cleanup

This project models `processFile` from `project-task.js`, a short script
that shows how a `finally` block guarantees cleanup. The function takes a
file name and some file data and runs three checks in order inside a `try`
block. Each failing check throws its own error:

1. A missing or blank name throws a `ReferenceError`.
2. Data that is not a string throws a `TypeError`.
3. Empty or whitespace-only string data throws the custom `FileDataError`.

If all three checks pass, two "processing" lines go to `console.log`. The
`catch` block sends a `FileDataError` to `console.log` with a fixed prefix.
Every other error goes to `console.error` as `<name>: <message>`. The
`finally` block always prints `Closing file handle...`.

The model has three modules:

- `JsValues` (`js_values.dfy`) holds the ECMAScript behaviour the function
  depends on:
  - the values a caller can pass;
  - ToBoolean, used by `!fileName` (ECMA-262 section 7.1.2);
  - the `typeof` operator (section 13.5.3);
  - `String.prototype.trim` through TrimString (section 22.1.3). It strips the
    WhiteSpace and LineTerminator code points of sections 12.2 and 12.3.
- `FileProcessing` (`file_processing.dfy`) holds these parts:
  - the error kinds as a closed datatype;
  - each check as a pure function;
  - the `catch` classification (`Report`);
  - the trace of console notices one call produces, where each notice is
    tagged with its stream (`Trace`);
  - `ProcessFile`, a method that builds that trace step by step as the
    try/catch/finally does;
  - lemmas for the ordering, classification, cleanup and exactly-one-outcome
    properties.
- `TestVectors` (`test_vectors.dfy`) holds the calls at the end of the
  script, both the live ones and the commented-out ones.

The source has one behaviour that is easy to miss. Suppose the file name is
a truthy value that is not a string, such as a number, `true` or an object.
It passes `!fileName`, and then `fileName.trim()` throws a runtime
`TypeError`. The generic `catch` branch reports that error, and the cleanup
still runs. The model covers this path as `TrimNotAFunction`.

## Model

| member | source | states |
|---|---|---|
| JsValues.TypeOf | project-task.js:61 | `typeof v` is "string" exactly when v is a string |
| JsValues.TrimStart | project-task.js:58-64 | the result is a suffix of the input, everything dropped is whitespace, and the result does not start with whitespace |
| JsValues.TrimEnd | project-task.js:58-64 | the result is a prefix of the input, everything dropped is whitespace, and the result does not end with whitespace |
| JsValues.ToBoolean | project-task.js:58 | a value is falsy (so `!fileName` holds) exactly when it is undefined, null, false, a zero or NaN, or "" |
| JsValues.Trim | project-task.js:58-64 | `s.trim()` is "" exactly when every character of s is whitespace, which is how both emptiness checks behave; a non-empty result starts and ends with non-whitespace |
| JsValues.TrimStartEmptyIff | project-task.js:58-64 | stripping leading whitespace leaves "" exactly when s is all whitespace |
| JsValues.TrimEndEmptyIff | project-task.js:58-64 | stripping trailing whitespace leaves "" exactly when s is all whitespace |
| JsValues.TrimSurrounded | project-task.js:58-64 | trim returns the slice of s that has only whitespace on either side of it |
| FileProcessing.KindName | project-task.js:44-49 | `err.name` is "FileDataError" exactly for the custom class, which sets it at line 47, "TypeError" exactly for a TypeError and "ReferenceError" exactly for a ReferenceError; line 81 prints it |
| FileProcessing.CheckName | project-task.js:58-60 | a falsy or blank name gives the ReferenceError "File name is missing or empty."; a truthy non-string name gives the runtime TypeError of `trim`; only a non-blank string is accepted, and it is accepted unchanged |
| FileProcessing.CheckData | project-task.js:61-67 | data that is not a string gives "File data must be a string."; blank string data gives FileDataError "File data cannot be empty."; only non-blank string data is accepted |
| FileProcessing.Validate | project-task.js:55-67 | both inputs are accepted exactly when both are non-blank strings; the name check decides first, and the data checks decide only after the name passes |
| FileProcessing.Report | project-task.js:72-82 | a FileDataError, and only a FileDataError, goes to console.log as "File data function error happened: " plus its message; every other error goes to console.error as "<name>: <message>" |
| FileProcessing.ProcessFile | project-task.js:54-87 | the try/catch/finally run produces exactly the trace `Trace` specifies |
| FileProcessing.OnlyCleanupIsCleanup | project-task.js:69-85 | no success notice and no failure notice equals the cleanup notice |
| FileProcessing.CleanupNotPrinted | project-task.js:69-82 | the cleanup notice never appears among what the try or the catch block prints |
| FileProcessing.CleanupExactlyOnceLast | project-task.js:83-86 | on every input the trace ends with "Closing file handle...", which appears nowhere before it and exactly once in the trace |
| FileProcessing.ReportIsNotProgress | project-task.js:69-82 | a failure notice is never equal to either of the two success notices |
| FileProcessing.ExactlyOneOutcome | project-task.js:55-82 | before the cleanup comes either the two success notices and no failure notice, or one failure notice and no success notice |
| FileProcessing.TraceHasOneOutcome | project-task.js:55-87 | for every input, the trace is either "Processing file" and "File content" for that very name and data, then the cleanup, or one failure notice then the cleanup; it has 3 notices exactly when the inputs are accepted and 2 exactly when they are rejected |
| FileProcessing.MissingNameWins | project-task.js:58-59 | a falsy or blank name gives a ReferenceError and its console.error line whatever the data is |
| FileProcessing.NonStringNameThrows | project-task.js:58 | a truthy non-string name makes `trim` throw a TypeError, which is reported on console.error whatever the data is, and cleanup follows |
| FileProcessing.NonStringDataRejected | project-task.js:61-62 | with a valid name, data whose typeof is not "string" gives the TypeError "File data must be a string." |
| FileProcessing.EmptyDataRejected | project-task.js:64-66 | with a valid name, blank string data gives the FileDataError, reported on console.log |
| FileProcessing.SuccessTrace | project-task.js:69-71 | the trace is "Processing file: <name>", then "File content: <data>" on console.log, then the cleanup, exactly when both inputs are non-blank strings |
| TestVectors.NoArguments | project-task.js:93 | `processFile()` reports the ReferenceError, then cleans up |
| TestVectors.NumberData | project-task.js:94 | `processFile("myFile.txt", 42)` reports the data TypeError, then cleans up |
| TestVectors.EmptyData | project-task.js:95 | `processFile("myFile.txt", "")` reports the FileDataError, then cleans up |
| TestVectors.HelloWorld | project-task.js:96 | `processFile("myFile.txt", "Hello, world!")` prints both success notices, then cleans up |
| TestVectors.BlankNameEmptyData | project-task.js:97 | `processFile(" ", "")` reports the ReferenceError before the data is looked at |
| TestVectors.BlankNameNullData | project-task.js:98 | `processFile(" ", null)` reports the ReferenceError, then cleans up |

## Left out

- The console streams are not modelled as I/O. Each notice in the returned trace carries a `ConsoleLog` or `ConsoleError` tag instead.
- JavaScript exceptions, `Error` subclassing, the `err.name` assignment and stack traces are not modelled. A thrown error is a value of the closed datatype `JsError`, whose kind gives the name.
- Number values are not modelled. `Num` records only whether the number is falsy (0, -0 or NaN), because only falsiness and `typeof` matter.
- BigInt and Symbol values are not modelled. A truthy BigInt and any Symbol would give the `trim` TypeError, as a truthy number does. `0n` is falsy and would give the ReferenceError, as 0 does.
- Objects that have a callable `trim` method are not modelled, and neither are String wrapper objects. `Obj` stands for an object without one, so on a truthy `Obj` the call `trim()` throws.
- `Obj` also stands for functions. `typeof` of a function is "function", but `TypeOf` gives "object". This is not observable, because line 61 compares the result only with "string".
- A Dafny `string` holds Unicode scalar values. A JavaScript string is a sequence of UTF-16 code units and may hold lone surrogates, which the model cannot represent. Whitespace detection is unaffected: every whitespace code point lies in the Basic Multilingual Plane, and a lone surrogate is never whitespace.
- The text of the runtime TypeError ("fileName.trim is not a function") is V8's wording. ECMA-262 does not fix this message, so other engines may word it differently.
- The test vectors state their expected lines through `Report` and the notice functions, not as fully spelled-out literal strings. The exact texts follow from the contracts of `Report` and `KindName`.
- The script-level calls at lines 93-98 are modelled only as the `TestVectors` lemmas. No "file" exists: the cleanup step is only a notice.
