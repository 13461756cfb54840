/** The calls at the end of project-task.js, live and commented out, with
    the console output each one produces. */
module TestVectors {
  import opened JsValues
  import opened FileProcessing

  /** `processFile()`: both arguments are undefined. */
  lemma NoArguments()
    ensures Trace(Undefined, Undefined) ==
      [Report(MissingName), CleanupNotice]
  {
  }

  /** `processFile("myFile.txt", 42)`. */
  lemma NumberData()
    ensures Trace(Str("myFile.txt"), Num(false)) ==
      [Report(DataNotString), CleanupNotice]
  {
    assert !IsWS("myFile.txt"[0]);
  }

  /** `processFile("myFile.txt", "")`. */
  lemma EmptyData()
    ensures Trace(Str("myFile.txt"), Str("")) ==
      [Report(DataEmpty), CleanupNotice]
  {
    assert !IsWS("myFile.txt"[0]);
  }

  /** `processFile("myFile.txt", "Hello, world!")`. */
  lemma HelloWorld()
    ensures Trace(Str("myFile.txt"), Str("Hello, world!")) ==
      [ProcessingNotice("myFile.txt"), ContentNotice("Hello, world!"), CleanupNotice]
  {
    var name, data := "myFile.txt", "Hello, world!";
    assert !IsWS(name[0]) && !IsWS(data[0]);
    SuccessTrace(Str(name), Str(data));
  }

  /** `processFile(" ", "")`: the blank name is caught before the data. */
  lemma BlankNameEmptyData()
    ensures Trace(Str(" "), Str("")) ==
      [Report(MissingName), CleanupNotice]
  {
  }

  /** `processFile(" ", null)`. */
  lemma BlankNameNullData()
    ensures Trace(Str(" "), Null) ==
      [Report(MissingName), CleanupNotice]
  {
  }
}
