/** The program's entry point: the fixed demonstration sequence. */
module Demo {
  import opened LogFormat
  import opened Loggers
  import opened Tagging

  /** Fans one message out to a CustomLogger and to a TestLogger, then logs it once, tagged, through CustomLoggerImpl; returns the exit status. */
  method Run(out: Console) returns (status: int)
    requires out.Valid()
    modifies out
    ensures out.Valid() && status == 0
    ensures out.lines == old(out.lines) + [
      "[Debug] Hello World\n",
      "[Info] Hello World\n",
      "[Error] Hello World\n",
      "[Debug] [MyTag] Hello World\n"]
    ensures out.calls == old(out.calls)
      + FanOut(CustomLogger, "Hello World")
      + FanOut(TestLogger, "Hello World")
      + [Call(CustomLoggerImpl, Debug, "[MyTag] Hello World")]
  {
    var customLogger := CustomLogger;
    LogToAll(customLogger, out, "Hello World");
    FanOutOutput(customLogger, "Hello World");
    ghost var afterCustom := out.lines;
    assert afterCustom == old(out.lines) + [Line(Debug, "Hello World"), Line(Info, "Hello World"), Line(Error, "Hello World")];
    var testLogger := TestLogger;
    LogToAll(testLogger, out, "Hello World");
    FanOutOutput(testLogger, "Hello World");
    assert out.lines == afterCustom;

    var logger := new TaggedLogger(CustomLoggerImpl);
    logger.SetTag("MyTag");
    logger.LogDebugTagged(out, "Hello World");
    DemoText();
    return 0;
  }

  /** The demonstration's strings, spelled out. */
  lemma DemoText()
    ensures TagMessage("MyTag", "Hello World") == "[MyTag] Hello World"
    ensures Line(Debug, "Hello World") == "[Debug] Hello World\n"
    ensures Line(Info, "Hello World") == "[Info] Hello World\n"
    ensures Line(Error, "Hello World") == "[Error] Hello World\n"
    ensures Line(Debug, "[MyTag] Hello World") == "[Debug] [MyTag] Hello World\n"
  {
    assert "[" + "MyTag" + "] " + "Hello World" == "[MyTag] Hello World";
    assert "[Debug] " + "Hello World" + "\n" == "[Debug] Hello World\n";
    assert "[Info] " + "Hello World" + "\n" == "[Info] Hello World\n";
    assert "[Error] " + "Hello World" + "\n" == "[Error] Hello World\n";
    assert "[Debug] " + "[MyTag] Hello World" + "\n" == "[Debug] [MyTag] Hello World\n";
  }
}
