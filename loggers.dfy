/**
  The concrete loggers, the console they write to and the fan-out routine.
  A logger is any of the program's three logger types; each offers LogDebug,
  LogInfo and LogError. The console keeps what has been written and, as a
  ghost record, every logger operation that was invoked.
 */
module Loggers {
  import opened LogFormat

  /** One logger operation as invoked: which logger, which level, which message. */
  datatype Call = Call(logger: Logger, level: Level, message: string)

  /** The logger types that satisfy the logging interface. */
  datatype Logger = CustomLogger | TestLogger | CustomLoggerImpl {

    /** CustomLogger and CustomLoggerImpl print; TestLogger prints nothing. */
    predicate Verbose() {
      !TestLogger?
    }

    method LogDebug(out: Console, message: string)
      requires out.Valid()
      modifies out
      ensures out.Valid()
      ensures out.calls == old(out.calls) + [Call(this, Debug, message)]
      ensures out.lines == old(out.lines) + Output(this, Debug, message)
    {
      Log(out, Debug, message);
    }

    method LogInfo(out: Console, message: string)
      requires out.Valid()
      modifies out
      ensures out.Valid()
      ensures out.calls == old(out.calls) + [Call(this, Info, message)]
      ensures out.lines == old(out.lines) + Output(this, Info, message)
    {
      Log(out, Info, message);
    }

    method LogError(out: Console, message: string)
      requires out.Valid()
      modifies out
      ensures out.Valid()
      ensures out.calls == old(out.calls) + [Call(this, Error, message)]
      ensures out.lines == old(out.lines) + Output(this, Error, message)
    {
      Log(out, Error, message);
    }

    /** The body shared by the three operations: a verbose logger writes one entry, a silent one nothing. */
    method Log(out: Console, level: Level, message: string)
      requires out.Valid()
      modifies out
      ensures out.Valid()
      ensures out.calls == old(out.calls) + [Call(this, level, message)]
      ensures out.lines == old(out.lines) + Output(this, level, message)
    {
      if Verbose() {
        out.Write(Line(level, message));
      }
      out.calls := out.calls + [Call(this, level, message)];
      EmittedSnoc(old(out.calls), Call(this, level, message));
    }
  }

  /** What one logger operation writes. */
  function Output(logger: Logger, level: Level, message: string): seq<string> {
    if logger.Verbose() then [Line(level, message)] else []
  }

  /** What a sequence of logger operations writes, in order. */
  function Emitted(calls: seq<Call>): seq<string> {
    if calls == [] then []
    else
      var last := calls[|calls| - 1];
      Emitted(calls[..|calls| - 1]) + Output(last.logger, last.level, last.message)
  }

  /** The standard output stream, and the record of the logger operations that wrote to it. */
  class Console {
    var lines: seq<string>
    ghost var calls: seq<Call>

    /** Everything on the console was written by the recorded logger operations. */
    ghost predicate Valid()
      reads this
    {
      lines == Emitted(calls)
    }

    constructor ()
      ensures Valid() && lines == [] && calls == []
    {
      lines := [];
      calls := [];
    }

    /** Writes one entry: the whole text of one logger write. */
    method Write(line: string)
      modifies this
      ensures lines == old(lines) + [line] && calls == old(calls)
    {
      lines := lines + [line];
    }
  }

  lemma EmittedSnoc(calls: seq<Call>, c: Call)
    ensures Emitted(calls + [c]) == Emitted(calls) + Output(c.logger, c.level, c.message)
  {
    assert (calls + [c])[..|calls|] == calls;
  }

  /** The output of consecutive runs of operations is the output of the first run followed by that of the second. */
  lemma {:induction false} EmittedAppend(a: seq<Call>, b: seq<Call>)
    ensures Emitted(a + b) == Emitted(a) + Emitted(b)
  {
    if b == [] {
      assert a + b == a;
    } else {
      var init, last := b[..|b| - 1], b[|b| - 1];
      assert b == init + [last];
      assert a + b == (a + init) + [last];
      EmittedSnoc(a + init, last);
      EmittedAppend(a, init);
      EmittedSnoc(init, last);
    }
  }

  /** Operations on verbose loggers write exactly one entry each: the i-th entry is the i-th call's level label and message. */
  lemma {:induction false} VerboseEmitted(calls: seq<Call>)
    requires forall i :: 0 <= i < |calls| ==> calls[i].logger.Verbose()
    ensures |Emitted(calls)| == |calls|
    ensures forall i :: 0 <= i < |calls| ==> Emitted(calls)[i] == Line(calls[i].level, calls[i].message)
  {
    if calls != [] {
      var init, last := calls[..|calls| - 1], calls[|calls| - 1];
      VerboseEmitted(init);
      assert Emitted(calls) == Emitted(init) + [Line(last.level, last.message)];
      forall i | 0 <= i < |calls|
        ensures Emitted(calls)[i] == Line(calls[i].level, calls[i].message)
      {
        if i < |init| {
          assert calls[i] == init[i];
        }
      }
    }
  }

  /** TestLogger operations write nothing, whatever the levels and messages. */
  lemma {:induction false} SilentEmitsNothing(calls: seq<Call>)
    requires forall i :: 0 <= i < |calls| ==> calls[i].logger == TestLogger
    ensures Emitted(calls) == []
  {
    if calls != [] {
      SilentEmitsNothing(calls[..|calls| - 1]);
    }
  }

  /** The calls LogToAll makes: debug, info and error, once each, in that order, with one message. */
  function FanOut(logger: Logger, message: string): seq<Call> {
    [Call(logger, Debug, message), Call(logger, Info, message), Call(logger, Error, message)]
  }

  /** A verbose logger writes the three labelled lines; TestLogger writes nothing. */
  lemma FanOutOutput(logger: Logger, message: string)
    ensures logger.Verbose() ==> Emitted(FanOut(logger, message)) == [Line(Debug, message), Line(Info, message), Line(Error, message)]
    ensures !logger.Verbose() ==> Emitted(FanOut(logger, message)) == []
  {
    var calls := FanOut(logger, message);
    if logger.Verbose() {
      VerboseEmitted(calls);
    } else {
      SilentEmitsNothing(calls);
    }
  }

  /** Logs one message at every level on any logger. */
  method LogToAll(logger: Logger, out: Console, message: string)
    requires out.Valid()
    modifies out
    ensures out.Valid()
    ensures out.calls == old(out.calls) + FanOut(logger, message)
    ensures out.lines == old(out.lines) + Emitted(FanOut(logger, message))
  {
    logger.LogDebug(out, message);
    logger.LogInfo(out, message);
    logger.LogError(out, message);
    assert out.calls == old(out.calls) + FanOut(logger, message);
    EmittedAppend(old(out.calls), FanOut(logger, message));
  }
}
