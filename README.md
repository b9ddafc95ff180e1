# Logging interface demo, modelled in Dafny

The program defines a logging interface (`LoggerLike`: a type must offer
`LogDebug`, `LogInfo` and `LogError`, each taking a message) and three
types that meet it:

- `CustomLogger` and `CustomLoggerImpl`, which print `[Debug] `, `[Info] ` or `[Error] `, then the message, then a line break;
- `TestLogger`, which prints nothing.

It also defines a generic routine `LogToAll` that logs one message at all
three levels, in order. `TaggedLogger<T>` is a decorator: it holds a mutable
tag and sends `"[" + tag + "] " + message` to the wrapped logger's
`LogDebug`. `main` runs a fixed demonstration and returns 0.

The model:

- `LogFormat` (log_format.dfy) holds the text as pure functions. `Line` is the per-level line and `TagMessage` the tagged message. Each has a decoder (`Parse`, `Untag`), proved to invert it exactly.
- `Loggers` (loggers.dfy) models the interface as the datatype `Logger`. Its three constructors are the program's three logger types, and `LogDebug`, `LogInfo` and `LogError` are its methods. Standard output is the class `Console`. Its field `lines` holds what was written, one entry per logger write; the text on standard output is the concatenation of the entries. Its ghost field `calls` records every logger operation invoked, so the order and number of calls can be seen even on the silent logger. `Console.Valid()` says the output is exactly `Emitted(calls)`, the output the recorded calls determine. `LogToAll` is a method over any `Logger`.
- `Tagging` (tagging.dfy) models `TaggedLogger` as a class with a `const base: Logger` and a mutable `tag`.
- `Demo` (demo.dfy) models `main` as `Demo.Run`.

The tagged path goes through `CustomLoggerImpl::LogDebug`, which adds its
own label, so the demonstration's last line is `[Debug] [MyTag] Hello World`.

## Model

| member | source | states |
|---|---|---|
| `LogFormat.LineLayout` | main.cpp:15-23 | the entry `Line` gives for one verbose write (main.cpp:16, 19, 22 and 41, 44, 47) is the level label, then the message, then one `'\n'`, and nothing else |
| `LogFormat.PrefixFree` | main.cpp:16-22 | the labels `Prefix` gives, `[Debug] `, `[Info] ` and `[Error] `, are prefix-free: one level's label starts a text built on another's label only when the levels are equal |
| `LogFormat.ParseLine` | main.cpp:15-23 | decoding a written entry gives back exactly the level and message it was written for |
| `LogFormat.LineOfParse` | main.cpp:15-23 | any text that decodes is exactly the entry written for the decoded level and message |
| `LogFormat.LineInjective` | main.cpp:40-48 | two calls write the same entry if and only if they have the same level and the same message |
| `LogFormat.TagMessage` | main.cpp:57 | the tagged message is `[`, the tag, `] `, then the message, at those exact positions |
| `LogFormat.UntagTagMessage` | main.cpp:57 | given the tag, the message is recovered from the tagged text, and only text built from that tag and message decodes to it |
| `LogFormat.TaggedDebugLine` | main.cpp:56-58 | over `CustomLoggerImpl` a tagged debug message is written as `[Debug] [` tag `] ` message `\n`; it decodes as a Debug line whose message is the tagged text |
| `Loggers.Logger.LogDebug` | main.cpp:15-17 | records one Debug call with the message; a verbose logger (`CustomLogger` here, `CustomLoggerImpl` at main.cpp:40-42) appends exactly the `[Debug] ` entry, TestLogger (main.cpp:27) appends nothing; earlier output is untouched |
| `Loggers.Logger.LogInfo` | main.cpp:18-20 | the same for Info and `[Info] ` (main.cpp:28, main.cpp:43-45 for the other two types) |
| `Loggers.Logger.LogError` | main.cpp:21-23 | the same for Error and `[Error] ` (main.cpp:29, main.cpp:46-48 for the other two types) |
| `Loggers.Logger.Log` | main.cpp:14-30 | the body the three operations share: one recorded call, and one entry if and only if the logger is verbose |
| `Loggers.Console.Write` | main.cpp:16 | a write appends one entry (its text in full) to standard output and changes nothing else |
| `Loggers.EmittedAppend` | main.cpp:34-36 | the output of consecutive logger calls is the output of the first calls followed by that of the later ones |
| `Loggers.VerboseEmitted` | main.cpp:39-49 | any run of calls on verbose loggers writes one entry per call, the i-th entry being the i-th call's label and message |
| `Loggers.SilentEmitsNothing` | main.cpp:26-30 | any run of TestLogger calls, at any levels with any messages, writes nothing |
| `Loggers.FanOutOutput` | main.cpp:33-37 | the fan-out on a verbose logger writes exactly the `[Debug]`, `[Info]` and `[Error]` lines of the message, in that order; on TestLogger, nothing |
| `Loggers.LogToAll` | main.cpp:32-37 | records exactly three calls on the given logger, debug then info then error, all with the same message, and appends exactly their output |
| `Tagging.TaggedLogger.constructor` | main.cpp:53 | a default-constructed decorator has the empty tag |
| `Tagging.TaggedLogger.WithTag` | main.cpp:54 | a decorator constructed with a tag holds exactly that tag |
| `Tagging.TaggedLogger.SetTag` | main.cpp:62 | the tag becomes the argument unconditionally; the wrapped logger and the console are untouched |
| `Tagging.TaggedLogger.LogDebugTagged` | main.cpp:56-58 | exactly one call, a Debug call on the wrapped logger with the current tag's tagged message; no Info or Error call; the tag is unchanged |
| `Tagging.LogDebugTaggedOnImpl` | main.cpp:68 | over `CustomLoggerImpl` (`TaggedCustomLogger`) the tagged call appends the one entry `[Debug] [` tag `] ` message `\n` |
| `Tagging.LastTagWins` | main.cpp:62 | after `SetTag(a)`, `SetTag(b)`, `SetTag(b)`, the tag is `b`, so the next tagged call uses `b`; setting a value twice leaves the same state as setting it once |
| `Demo.Run` | main.cpp:70-80 | `main` writes exactly `[Debug] Hello World`, `[Info] Hello World`, `[Error] Hello World`, `[Debug] [MyTag] Hello World` in that order, makes the seven logger calls in order, and returns 0 |

## Left out

- The `LoggerLike` concept (main.cpp:4-9) is a compile-time constraint. Dafny has no structural constraints here, so the interface is the closed datatype `Logger` over the file's three logger types. Rejecting a type that lacks an operation is left to Dafny's type checking and is not a provable property.
- `Logger<T>` (main.cpp:11-12) is empty and unused, so it is not modelled.
- `std::cout` is abstracted as the `Console` object passed to every operation. The three stream insertions of one statement are modelled as one appended entry.
- A message holding line breaks spans several physical lines of standard output, but stays inside one entry of `lines`; `Parse` decodes entries, not physical lines.
- C++ byte strings (`std::string`, `std::string_view`) are Dafny `string`, a sequence of characters. The program only concatenates them, so no encoding is involved. Stream formatting, buffering and write failures are not modelled.
- The private field `m_tag` is the public field `tag`. Dafny has no private fields, so nothing stops other code from writing it.
- A `TaggedLogger` inherits its base's operations, so C++ also lets it be passed to `LogToAll`. The model reaches those operations through the `base` field instead, which makes the same calls. A `TaggedLogger` is not itself a `Logger`.
- `std::string_view` versus `std::string` lifetimes are not modelled. The `static_cast` to the base (main.cpp:58) is a direct call on `base`. The note about name lookup and the commented-out call (main.cpp:59-60) concern compilation only.
- The exit status is the returned `status`. Process exit itself is not modelled.
