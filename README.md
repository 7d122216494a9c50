# log4j2-thread-context in Dafny

This project models the core of a small Java library built on log4j. The
library sends the log records emitted inside one unit of work to a file of
their own. `ThreadContextFileLogHandler` creates a `CustomFileAppender` for one
file id and attaches it to the root logger. It runs the caller's supplier with
the thread-context entry `file-log-id = fileId` and then logs an end-of-log
record. On `stop` it checks that the appender has seen that record before it
detaches the appender. The appender writes a record only when the record's
thread context maps `file-log-id` to its id. A matching record whose
formatted message starts with `"END OF LOG"` is not written: it closes the
writer and sets `finished`. `ThreadContextLogHandler.runWith` overlays a
context map for the length of one call and restores it afterwards.

Files and modules:

- `wrappers.dfy` (`Wrappers`): `Option`. `Outcome<T>` is a Java call that
  returns (`Returned`) or throws (`Threw`, carrying the exception's message).
- `thread_context.dfy` (`ThreadContext`): the context map and the semantics
  of CloseableThreadContext. `putAll` is `PutAll`. The values it remembers are
  `Saved`. `close` is `Restore`.
- `appender.dfy` (`FileAppender`): a record, the value view `Sink` of an
  appender, `Deliver` (one `append`), `DeliverAll` (a sequence of them), the
  reference definition `Captured`, and the class `CustomFileAppender`. The
  class holds the file as `seq<string>`, the writer's open/closed flag and
  `finished`. The layout is a function `Record -> string` fixed when the
  appender is built.
- `runtime.dfy` (`LogRuntime`): the log4j state the library depends on. The
  class `Runtime` has the calling thread's context, the attached capturing
  appender (at most one) and the list of every record emitted. `Runtime.Info`
  is `log.info`. `Runtime.RunWith` is `ThreadContextLogHandler.runWith`. The
  body of a Supplier or Runnable is a `Work<T>` value that `Runtime.Execute`
  runs. Its steps are: log a message; open a nested `runWith` scope; run code
  on a new thread, either without context or with the parent's snapshot;
  return a value; throw. `Exec`/`ExecWith` are the same semantics as
  functions, and the methods are proved equal to them.
- `handler.dfy` (`FileLogHandler`): `FileName`, `RunCaptured` (the value
  semantics of `runWithThreadContext`), `Flush` (that of `flushAppender`),
  the class `ThreadContextFileLogHandler`, and three scenario methods.
  `MainScenario` is `Main.main`. `ThrowingSupplierScenario` and
  `ReusedHandlerScenario` are the other two.

Points where the code behaves differently from what a reader might expect:

- The end-of-log record is logged only when the supplier returns normally.
  There is no `finally` (ThreadContextFileLogHandler.java:57-63). When the
  supplier throws, the appender stays open and a later `stop` throws
  IllegalStateException (`ThrowingWorkLeavesAppenderOpen`,
  `ThrowingSupplierScenario`).
- The end-of-log test is a prefix test on the formatted message
  (`startsWith("END OF LOG")`), not an equality test. A captured record of the
  caller's own that starts with that text also closes the file.
- A flush that is still not finished after the wait throws
  IllegalStateException with the message "The appender <id> takes too much to
  finish".
- `append` throws a RuntimeException when it writes after the writer was
  closed (ThreadContextFileLogHandler.java:172), and the appender is built
  with `ignoreExceptions = false` (:145). That failure is modelled at
  `Deliver`/`Append` and returned by `Emit`/`Runtime.Info`. What happens to it
  next is log4j's code, not this library's. The model assumes the behaviour
  of log4j 2.17.2, the version Main.java:17 names: the logger reports an
  exception that is not a `LoggingException` to the status logger and does
  not rethrow it. So `log.info` never throws in the model. A record logged to
  a finished appender is lost, and the supplier goes on
  (`ReusedHandlerScenario`).
- The `log.info` calls inside `createAppender` and `flushAppender` go through
  the same pipeline and are modelled as emitted records.

## Model

| member | source | states |
|---|---|---|
| ThreadContext.Saved | src/main/java/org/example/ThreadContextLogHandler.java:27 | the scope remembers an entry for exactly the keys of the map it puts (RestoreUndoesPutAll shows those entries are enough to undo it) |
| ThreadContext.PutAll | src/main/java/org/example/ThreadContextLogHandler.java:33 | inside the scope every key/value of the given map is in force; other keys keep their values |
| ThreadContext.Restore | src/main/java/org/example/ThreadContextLogHandler.java:33-35 | close: every remembered key gets its old value back, a key that was absent is removed, and every key the scope did not touch keeps its current value |
| ThreadContext.RestoreUndoesPutAll | src/main/java/org/example/ThreadContextLogHandler.java:26-36 | closing the scope gives back exactly the context from before the call |
| LogRuntime.Runtime.RunWith | src/main/java/org/example/ThreadContextLogHandler.java:32-36 | runWith(Supplier): returns the body's own outcome, restores the context whether the body returns or throws, and has the effect of ExecWith |
| LogRuntime.Runtime.RunWithRunnable | src/main/java/org/example/ThreadContextLogHandler.java:26-30 | runWith(Runnable): the same, with no result |
| LogRuntime.Exec | src/main/java/org/example/ThreadContextFileLogHandler.java:59 | running the supplier's body only adds to the event list and never attaches or detaches an appender; how far that run reaches is given by ExecFrame, TaggedCaptured and UntaggedNotCaptured |
| LogRuntime.ExecWith | src/main/java/org/example/ThreadContextLogHandler.java:32-36 | runWith as a function: the body runs under PutAll and the context is restored on either outcome; the event list only grows and the attached appender stays attached |
| LogRuntime.ExecWithFrame | src/main/java/org/example/ThreadContextLogHandler.java:26-36 | after runWith the context equals the one before; the attached appender has received exactly the new records, in order |
| LogRuntime.ExecFrame | src/main/java/org/example/ThreadContextLogHandler.java:26-36 | any such work (a script of logs, runWith scopes, threads, return and throw), with nested scopes and threads, leaves the caller's context as it found it; its only other effect is emitting records, each delivered to the attached appender |
| LogRuntime.SpawnedThreadNotCaptured | src/main/java/org/example/ThreadContextLogHandler.java:12-18 | a thread started without the parent's context, which opens no scope with the id, leaves the appender of that id unchanged |
| LogRuntime.PropagatedThreadCaptured | src/main/java/org/example/ThreadContextLogHandler.java:14-18 | a thread handed the parent's snapshot under `file-log-id = id` emits only records that the appender of that id accepts |
| LogRuntime.UntaggedNotCaptured | src/main/java/org/example/ThreadContextFileLogHandler.java:26-29 | code run without `file-log-id = id` in its context, and opening no scope with it, emits no record that the id's appender accepts |
| LogRuntime.TaggedCaptured | src/main/java/org/example/ThreadContextFileLogHandler.java:26-29 | code run under `file-log-id = id` that keeps the tag in its scopes and threads emits only records that the id's appender accepts |
| LogRuntime.Emit | src/main/java/org/example/ThreadContextFileLogHandler.java:156-178 | log.info snapshots the context, appends one record to the event list, and delivers it to the attached appender; its failure is exactly the failure of that append, which happens exactly when the record is accepted, is not the marker, and the writer is closed |
| LogRuntime.Runtime.Info | src/main/java/org/example/ThreadContextFileLogHandler.java:60 | the imperative log.info has exactly the effect and failure of Emit |
| LogRuntime.Runtime.Execute | src/main/java/org/example/ThreadContextFileLogHandler.java:59 | running the supplier's body has exactly the effect and outcome of Exec |
| LogRuntime.PublishAll | src/main/java/org/example/ThreadContextFileLogHandler.java:107 | records that other threads deliver during the wait reach the appender in order, and the context is unchanged |
| LogRuntime.Runtime.Publish | src/main/java/org/example/ThreadContextFileLogHandler.java:107 | the delivery loop leaves the runtime in the state PublishAll gives |
| FileAppender.Deliver | src/main/java/org/example/ThreadContextFileLogHandler.java:156-178 | one append: a denied record changes nothing; the end-of-log record is never written, closes the writer and sets finished, which never goes back to false; any other accepted record adds exactly its rendering, or throws when the writer is closed |
| FileAppender.CustomFileAppender.Append | src/main/java/org/example/ThreadContextFileLogHandler.java:156-178 | the imperative append: the same four cases, stated on the fields |
| FileAppender.CustomFileAppender.IsFinished | src/main/java/org/example/ThreadContextFileLogHandler.java:140-142 | isFinished reads the finished flag, which in a valid appender is set exactly when the writer has been closed |
| FileAppender.CustomFileAppender.constructor | src/main/java/org/example/ThreadContextFileLogHandler.java:144-153 | a new appender has an empty (truncated) file, an open writer and finished == false |
| FileAppender.DeliverAllWhileOpen | src/main/java/org/example/ThreadContextFileLogHandler.java:127-132 | an open appender writes exactly Captured(records), the accepted renderings up to the first accepted end-of-log record, and is finished exactly when such a record came |
| FileAppender.DeliverAllAfterFinish | src/main/java/org/example/ThreadContextFileLogHandler.java:160-172 | once finished, no delivery changes the appender again |
| FileAppender.DeliverAllMonotone | src/main/java/org/example/ThreadContextFileLogHandler.java:156-178 | deliveries only append to the file, keep the appender's id and file name, never unset finished, and keep the writer closed exactly when finished |
| FileAppender.DeliverAllDenied | src/main/java/org/example/ThreadContextFileLogHandler.java:174-177 | records the filter denies leave the appender unchanged |
| FileAppender.CapturedComesFromAccepted | src/main/java/org/example/ThreadContextFileLogHandler.java:121-124 | every line in an appender's file renders a record tagged with that appender's id that is not an end-of-log record, so records of another id never reach it |
| FileAppender.CapturedAllAccepted | src/main/java/org/example/ThreadContextFileLogHandler.java:169-170 | N accepted non-marker records give exactly N rendered lines, in order |
| FileLogHandler.FileName | src/main/java/org/example/ThreadContextFileLogHandler.java:46 | the file name is workingDir, then "/", then fileId, then ".log" |
| FileLogHandler.DistinctIdsDistinctFiles | src/main/java/org/example/ThreadContextFileLogHandler.java:31 | within one working directory, distinct ids never share a file |
| FileLogHandler.EndOfLogMessageIsMarker | src/main/java/org/example/ThreadContextFileLogHandler.java:60 | the message "END OF LOG for logger <id>" passes the appender's end-of-log test |
| FileLogHandler.EndOfLogNeverFails | src/main/java/org/example/ThreadContextFileLogHandler.java:160-167 | logging the end-of-log record never makes the appender throw, even when its writer is already closed |
| FileLogHandler.RunCaptured | src/main/java/org/example/ThreadContextFileLogHandler.java:57-63 | runWithThreadContext as a function: its outcome is the supplier's own; the event list only grows and the appender stays attached (RunCapturedEffect gives the rest) |
| FileLogHandler.RunCapturedEffect | src/main/java/org/example/ThreadContextFileLogHandler.java:57-63 | runWithThreadContext returns the supplier's outcome unchanged and restores the context; it adds exactly one end-of-log record, tagged with the id, after all of the supplier's records, and only when the supplier returned |
| FileLogHandler.RunCapturedFinishes | src/main/java/org/example/ThreadContextFileLogHandler.java:57-63 | when the supplier returns, the attached appender of that id is finished and its writer closed |
| FileLogHandler.RunCapturedWritesExactlyTheWork | src/main/java/org/example/ThreadContextFileLogHandler.java:23-29 | for an open appender and a supplier that keeps the tag and never logs the marker, the file gains exactly one rendered line per record the supplier emitted, in order, and the appender finishes |
| FileLogHandler.ThrowingWorkLeavesAppenderOpen | src/main/java/org/example/ThreadContextFileLogHandler.java:58-61 | when the supplier throws, no end-of-log record is logged, so the appender stays open and unfinished |
| FileLogHandler.Flush | src/main/java/org/example/ThreadContextFileLogHandler.java:100-117 | flushAppender as a function: it either returns or throws IllegalStateException with the "takes too much to finish" message, nothing else; the context is unchanged, the event list only grows, and the appender stays attached |
| FileLogHandler.FlushSucceedsIffFinished | src/main/java/org/example/ThreadContextFileLogHandler.java:100-117 | from any caller, the flush succeeds exactly when the appender had finished, or an end-of-log record for it arrives during the wait; otherwise it throws IllegalStateException with the source's message |
| FileLogHandler.ThreadContextFileLogHandler.constructor | src/main/java/org/example/ThreadContextFileLogHandler.java:44-50 | names the file workingDir/fileId.log, logs the creation message, builds a fresh appender with an empty file, and attaches it |
| FileLogHandler.ThreadContextFileLogHandler.GetFileName | src/main/java/org/example/ThreadContextFileLogHandler.java:52-54 | getFileName returns workingDir/fileId.log for the directory and id the handler was built with |
| FileLogHandler.ThreadContextFileLogHandler.RunWithThreadContext | src/main/java/org/example/ThreadContextFileLogHandler.java:57-63 | the imperative method has exactly the effect and outcome of RunCaptured |
| FileLogHandler.ThreadContextFileLogHandler.RunWithThreadContextRunnable | src/main/java/org/example/ThreadContextFileLogHandler.java:66-71 | the Runnable overload: the same, with a dummy result |
| FileLogHandler.ThreadContextFileLogHandler.FlushAppender | src/main/java/org/example/ThreadContextFileLogHandler.java:100-117 | the imperative flush has exactly the effect and outcome of Flush, and leaves an appender that is not attached untouched |
| FileLogHandler.ThreadContextFileLogHandler.Stop | src/main/java/org/example/ThreadContextFileLogHandler.java:73-77 | stop returns the flush's outcome and leaves the context and event list as the flush does; the attached appender ends in the state the flush gives, and this handler's appender is untouched when it was not the attached one; the appender is detached by name only when the flush succeeded |
| FileLogHandler.TwoInfosRun | src/main/java/org/example/Main.java:33-36 | the two log calls of Main's runnable are emitted, in order, under the caller's context, and the runnable returns |
| FileLogHandler.MainScenario | src/main/java/org/example/Main.java:25-38 | Main's run: the file holds exactly the two records logged inside runWithThreadContext, in order; those before and after it are not in it; a stop added after it succeeds |
| FileLogHandler.ThrowingSupplierScenario | src/main/java/org/example/ThreadContextFileLogHandler.java:57-63 | a supplier that throws: its exception reaches the caller, the writer stays open, and stop throws IllegalStateException |
| FileLogHandler.ReusedHandlerScenario | src/main/java/org/example/ThreadContextFileLogHandler.java:160-172 | a handler run again after it finished: the supplier returns and the file stays empty, because the closed writer rejects the record |

## Left out

- log4j's registry (`LoggerContext`, `Configuration`, `addAppender`, `removeAppender`, `updateLoggers`) is one field, `Runtime.sink`. It holds at most one capturing appender, so the handler constructor requires that none is attached. Isolation between two ids is proved about values instead (`CapturedComesFromAccepted`), not about two appenders attached at once.
- Appender lifecycle (`start`/`stop` of AbstractAppender) is log4j state and is not modelled. The handler's `stop` only detaches the appender.
- `PatternLayout` and `createLayout`: the layout is a parameter `Record -> string`. The filter (`ThreadContextMapFilter`) is the predicate `Accepts`: the context maps `file-log-id` to the id.
- Concurrency: no interleaving is modelled. `synchronized`, `wait(20 * 1000)`, `notifyAll`, the timeout and `InterruptedException` are left out. The records other threads deliver during the wait are a parameter of the flush (`during`). A spawned thread runs to completion before its parent goes on.
- `FileWriter` and the file system are an in-memory `seq<string>` with an open/closed flag. An IOException from opening, writing or closing a real file is not modelled. The only write failure modelled is writing after close. `file` is what was handed to the writer, not what is on disk. FileWriter buffers, so lines may not reach the disk until the buffer fills or the writer is flushed or closed. When the supplier throws (`ThrowingWorkLeavesAppenderOpen`), the writer is never closed, and the file on disk may stay empty.
- `System.out.println("Ignored log: ...")` (ThreadContextFileLogHandler.java:176) is debug output and is not modelled.
- A log record carries only the context snapshot and the formatted message. Level, logger name, thread name and timestamp are left out. The date-based `logId` of `Main` is a parameter.
- `Work`, `Exec`, `ExecFrame`: the supplier's code is modelled as a script of log calls, runWith scopes, threads started with or without the parent's context, return and throw. Direct ThreadContext changes (`put`, `remove`, `clearMap`), branching on state, and calls back into a handler are not modelled. `close` restores only the keys its own scope put, so the context-restoration lemmas (`ExecFrame`, `ExecWithFrame`, `RunCapturedEffect`) hold only for such bodies. A body that overwrites `file-log-id` directly would have the end-of-log record logged under the wrong tag.
- `Exec`, `Runtime.Execute`, `Flush`: an exception from `append` is taken to be reported to the status logger and not rethrown from `log.info`. That is log4j 2.17.2's logger code, which is not part of this model, so this is an assumption about it. The status-logger output itself is not modelled.
