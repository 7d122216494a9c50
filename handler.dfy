/**
  ThreadContextFileLogHandler: creates a capturing appender for one file id,
  registers it, runs work under `file-log-id = fileId`, logs the end-of-log
  record when the work returns, and on `stop` checks that the appender has
  finished before deregistering it.
 */
module FileLogHandler {
  import opened Wrappers
  import opened ThreadContext
  import opened FileAppender
  import opened LogRuntime

  /** The name of the output file. */
  function FileName(workingDir: string, fileId: string): (name: string)
    ensures |name| == |workingDir| + |fileId| + 5
    ensures name[..|workingDir|] == workingDir && name[|workingDir|] == '/'
    ensures name[|workingDir| + 1..|name| - 4] == fileId && name[|name| - 4..] == ".log"
  {
    workingDir + "/" + fileId + ".log"
  }

  /** Within one working directory, distinct ids never share a file. */
  lemma DistinctIdsDistinctFiles(workingDir: string, a: string, b: string)
    requires a != b
    ensures FileName(workingDir, a) != FileName(workingDir, b)
  {
  }

  /** The message of the end-of-log record: "{} for logger {}" formatted
      with END_OF_LOG and the id. */
  function EndOfLogMessage(fileId: string): (m: string) {
    END_OF_LOG + " for logger " + fileId
  }

  function CreatingMessage(filename: string): (m: string) {
    "Creating custom appender that will write logs to " + filename
  }

  function CheckMessage(fileId: string): (m: string) {
    "Check if appender " + fileId + " finished"
  }

  function WaitMessage(fileId: string): (m: string) {
    "Appender " + fileId + " not finished yet, so wait"
  }

  function FinishedMessage(fileId: string): (m: string) {
    "Appender " + fileId + " finished"
  }

  function TooSlowMessage(fileId: string): (m: string) {
    "The appender " + fileId + " takes too much to finish"
  }

  lemma EndOfLogMessageIsMarker(ctx: Context, fileId: string)
    ensures IsEndOfLog(Record(ctx, EndOfLogMessage(fileId)))
  {
    assert EndOfLogMessage(fileId)[..|END_OF_LOG|] == END_OF_LOG;
  }

  /** The end-of-log record never makes an appender throw. */
  lemma EndOfLogNeverFails(layout: Record -> string, w: World, fileId: string)
    ensures Emit(layout, w, EndOfLogMessage(fileId)).failure == None
  {
    EndOfLogMessageIsMarker(w.context, fileId);
  }

  /** The world inside `runWithThreadContext`'s scope. */
  function Scoped(w: World, fileId: string): (s: World)
    ensures Tagged(s.context, fileId)
    ensures s.sink == w.sink && s.emitted == w.emitted
  {
    w.(context := PutAll(w.context, map[FILE_LOG_ID := fileId]))
  }

  /** runWithThreadContext(supplier): the supplier runs with
      `file-log-id = fileId`; the end-of-log record is logged only when it
      returns (not in a finally block); the context is restored either way. */
  function RunCaptured<T>(layout: Record -> string, fileId: string, w: World, work: Work<T>): (r: Run<T>)
    ensures r.outcome == Exec(layout, Scoped(w, fileId), work).outcome
    ensures w.emitted <= r.world.emitted
    ensures r.world.sink.Some? == w.sink.Some?
  {
    var saved := Saved(w.context, map[FILE_LOG_ID := fileId]);
    var inner := Exec(layout, Scoped(w, fileId), work);
    var after := if inner.outcome.Returned? then Emit(layout, inner.world, EndOfLogMessage(fileId)).world else inner.world;
    Run(after.(context := Restore(after.context, saved)), inner.outcome)
  }

  /** What runWithThreadContext does, in terms of the supplier's own run: it
      returns the supplier's outcome unchanged, restores the context, and
      adds exactly one end-of-log record, tagged with the id, after all of
      the supplier's records when (and only when) the supplier returned. */
  lemma RunCapturedEffect<T>(layout: Record -> string, fileId: string, w: World, work: Work<T>)
    ensures var inner := Exec(layout, Scoped(w, fileId), work);
            var r := RunCaptured(layout, fileId, w, work);
            && r.outcome == inner.outcome
            && r.world.context == w.context
            && w.emitted <= inner.world.emitted
            && Follows(layout, w, r.world)
            && r.world.emitted == inner.world.emitted +
                 (if inner.outcome.Returned? then [Record(Scoped(w, fileId).context, EndOfLogMessage(fileId))] else [])
  {
    var saved := Saved(w.context, map[FILE_LOG_ID := fileId]);
    var inner := Exec(layout, Scoped(w, fileId), work);
    ExecFrame(layout, Scoped(w, fileId), work);
    RestoreUndoesPutAll(w.context, map[FILE_LOG_ID := fileId]);
    if inner.outcome.Returned? {
      var e := Emit(layout, inner.world, EndOfLogMessage(fileId));
      FollowsTrans(layout, w, inner.world, e.world);
    }
  }

  /** When the supplier returns, the appender of that id is finished and its
      writer closed. */
  lemma RunCapturedFinishes<T>(layout: Record -> string, fileId: string, w: World, work: Work<T>)
    requires w.sink.Some? && w.sink.value.fileId == fileId
    requires Exec(layout, Scoped(w, fileId), work).outcome.Returned?
    ensures RunCaptured(layout, fileId, w, work).world.sink.Some?
    ensures RunCaptured(layout, fileId, w, work).world.sink.value.finished
    ensures !RunCaptured(layout, fileId, w, work).world.sink.value.writerOpen
  {
    var inner := Exec(layout, Scoped(w, fileId), work);
    ExecFrame(layout, Scoped(w, fileId), work);
    DeliverAllMonotone(layout, w.sink.value, Since(Scoped(w, fileId), inner.world));
    EndOfLogMessageIsMarker(inner.world.context, fileId);
  }

  /** The scenario the library exists for: an open appender, and a supplier
      that keeps the tag in every scope, hands it to every thread it starts,
      and never logs the marker itself. When the supplier returns, the file
      holds exactly one rendered line per record the supplier emitted, in
      order, after what it held before, and the appender is finished. */
  lemma RunCapturedWritesExactlyTheWork<T>(layout: Record -> string, fileId: string, w: World, work: Work<T>)
    requires w.sink.Some? && w.sink.value.fileId == fileId
    requires w.sink.value.Valid() && !w.sink.value.finished
    requires KeepsTag(work, fileId) && NoMarker(work)
    requires Exec(layout, Scoped(w, fileId), work).outcome.Returned?
    ensures w.emitted <= Exec(layout, Scoped(w, fileId), work).world.emitted
    ensures var s := w.sink.value;
            var records := Since(w, Exec(layout, Scoped(w, fileId), work).world);
            RunCaptured(layout, fileId, w, work).world.sink ==
              Some(s.(file := s.file + Renders(layout, records), writerOpen := false, finished := true))
  {
    var s := w.sink.value;
    var start := Scoped(w, fileId);
    var inner := Exec(layout, start, work);
    ExecFrame(layout, start, work);
    TaggedCaptured(layout, start, work, fileId);
    NoMarkerEmitted(layout, start, work);
    var records := Since(start, inner.world);
    CapturedAllAccepted(layout, fileId, records);
    DeliverAllWhileOpen(layout, s, records);
    DeliverAllMonotone(layout, s, records);
    var before := DeliverAll(layout, s, records);
    assert inner.world.sink == Some(before);
    assert before == s.(file := s.file + Renders(layout, records));
    EndOfLogMessageIsMarker(inner.world.context, fileId);
    assert Deliver(layout, before, Record(inner.world.context, EndOfLogMessage(fileId))).sink
        == before.(writerOpen := false, finished := true);
  }

  /** There is no finally block: when the supplier throws, no end-of-log
      record is logged, so an appender that was open and receives no marker
      from the supplier stays unfinished. */
  lemma ThrowingWorkLeavesAppenderOpen<T>(layout: Record -> string, fileId: string, w: World, work: Work<T>)
    requires w.sink.Some? && w.sink.value.fileId == fileId
    requires w.sink.value.Valid() && !w.sink.value.finished
    requires NoMarker(work)
    requires Exec(layout, Scoped(w, fileId), work).outcome.Threw?
    ensures RunCaptured(layout, fileId, w, work).world.sink.Some?
    ensures !RunCaptured(layout, fileId, w, work).world.sink.value.finished
    ensures RunCaptured(layout, fileId, w, work).world.sink.value.writerOpen
  {
    var s := w.sink.value;
    var start := Scoped(w, fileId);
    var inner := Exec(layout, start, work);
    ExecFrame(layout, start, work);
    NoMarkerEmitted(layout, start, work);
    var records := Since(start, inner.world);
    DeliverAllWhileOpen(layout, s, records);
    DeliverAllMonotone(layout, s, records);
  }

  /** The value of isFinished() as flushAppender reads it: from the
      registered appender when it is this handler's, otherwise from the
      handler's own (unregistered) appender. */
  function FinishedNow(w: World, registered: bool, finished: bool): (b: bool) {
    if registered then w.sink.Some? && w.sink.value.finished else finished
  }

  /** flushAppender(): log, check `finished`; if not finished, log, wait
      (while other threads deliver `during`), and check again, throwing
      IllegalStateException if it is still not finished. */
  function Flush(layout: Record -> string, w: World, fileId: string, registered: bool, finished: bool, during: seq<Record>): (r: Run<()>)
    ensures r.outcome == Returned(()) || r.outcome == Threw(TooSlowMessage(fileId))
    ensures r.world.context == w.context
    ensures w.emitted <= r.world.emitted
    ensures r.world.sink.Some? == w.sink.Some?
  {
    var check := Emit(layout, w, CheckMessage(fileId)).world;
    if FinishedNow(check, registered, finished) then Run(check, Returned(()))
    else
      var wait := Emit(layout, check, WaitMessage(fileId)).world;
      var woken := PublishAll(layout, wait, during);
      if FinishedNow(woken, registered, finished) then
        Run(Emit(layout, woken, FinishedMessage(fileId)).world, Returned(()))
      else Run(woken, Threw(TooSlowMessage(fileId)))
  }

  lemma NotMarker(ctx: Context, m: string)
    requires |m| > 0 && m[0] != 'E'
    ensures !IsEndOfLog(Record(ctx, m))
  {
  }

  /** From any caller, flushAppender succeeds exactly when this handler's
      appender had finished, or is the registered one and an end-of-log record
      for its id arrives during the wait; otherwise it throws
      IllegalStateException. */
  lemma FlushSucceedsIffFinished(layout: Record -> string, w: World, fileId: string, registered: bool, finished: bool, during: seq<Record>)
    requires registered ==> w.sink.Some? && w.sink.value.fileId == fileId && w.sink.value.Valid() && w.sink.value.finished == finished
    ensures Flush(layout, w, fileId, registered, finished, during).outcome ==
            if finished || (registered && HasEndOfLog(fileId, during)) then Returned(()) else Threw(TooSlowMessage(fileId))
  {
    // neither message logged before the wait is an end-of-log record, so
    // neither changes `finished`, whatever the caller's context
    NotMarker(w.context, CheckMessage(fileId));
    var check := Emit(layout, w, CheckMessage(fileId)).world;
    if !finished {
      NotMarker(check.context, WaitMessage(fileId));
      var wait := Emit(layout, check, WaitMessage(fileId)).world;
      if registered {
        assert !wait.sink.value.finished && wait.sink.value.Valid();
        DeliverAllWhileOpen(layout, wait.sink.value, during);
      }
    }
  }

  class ThreadContextFileLogHandler {
    const workingDir: string
    const fileId: string
    const filename: string := FileName(workingDir, fileId)
    const appender: CustomFileAppender
    const runtime: Runtime

    ghost predicate Valid()
      reads this, appender, runtime, runtime.sink
    {
      appender.fileId == fileId && appender.filename == filename && appender.Valid() && runtime.Valid()
    }

    /** Names the file, creates the appender (which truncates the file) and
        attaches it to the root logger. */
    constructor (workingDir: string, fileId: string, layout: Record -> string, runtime: Runtime)
      requires runtime.Valid() && runtime.sink == null
      modifies runtime
      ensures Valid()
      ensures this.fileId == fileId && filename == FileName(workingDir, fileId) && this.runtime == runtime
      ensures fresh(appender) && appender.View() == Fresh(fileId, filename)
      ensures appender.layout == layout
      ensures runtime.sink == appender && runtime.context == old(runtime.context)
      ensures runtime.emitted == old(runtime.emitted) + [Record(old(runtime.context), CreatingMessage(filename))]
    {
      this.workingDir := workingDir;
      this.fileId := fileId;
      var name := FileName(workingDir, fileId);
      var ignored := runtime.Info(CreatingMessage(name));
      this.appender := new CustomFileAppender(fileId, name, layout);
      this.runtime := runtime;
      new;
      runtime.sink := appender;
    }

    /** getFileName(): `<workingDir>/<fileId>.log`. */
    function GetFileName(): (name: string)
      ensures name == FileName(workingDir, fileId)
      ensures name[|workingDir| + 1..|name| - 4] == fileId
    {
      filename
    }

    /** runWithThreadContext(supplier) */
    method RunWithThreadContext<T(==)>(work: Work<T>) returns (o: Outcome<T>)
      requires Valid()
      modifies runtime, runtime.sink
      ensures Valid() && runtime.sink == old(runtime.sink)
      ensures Run(runtime.View(), o) == RunCaptured(runtime.Layout(), fileId, old(runtime.View()), work)
    {
      var values := map[FILE_LOG_ID := fileId];
      var saved := Saved(runtime.context, values);
      runtime.context := PutAll(runtime.context, values);
      o := runtime.Execute(work);
      if o.Returned? {
        var ignored := runtime.Info(EndOfLogMessage(fileId));
      }
      runtime.context := Restore(runtime.context, saved);
    }

    /** runWithThreadContext(runnable): the supplier overload with a dummy
        result. */
    method RunWithThreadContextRunnable(work: Work<()>) returns (o: Outcome<()>)
      requires Valid()
      modifies runtime, runtime.sink
      ensures Valid() && runtime.sink == old(runtime.sink)
      ensures Run(runtime.View(), o) == RunCaptured(runtime.Layout(), fileId, old(runtime.View()), work)
    {
      o := RunWithThreadContext(work);
    }

    /** flushAppender(); `during` are the records other threads deliver while
        this one waits. */
    method FlushAppender(during: seq<Record>) returns (status: Outcome<()>)
      requires Valid()
      modifies runtime, runtime.sink
      ensures Valid() && runtime.sink == old(runtime.sink)
      ensures runtime.sink != appender ==> appender.View() == old(appender.View())
      ensures Run(runtime.View(), status) ==
              Flush(runtime.Layout(), old(runtime.View()), fileId, old(runtime.sink) == appender, old(appender.finished), during)
    {
      ghost var registered := runtime.sink == appender;
      ghost var finished := appender.finished;
      var reported := runtime.Info(CheckMessage(fileId));
      assert appender.finished == FinishedNow(runtime.View(), registered, finished);
      if !appender.IsFinished() {
        reported := runtime.Info(WaitMessage(fileId));
        // wait(20 * 1000): the appender's monitor is released while others log
        runtime.Publish(during);
        assert appender.finished == FinishedNow(runtime.View(), registered, finished);
        if !appender.IsFinished() {
          return Threw(TooSlowMessage(fileId));
        }
        reported := runtime.Info(FinishedMessage(fileId));
      }
      status := Returned(());
    }

    /** stop(): flush, then detach the appender from the root logger (by
        name). A failed flush leaves it attached. */
    method Stop(during: seq<Record>) returns (status: Outcome<()>)
      requires Valid()
      modifies runtime, runtime.sink
      ensures Valid()
      ensures var f := Flush(old(runtime.Layout()), old(runtime.View()), fileId, old(runtime.sink) == appender, old(appender.finished), during);
              && status == f.outcome
              && runtime.context == f.world.context && runtime.emitted == f.world.emitted
              && (old(runtime.sink) != null ==> f.world.sink.Some? && old(runtime.sink).View() == f.world.sink.value)
              && (old(runtime.sink) != appender ==> appender.View() == old(appender.View()))
              && (status.Threw? ==> runtime.sink == old(runtime.sink))
              && (status.Returned? ==>
                    runtime.sink == (if old(runtime.sink) != null && old(runtime.sink).fileId == fileId then null else old(runtime.sink)))
    {
      status := FlushAppender(during);
      if status.Threw? {
        return;
      }
      if runtime.sink != null && runtime.sink.fileId == fileId {
        runtime.sink := null;
      }
    }
  }

  /** Two log calls in a row are emitted under the caller's context, in
      order, and the work returns. */
  lemma TwoInfosRun(layout: Record -> string, w: World, m1: string, m2: string)
    ensures Exec(layout, w, Info(m1, Info(m2, Return(())))).outcome == Returned(())
    ensures Exec(layout, w, Info(m1, Info(m2, Return(())))).world.emitted
            == w.emitted + [Record(w.context, m1), Record(w.context, m2)]
  {
    var e1 := Emit(layout, w, m1);
    var e2 := Emit(layout, e1.world, m2);
    assert Exec(layout, w, Info(m1, Info(m2, Return(())))) == Exec(layout, e1.world, Info(m2, Return(())));
    assert Exec(layout, e1.world, Info(m2, Return(()))) == Run(e2.world, Returned(()));
  }

  /** Main.main over the model: the two records logged inside
      runWithThreadContext land in the file in order; the records logged
      before and after it do not. `logId` stands for the formatted date.
      Main never calls stop(); here it follows, and succeeds. */
  method MainScenario(layout: Record -> string, logId: string) returns (file: seq<string>, stopped: Outcome<()>)
    ensures file == [layout(Record(map[FILE_LOG_ID := logId], "OK - This log should be INCLUDED")),
                     layout(Record(map[FILE_LOG_ID := logId], "OK - This log also should be INCLUDED"))]
    ensures stopped == Returned(())
  {
    var runtime := new Runtime();
    var failure := runtime.Info("Hello world!");
    failure := runtime.Info("We will generate a log file named " + logId + ".log");
    var handler := new ThreadContextFileLogHandler(".", logId, layout, runtime);
    assert runtime.context == map[];
    failure := runtime.Info("This log should NOT be included");
    assert handler.appender.View() == Fresh(logId, handler.filename);
    var first := "OK - This log should be INCLUDED";
    var second := "OK - This log also should be INCLUDED";
    var work := Info(first, Info(second, Return(())));
    ghost var before := runtime.View();
    var tag := map[FILE_LOG_ID := logId];
    assert Scoped(before, logId).context == tag;
    NotMarker(tag, first);
    NotMarker(tag, second);
    TwoInfosRun(layout, Scoped(before, logId), first, second);
    assert Since(before, Exec(layout, Scoped(before, logId), work).world) == [Record(tag, first), Record(tag, second)];
    RunCapturedWritesExactlyTheWork(layout, logId, before, work);
    RunCapturedEffect(layout, logId, before, work);
    var o := handler.RunWithThreadContextRunnable(work);
    assert handler.appender.file == [layout(Record(tag, first)), layout(Record(tag, second))];
    assert runtime.context == map[];
    failure := runtime.Info("Also, this log should NOT be included either");
    assert handler.appender.file == [layout(Record(tag, first)), layout(Record(tag, second))];
    assert handler.appender.finished && o == Returned(());
    FlushSucceedsIffFinished(runtime.Layout(), runtime.View(), logId, true, true, []);
    stopped := handler.Stop([]);
    file := handler.appender.file;
  }

  /** A supplier that throws: its exception reaches the caller, no
      end-of-log record is logged, so stop() throws IllegalStateException
      and the appender stays attached with its writer open. */
  method ThrowingSupplierScenario(layout: Record -> string, logId: string) returns (o: Outcome<int>, stopped: Outcome<()>, writerOpen: bool)
    ensures o == Threw("boom")
    ensures stopped == Threw(TooSlowMessage(logId))
    ensures writerOpen
  {
    var runtime := new Runtime();
    var handler := new ThreadContextFileLogHandler(".", logId, layout, runtime);
    var work: Work<int> := Info("working", Throw("boom"));
    ghost var before := runtime.View();
    NotMarker(map[], "working");
    assert Exec(layout, Scoped(before, logId), work).outcome == Threw("boom");
    ThrowingWorkLeavesAppenderOpen(layout, logId, before, work);
    RunCapturedEffect(layout, logId, before, work);
    o := handler.RunWithThreadContext(work);
    assert !handler.appender.finished && runtime.context == map[];
    FlushSucceedsIffFinished(runtime.Layout(), runtime.View(), logId, true, false, []);
    stopped := handler.Stop([]);
    writerOpen := handler.appender.writerOpen;
  }

  /** Reusing a handler after its end-of-log record: the writer is closed,
      so the next captured record makes the appender throw; the facade
      swallows that, the supplier returns, and the file stays as it was. */
  method ReusedHandlerScenario(layout: Record -> string, logId: string) returns (o: Outcome<()>, file: seq<string>)
    ensures o == Returned(())
    ensures file == []
  {
    var runtime := new Runtime();
    var handler := new ThreadContextFileLogHandler(".", logId, layout, runtime);
    var work: Work<()> := Return(());
    ghost var before := runtime.View();
    RunCapturedWritesExactlyTheWork(layout, logId, before, work);
    RunCapturedEffect(layout, logId, before, work);
    o := handler.RunWithThreadContextRunnable(work);
    assert handler.appender.finished && handler.appender.file == [] && runtime.context == map[];
    ghost var later := runtime.View();
    var again := Info("again", Return(()));
    NotMarker(Scoped(later, logId).context, "again");
    RunCapturedEffect(layout, logId, later, again);
    DeliverAllAfterFinish(layout, later.sink.value, Since(later, RunCaptured(layout, logId, later, again).world));
    o := handler.RunWithThreadContextRunnable(again);
    file := handler.appender.file;
  }
}
